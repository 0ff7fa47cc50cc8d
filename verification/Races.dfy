/** Two lifecycle jobs of one trip at the same time. Each handler reads the status, validates its
    transition and writes the new status later, without a transaction; here reads and writes are separate
    steps, in any order and of any number of jobs. */
module Races {
  import opened StateMachine

  type JobNo = nat

  datatype Step =
    | Read(job: JobNo, to: Status)  // `findUnique` and `validateTransition`
    | Write(job: JobNo)             // the `update` of the status

  /** What a job read, and the transition it found valid. */
  datatype Validated = Validated(from: Status, to: Status)

  datatype State = State(status: Status, validated: map<JobNo, Validated>)

  function Next(s: State, step: Step): State {
    match step
    case Read(j, to) =>
      if IsValidTransition(s.status, to) then s.(validated := s.validated[j := Validated(s.status, to)])
      else s.(validated := s.validated - {j})  // the job throws
    case Write(j) =>
      if j in s.validated then State(s.validated[j].to, s.validated - {j}) else s
  }

  function After(start: Status, steps: seq<Step>): State {
    if steps == [] then State(start, map[]) else Next(After(start, steps[..|steps|-1]), steps[|steps|-1])
  }

  /** The statuses of the trip, from the start on. */
  function Statuses(start: Status, steps: seq<Step>): seq<Status> {
    if steps == [] then [start]
    else Statuses(start, steps[..|steps|-1]) + [After(start, steps).status]
  }

  /** A write lands on the status its job read, or on one that its transition does not mind: its own target,
      or, for a cancellation, the other status before the start. */
  predicate Unharmed(current: Status, v: Validated) {
    current == v.from || current == v.to || (v.to.Cancelled? && current in {Requested, Accepted})
  }

  predicate WriteIsUnharmed(s: State, step: Step) {
    step.Write? && step.job in s.validated ==> Unharmed(s.status, s.validated[step.job])
  }

  ghost predicate WritesAreUnharmed(start: Status, steps: seq<Step>) {
    forall i :: 0 <= i < |steps| ==> WriteIsUnharmed(After(start, steps[..i]), steps[i])
  }

  ghost predicate ValidatedOnce(s: State) {
    forall j :: j in s.validated ==> IsValidTransition(s.validated[j].from, s.validated[j].to)
  }

  lemma {:induction false} StepsValidate(start: Status, steps: seq<Step>)
    ensures ValidatedOnce(After(start, steps))
    ensures |Statuses(start, steps)| == |steps| + 1 && Statuses(start, steps)[|steps|] == After(start, steps).status
  {
    if steps != [] {
      StepsValidate(start, steps[..|steps|-1]);
    }
  }

  lemma StepIsEdgeIff(s: State, step: Step)
    requires ValidatedOnce(s)
    ensures (Next(s, step).status == s.status || IsValidTransition(s.status, Next(s, step).status)) <==> WriteIsUnharmed(s, step)
  {
  }

  lemma PathPrefix(h: seq<Status>, x: Status)
    requires h != []
    ensures IsPath(h + [x]) <==> IsPath(h) && (h[|h|-1] == x || IsValidTransition(h[|h|-1], x))
  {
    var all := h + [x];
    if IsPath(all) {
      forall i | 0 < i < |h| ensures h[i-1] == h[i] || IsValidTransition(h[i-1], h[i]) {
        assert all[i-1] == h[i-1] && all[i] == h[i];
      }
      assert all[|h|-1] == h[|h|-1] && all[|h|] == x;
    }
  }

  lemma LastWrite(start: Status, steps: seq<Step>)
    requires steps != []
    ensures var before := steps[..|steps|-1];
            WritesAreUnharmed(start, steps)
            <==> WritesAreUnharmed(start, before) && WriteIsUnharmed(After(start, before), steps[|steps|-1])
  {
    hide WriteIsUnharmed;
    hide After;
    var before := steps[..|steps|-1];
    forall i | 0 <= i < |before| ensures before[..i] == steps[..i] && before[i] == steps[i] {
    }
  }

  /** Without transactions the status history is a path of the table exactly when every write lands unharmed:
      what an `update` guarded by the status it read would ensure. */
  lemma {:induction false} HistoryIsPathIff(start: Status, steps: seq<Step>)
    ensures IsPath(Statuses(start, steps)) <==> WritesAreUnharmed(start, steps)
  {
    if steps != [] {
      var before, step := steps[..|steps|-1], steps[|steps|-1];
      HistoryIsPathIff(start, before);
      StepsValidate(start, before);
      StepIsEdgeIff(After(start, before), step);
      PathPrefix(Statuses(start, before), After(start, steps).status);
      LastWrite(start, steps);
    }
  }

  /** No job reads or writes between a job's read and its write. */
  ghost predicate NeverOverlap(steps: seq<Step>) {
    forall i :: 0 <= i < |steps| && steps[i].Write? ==> i > 0 && steps[i-1].Read? && steps[i-1].job == steps[i].job
  }

  /** If handlers never overlap, as the rest of the model has it, histories are paths. */
  lemma AtomicHandlersAreSafe(start: Status, steps: seq<Step>)
    requires NeverOverlap(steps)
    ensures IsPath(Statuses(start, steps))
  {
    forall i | 0 <= i < |steps| ensures WriteIsUnharmed(After(start, steps[..i]), steps[i]) {
      if steps[i].Write? {
        assert steps[..i][..i-1] == steps[..i-1] && steps[..i][i-1] == steps[i-1];
        assert After(start, steps[..i]) == Next(After(start, steps[..i-1]), steps[i-1]);
      }
    }
    HistoryIsPathIff(start, steps);
  }

  const ACCEPT: JobNo := 0
  const CANCEL: JobNo := 1

  lemma AddStep(start: Status, steps: seq<Step>, step: Step)
    ensures After(start, []) == State(start, map[]) && Statuses(start, []) == [start]
    ensures After(start, steps + [step]) == Next(After(start, steps), step)
    ensures Statuses(start, steps + [step]) == Statuses(start, steps) + [Next(After(start, steps), step).status]
  {
    assert (steps + [step])[..|steps|] == steps;
  }

  /** An ACCEPT and a CANCEL of one requested trip: if both have read it before either writes, and the CANCEL
      writes first, the cancelled ride is accepted. */
  lemma CancelledCanBecomeAccepted()
    ensures exists steps ::
              && Statuses(Requested, steps) == [Requested, Requested, Requested, Cancelled, Accepted]
              && !IsPath(Statuses(Requested, steps))
  {
    var s1 := [Read(ACCEPT, Accepted)];
    var s2 := s1 + [Read(CANCEL, Cancelled)];
    var s3 := s2 + [Write(CANCEL)];
    var s4 := s3 + [Write(ACCEPT)];
    var accept, cancel := Validated(Requested, Accepted), Validated(Requested, Cancelled);
    assert s1 == [] + [Read(ACCEPT, Accepted)];
    AddStep(Requested, [], Read(ACCEPT, Accepted));
    AddStep(Requested, s1, Read(CANCEL, Cancelled));
    AddStep(Requested, s2, Write(CANCEL));
    AddStep(Requested, s3, Write(ACCEPT));
    hide After;
    hide Statuses;
    assert After(Requested, s2) == State(Requested, map[ACCEPT := accept][CANCEL := cancel]);
    assert After(Requested, s3).status == Cancelled && ACCEPT in After(Requested, s3).validated;
    var h := Statuses(Requested, s4);
    assert h == [Requested, Requested, Requested, Cancelled, Accepted];
    assert h[3] == Cancelled && h[4] == Accepted;
  }
}
