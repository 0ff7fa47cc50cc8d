/** `handleComplete` cut at its writes. The process may die after any of them and BullMQ hands the job
    to another worker; the handler is written so that starting over repairs whatever was left. */
module Completion {
  import opened Base
  import opened StateMachine
  import opened Rides
  import opened Lifecycle
  import opened Storage
  import opened StoreOps
  import opened StoreEffects

  /** A completion the handler accepts: a first run, or a rerun after the row was written. */
  predicate Completable(s: Store, t: TripId) {
    t in s.trips && s.trips[t].status in {Started, Completed}
  }

  /** One uninterrupted run. */
  function Complete(s: Store, t: TripId): Store
    requires t in s.trips
  {
    DoAll(s, t, CompleteOps(s, t))
  }

  /** The stores after a run that dies after `n` of its writes. */
  function Crash(s: Store, t: TripId, n: nat): Store
    requires t in s.trips
  {
    DoAll(s, t, CompleteOps(s, t)[..Min(n, |CompleteOps(s, t)|)])
  }

  function AtClock(s: Store, now: nat): Store {
    s.(env := s.env.(now := now))
  }

  // ---- What a run and a part of a run leave -----------------------------------------------

  /** Everything a completion does: the row, the busy set and the three keys. */
  function Finished(s: Store, t: TripId): Store
    requires t in s.trips
  {
    s.(trips := s.trips[t := CompletedTrip(s.trips[t], s.env.now)],
       env := s.env.(busy := s.env.busy - DriversUser(s, s.trips[t].driver)),
       locks := s.locks - {t}, otps := s.otps - {t}, attempts := s.attempts - {t})
  }

  function SaveOps(s: Store, t: TripId): seq<Op>
    requires t in s.trips
  {
    if s.trips[t].status.Completed? then [] else [SaveTrip(CompletedTrip(s.trips[t], s.env.now))]
  }

  lemma SaveDone(s: Store, t: TripId)
    requires t in s.trips
    ensures DoAll(s, t, SaveOps(s, t)) == s.(trips := s.trips[t := CompletedTrip(s.trips[t], s.env.now)])
  {
    if s.trips[t].status.Completed? {
      assert s.trips[t := s.trips[t]] == s.trips;
    } else {
      DoThen(s, t, [], SaveTrip(CompletedTrip(s.trips[t], s.env.now)));
    }
  }

  /** One uninterrupted run does all of it. */
  lemma CompleteIsFinished(s: Store, t: TripId)
    requires Completable(s, t)
    ensures Complete(s, t) == Finished(s, t)
  {
    var keys := [DeleteLock, DeleteOtp, DeleteAttempts];
    assert CompleteOps(s, t) == SaveOps(s, t) + ReleaseOps(s, t) + keys;
    hide CompleteOps;
    hide SaveOps;
    hide ReleaseOps;
    hide DoAll;
    hide DriversUser;
    DoAppend(s, t, SaveOps(s, t) + ReleaseOps(s, t), keys);
    DoAppend(s, t, SaveOps(s, t), ReleaseOps(s, t));
    var s1 := DoAll(s, t, SaveOps(s, t));
    SaveDone(s, t);
    ReleaseEffect(s, s1, t);
    CompleteTail(DoAll(s1, t, ReleaseOps(s, t)), t);
  }

  /** What a partial run can have changed, and what it cannot. */
  ghost predicate PartlyDone(s: Store, c: Store, t: TripId)
    requires t in s.trips
  {
    && (c.trips == s.trips || c.trips == s.trips[t := CompletedTrip(s.trips[t], s.env.now)])
    && (c.env.busy == s.env.busy || c.env.busy == s.env.busy - DriversUser(s, s.trips[t].driver))
    && (c.locks == s.locks || c.locks == s.locks - {t})
    && (c.otps == s.otps || c.otps == s.otps - {t})
    && (c.attempts == s.attempts || c.attempts == s.attempts - {t})
    && c == s.(trips := c.trips, env := s.env.(busy := c.env.busy), locks := c.locks, otps := c.otps, attempts := c.attempts)
  }

  /** One of the completion's writes. */
  predicate IsItsWrite(s: Store, t: TripId, op: Op)
    requires t in s.trips
  {
    match op
    case SaveTrip(row) => row == CompletedTrip(s.trips[t], s.env.now)
    case RemoveBusy(u) => DriversUser(s, s.trips[t].driver) == {u}
    case _ => op in {DeleteLock, DeleteOtp, DeleteAttempts}
  }

  lemma WriteIsPartlyDone(s: Store, c: Store, t: TripId, op: Op)
    requires t in s.trips && PartlyDone(s, c, t) && IsItsWrite(s, t, op)
    ensures PartlyDone(s, Do(c, t, op), t)
  {
    var freed := DriversUser(s, s.trips[t].driver);
    assert (s.env.busy - freed) - freed == s.env.busy - freed;
    assert s.trips[t := CompletedTrip(s.trips[t], s.env.now)][t := CompletedTrip(s.trips[t], s.env.now)]
        == s.trips[t := CompletedTrip(s.trips[t], s.env.now)];
    assert (s.locks - {t}) - {t} == s.locks - {t} && (s.otps - {t}) - {t} == s.otps - {t};
    assert (s.attempts - {t}) - {t} == s.attempts - {t};
  }

  lemma {:induction false} WritesArePartlyDone(s: Store, t: TripId, ops: seq<Op>)
    requires t in s.trips && forall i :: 0 <= i < |ops| ==> IsItsWrite(s, t, ops[i])
    ensures PartlyDone(s, DoAll(s, t, ops), t)
  {
    if ops != [] {
      WritesArePartlyDone(s, t, ops[..|ops|-1]);
      hide Do;
      hide PartlyDone;
      hide IsItsWrite;
      WriteIsPartlyDone(s, DoAll(s, t, ops[..|ops|-1]), t, ops[|ops|-1]);
    }
  }

  lemma OpsAreItsWrites(s: Store, t: TripId)
    requires t in s.trips
    ensures forall i :: 0 <= i < |CompleteOps(s, t)| ==> IsItsWrite(s, t, CompleteOps(s, t)[i])
  {
  }

  lemma CrashIsPartlyDone(s: Store, t: TripId, n: nat)
    requires t in s.trips
    ensures PartlyDone(s, Crash(s, t, n), t)
  {
    OpsAreItsWrites(s, t);
    hide PartlyDone;
    hide IsItsWrite;
    hide CompleteOps;
    WritesArePartlyDone(s, t, CompleteOps(s, t)[..Min(n, |CompleteOps(s, t)|)]);
  }

  /** A row that was completed stays; one that was not is completed now. */
  lemma RowsOnce(m: map<TripId, Trip>, c: map<TripId, Trip>, t: TripId, now: nat, later: nat)
    requires t in m && (c == m || c == m[t := CompletedTrip(m[t], now)])
    ensures t in c && c[t].driver == m[t].driver
    ensures m[t].status in {Started, Completed} ==> c[t].status in {Started, Completed}
    ensures c[t := CompletedTrip(c[t], later)]
         == m[t := CompletedTrip(m[t], if c[t].status.Completed? then now else later)]
  {
    var row := CompletedTrip(m[t], now);
    assert m[t := row][t := row] == m[t := row];
  }

  lemma RemovedOnce<T>(m: map<TripId, T>, c: map<TripId, T>, t: TripId)
    requires c == m || c == m - {t}
    ensures c - {t} == m - {t}
  {
    assert (m - {t}) - {t} == m - {t};
  }

  lemma FreedOnce(busy: set<UserId>, c: set<UserId>, freed: set<UserId>)
    requires c == busy || c == busy - freed
    ensures c - freed == busy - freed
  {
    assert (busy - freed) - freed == busy - freed;
  }

  /** Finishing what was partly done is finishing. */
  lemma FinishedOnce(s: Store, c: Store, t: TripId, later: nat)
    requires Completable(s, t) && PartlyDone(s, c, t)
    ensures Completable(c, t)
    ensures Finished(AtClock(c, later), t)
         == AtClock(Finished(if c.trips[t].status.Completed? then s else AtClock(s, later), t), later)
  {
    RowsOnce(s.trips, c.trips, t, s.env.now, later);
    assert DriversUser(c, c.trips[t].driver) == DriversUser(s, s.trips[t].driver);
    FreedOnce(s.env.busy, c.env.busy, DriversUser(s, s.trips[t].driver));
    RemovedOnce(s.locks, c.locks, t);
    RemovedOnce(s.otps, c.otps, t);
    RemovedOnce(s.attempts, c.attempts, t);
    var freed := DriversUser(s, s.trips[t].driver);
    assert DriversUser(AtClock(c, later), c.trips[t].driver) == freed;
    assert DriversUser(AtClock(s, later), s.trips[t].driver) == freed;
    hide DriversUser;
    hide CompletedTrip;
  }

  // ---- Crashes ----------------------------------------------------------------------------

  lemma OnlySavesTouchRows(s: Store, t: TripId, op: Op)
    requires !op.SaveTrip?
    ensures Do(s, t, op).trips == s.trips
  {
  }

  lemma {:induction false} FirstWriteStays(s: Store, t: TripId, ops: seq<Op>)
    requires t in s.trips && forall i :: 1 <= i < |ops| ==> !ops[i].SaveTrip?
    ensures DoAll(s, t, ops).trips == if ops != [] then Do(s, t, ops[0]).trips else s.trips
  {
    hide Do;
    if |ops| > 1 {
      FirstWriteStays(s, t, ops[..|ops|-1]);
      OnlySavesTouchRows(DoAll(s, t, ops[..|ops|-1]), t, ops[|ops|-1]);
    } else if |ops| == 1 {
      assert ops[..0] == [];
    }
  }

  lemma OnlyFirstSaves(s: Store, t: TripId)
    requires Completable(s, t)
    ensures var ops := CompleteOps(s, t);
            && |ops| >= 3 && (forall i :: 1 <= i < |ops| ==> !ops[i].SaveTrip?)
            && Do(s, t, ops[0]).trips[t].status.Completed?
  {
  }

  lemma RowIsWrittenFirst(s: Store, t: TripId, n: nat)
    requires Completable(s, t) && n > 0
    ensures t in Crash(s, t, n).trips && Crash(s, t, n).trips[t].status.Completed?
  {
    OnlyFirstSaves(s, t);
    hide CompleteOps;
    hide Do;
    hide DoAll;
    var ops := CompleteOps(s, t);
    var done := ops[..Min(n, |ops|)];
    assert done != [] && done[0] == ops[0];
    FirstWriteStays(s, t, done);
    hide Completable;
  }

  /** Crashing after any number of writes and running again leaves the stores as one uninterrupted run does;
      the completion time is that of the run that wrote the row. */
  lemma CompletionSurvivesCrash(s: Store, t: TripId, n: nat, later: nat)
    requires Completable(s, t)
    ensures var c := Crash(s, t, n);
            && Completable(c, t)
            && Complete(AtClock(c, later), t)
               == AtClock(Complete(if c.trips[t].status.Completed? then s else AtClock(s, later), t), later)
            && (n > 0 ==> c.trips[t].status.Completed?)
  {
    var c := Crash(s, t, n);
    CrashIsPartlyDone(s, t, n);
    FinishedOnce(s, c, t, later);
    if n > 0 {
      RowIsWrittenFirst(s, t, n);
    }
    hide Crash;
    hide PartlyDone;
    hide Finished;
    hide Complete;
    CompleteIsFinished(AtClock(c, later), t);
    CompleteIsFinished(s, t);
    CompleteIsFinished(AtClock(s, later), t);
  }

  /** A job that crashes again and again: each attempt has its clock and dies after its own number of
      writes. */
  function CrashAll(s: Store, t: TripId, crashes: seq<(nat, nat)>): Store
    requires t in s.trips
  {
    if crashes == [] then s
    else
      var c := CrashAll(s, t, crashes[..|crashes|-1]);
      if t in c.trips then Crash(AtClock(c, crashes[|crashes|-1].0), t, crashes[|crashes|-1].1) else c
  }

  lemma CompleteKeepsClock(s: Store, t: TripId)
    requires Completable(s, t)
    ensures AtClock(Complete(s, t), s.env.now) == Complete(s, t)
  {
    CompleteIsFinished(s, t);
  }

  lemma NothingWritten(s: Store, t: TripId)
    requires t in s.trips
    ensures Crash(s, t, 0) == s
  {
    assert CompleteOps(s, t)[..0] == [];
    hide CompleteOps;
  }

  /** The clock of the first of the attempts that wrote anything; `end` is that of the one that gets through. */
  function FirstClock(crashes: seq<(nat, nat)>, end: nat): nat {
    if crashes == [] then end
    else
      var last := crashes[|crashes|-1];
      FirstClock(crashes[..|crashes|-1], if last.1 > 0 then last.0 else end)
  }

  /** The attempts before `i` died before their first write. */
  ghost predicate WroteNothingBefore(crashes: seq<(nat, nat)>, i: nat) {
    forall j :: 0 <= j < i && j < |crashes| ==> crashes[j].1 == 0
  }

  lemma {:induction false} FirstClockIs(crashes: seq<(nat, nat)>, end: nat, i: nat)
    requires i <= |crashes| && WroteNothingBefore(crashes, i)
    ensures i == |crashes| ==> FirstClock(crashes, end) == end
    ensures i < |crashes| && crashes[i].1 > 0 ==> FirstClock(crashes, end) == crashes[i].0
  {
    if crashes != [] {
      var before, last := crashes[..|crashes|-1], crashes[|crashes|-1];
      FirstClockIs(before, if last.1 > 0 then last.0 else end, Min(i, |before|));
    }
  }

  /** However often the job crashes, the run that gets through leaves the stores as one uninterrupted run at the
      clock of the first attempt that wrote anything does. */
  lemma {:induction false} CompletionSurvivesCrashes(s: Store, t: TripId, crashes: seq<(nat, nat)>, end: nat)
    requires Completable(s, t)
    ensures Completable(CrashAll(s, t, crashes), t)
    ensures Complete(AtClock(CrashAll(s, t, crashes), end), t)
         == AtClock(Complete(AtClock(s, FirstClock(crashes, end)), t), end)
  {
    if crashes == [] {
      CompleteKeepsClock(AtClock(s, end), t);
    } else {
      var before, last := crashes[..|crashes|-1], crashes[|crashes|-1];
      CompletionSurvivesCrashes(s, t, before, if last.1 > 0 then last.0 else end);
      var c := AtClock(CrashAll(s, t, before), last.0);
      CompletionSurvivesCrash(c, t, last.1, end);
      if last.1 == 0 {
        NothingWritten(c, t);
      }
      hide Complete;
      hide Crash;
      assert AtClock(c, end) == AtClock(CrashAll(s, t, before), end);
    }
  }

  // ---- The row that is left ---------------------------------------------------------------

  /** One uninterrupted run: a STARTED row is completed at the run's clock, a COMPLETED one stays as it is. */
  lemma CompleteLeavesRow(s: Store, t: TripId)
    requires Completable(s, t)
    ensures t in Complete(s, t).trips
    ensures s.trips[t].status == Started ==> IsCompletion(s.trips[t], Complete(s, t).trips[t], s.env.now)
    ensures s.trips[t].status == Started && s.trips[t].completedAt == None ==>
              Complete(s, t).trips[t].completedAt == Some(s.env.now)
    ensures s.trips[t].status == Completed ==> Complete(s, t).trips == s.trips
  {
    CompleteEffect(s, t);
    hide CompleteOps;
    hide DoAll;
  }

  /** A STARTED row without a completion time, after any number of crashes and a run that gets through: it is
      COMPLETED, with the tariff's fare, at the clock of the first attempt that wrote anything: the `i`-th, or
      the one that got through. */
  lemma CrashesKeepFirstClock(s: Store, t: TripId, crashes: seq<(nat, nat)>, end: nat, i: nat)
    requires t in s.trips && s.trips[t].status == Started && s.trips[t].completedAt == None
    requires i <= |crashes| && WroteNothingBefore(crashes, i) && (i < |crashes| ==> crashes[i].1 > 0)
    ensures var clock := if i < |crashes| then crashes[i].0 else end;
            && t in CrashAll(s, t, crashes).trips
            && var s' := Complete(AtClock(CrashAll(s, t, crashes), end), t);
               t in s'.trips && IsCompletion(s.trips[t], s'.trips[t], clock) && s'.trips[t].completedAt == Some(clock)
  {
    FirstClockIs(crashes, end, i);
    CompletionSurvivesCrashes(s, t, crashes, end);
    CompleteLeavesRow(AtClock(s, FirstClock(crashes, end)), t);
    hide Complete;
    hide CrashAll;
  }

  /** A rerun never changes the row: not the fare, not the distance, not the completion time. */
  lemma RerunsKeepRow(s: Store, t: TripId)
    requires t in s.trips && s.trips[t].status.Completed?
    ensures Complete(s, t).trips == s.trips
  {
    CompleteIsFinished(s, t);
    assert s.trips[t := s.trips[t]] == s.trips;
  }
}
