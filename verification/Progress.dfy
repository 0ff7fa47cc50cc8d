/** Every ride that waits gets somewhere: whatever the GEO searches say and however often drivers have
    rejected it, if its own jobs are run and the clock goes on, then after finitely many cascade runs its
    CANCEL is queued or it is stranded. Without rejects it is the CANCEL. And a stranded ride stays so. */
module Progress {
  import opened Base
  import opened Rides
  import opened Gateway
  import opened Cascade
  import opened Dispatch
  import opened Frames
  import opened Runs
  import opened Chain
  import opened NoLostRide
  import opened LostRides
  import opened BoundedCascade

  /** The clock, and the system's own steps for ride `t`: no call of any client, no lifecycle job. */
  predicate IsOwnStep(e: Event, t: TripId) {
    || e.Tick?
    || (e.On? && e.trip == t && (e.event.Conclude? || e.event.RunRequest? || e.event.Promote? || e.event.RunMatching?))
  }

  // ---- A new offer id ---------------------------------------------------------------------

  lemma {:induction false} LongerThanAll(ids: set<OfferId>) returns (n: nat)
    ensures forall id :: id in ids ==> |id| < n
    decreases ids
  {
    n := 0;
    if id :| id in ids {
      n := LongerThanAll(ids - {id});
      n := if n <= |id| then |id| + 1 else n;
      assert forall x :: x in ids ==> x == id || x in ids - {id};
    }
  }

  lemma NewId(ids: set<OfferId>) returns (id: OfferId)
    ensures id !in ids
  {
    var n := LongerThanAll(ids);
    id := seq(n, _ => 'x');
  }

  // ---- One step ---------------------------------------------------------------------------

  /** How far the token of a job or a request is from its cascade run. */
  function Distance(now: nat, r: Ride, a: Token): nat {
    match a
    case CallToken(_) => 5
    case RequestToken => 4
    case JobToken(k) =>
      if k !in r.matching.jobs then 0
      else match r.matching.jobs[k].delayedUntil
        case Some(due) => if now < due then 3 else 2
        case None => 1
  }

  /** The step that brings a token on. */
  function StepFor(now: nat, t: TripId, r: Ride, a: Token, geo: Geo, newId: OfferId): Event {
    match a
    case CallToken(c) => On(t, RideEvent.Conclude(c))
    case RequestToken => On(t, RideEvent.RunRequest)
    case JobToken(k) =>
      if k !in r.matching.jobs then Tick(0)
      else match r.matching.jobs[k].delayedUntil
        case Some(due) => if now < due then Tick(due - now) else On(t, RideEvent.Promote(k))
        case None => On(t, RideEvent.RunMatching(k, geo, newId))
  }

  /** What becomes of a request or job that does not run a cascade yet. */
  function NextToken(a: Token): Token {
    if a.RequestToken? then JobToken(First) else a
  }

  lemma ConcludeEndsCall(env: Env, r: Ride, c: CallId)
    requires IsToken(r, CallToken(c))
    ensures |Gateway.Conclude(env, r, c).calls| < |r.calls|
  {
    var calls := Gateway.Conclude(env, r, c).calls;
    assert calls == r.calls - {c} && calls.Keys == r.calls.Keys - {c};
    assert |calls| == |calls.Keys| && |r.calls| == |r.calls.Keys|;
  }

  lemma RequestComesNearer(r: Ride)
    requires StartInv(r) && r.requests.WellFormed() && RideRequest in r.requests.jobs
    ensures var r' := Cascade.RunRequest(r);
            IsToken(r', JobToken(First)) && r'.matching.jobs[First].delayedUntil.None? && r'.calls == r.calls
  {
  }

  lemma PromoteComesNearer(env: Env, r: Ride, k: MatchKey)
    requires IsToken(r, JobToken(k)) && r.matching.jobs[k].delayedUntil.Some?
    requires r.matching.jobs[k].delayedUntil.value <= env.now
    ensures var r' := Cascade.Promote(env, r, k);
            IsToken(r', JobToken(k)) && r'.matching.jobs[k].delayedUntil.None? && r'.calls == r.calls
  {
    PromoteKeepsTokens(env, r, k);
  }

  /** The step for a token runs its cascade, ends its call, or brings it nearer. */
  lemma ComesNearer(w: World, t: TripId, a: Token, geo: Geo, newId: OfferId)
    requires t in w.rides && StartInv(w.rides[t]) && w.rides[t].requests.WellFormed() && IsToken(w.rides[t], a)
    requires newId !in w.rides[t].offers
    ensures var r, e := w.rides[t], StepFor(w.env.now, t, w.rides[t], a, geo, newId);
            var w' := Apply(w, e);
            && t in w'.rides
            && if e.On? && e.event.RunMatching? then RunsCascade(r, e.event) && e.event.geo == geo
               else if a.CallToken? then |w'.rides[t].calls| < |r.calls|
               else
                 && w'.rides[t].calls == r.calls && IsToken(w'.rides[t], NextToken(a))
                 && Distance(w'.env.now, w'.rides[t], NextToken(a)) < Distance(w.env.now, r, a)
  {
    var r := w.rides[t];
    match a
    case CallToken(c) => ConcludeEndsCall(w.env, r, c);
    case RequestToken => RequestComesNearer(r);
    case JobToken(k) =>
      if r.matching.jobs[k].delayedUntil.Some? && r.matching.jobs[k].delayedUntil.value <= w.env.now {
        PromoteComesNearer(w.env, r, k);
      }
  }

  /** The system's own steps leave the trip's row alone and are no rejects. */
  lemma OwnStepsLeaveTrip(w: World, t: TripId, e: Event)
    requires t in w.rides && IsOwnStep(e, t)
    ensures t in Apply(w, e).rides && Apply(w, e).rides[t].trip == w.rides[t].trip
    ensures e.On? ==> !MarksReject(w.env, w.rides[t], e.event)
  {
    if e.On? {
      if e.event.Conclude? {
        GatewayFrame(w.env, w.rides[t], e.event);
      } else {
        MatchingFrame(w.env, w.rides[t], e.event);
      }
      hide RideStep;
    }
  }

  // ---- Until nothing is left to run -------------------------------------------------------

  ghost predicate IsRequested(es: seq<Event>, t: TripId) {
    t in Exec(es).rides && Exec(es).rides[t].trip.status.Requested?
  }

  ghost predicate CancelQueued(es: seq<Event>, t: TripId) {
    t in Exec(es).rides && CancelKey in Exec(es).rides[t].lifecycle.jobs
  }

  /** How many cascade runs the ride can still have. */
  function RunsLeft(es: seq<Event>, t: TripId): (n: int)
  {
    11 * (1 + Rejects(es, t)) - CascadeRuns(es, t)
  }

  lemma OwnStepKeepsRequested(es: seq<Event>, t: TripId, e: Event)
    requires IsRequested(es, t) && IsOwnStep(e, t)
    ensures IsRequested(es + [e], t) && Exec(es + [e]) == Apply(Exec(es), e)
    ensures Rejects(es + [e], t) == Rejects(es, t)
    ensures CascadeRuns(es + [e], t) == CascadeRuns(es, t) +
              if e.On? && RunsCascade(Exec(es).rides[t], e.event) then 1 else 0
  {
    hide MarksReject;
    hide RunsCascade;
    assert (es + [e])[..|es|] == es;
    CountNext(es + [e], t);
    OwnStepsLeaveTrip(Exec(es), t, e);
    hide Apply;
  }

  lemma StateOfRide(es: seq<Event>, t: TripId)
    requires t in Exec(es).rides
    ensures StartInv(Exec(es).rides[t]) && Exec(es).rides[t].requests.WellFormed()
  {
    CountHolds(es, t);
    ReachableInv(es);
    InvOf(Exec(es), t);
    hide StartInv;
  }

  /** The events `more` are own steps of ride `t`, whose n-th cascade run gets the n-th GEO answer. */
  ghost predicate DrivenBy(es: seq<Event>, more: seq<Event>, t: TripId, geos: nat -> Geo) {
    forall i :: 0 <= i < |more| ==>
      && IsOwnStep(more[i], t)
      && (more[i].On? && more[i].event.RunMatching? ==> more[i].event.geo == geos(CascadeRuns(es + more[..i], t)))
  }

  lemma DriveFirst(es: seq<Event>, e: Event, more: seq<Event>, t: TripId, geos: nat -> Geo)
    requires DrivenBy(es + [e], more, t, geos) && IsOwnStep(e, t)
    requires e.On? && e.event.RunMatching? ==> e.event.geo == geos(CascadeRuns(es, t))
    ensures DrivenBy(es, [e] + more, t, geos) && es + ([e] + more) == (es + [e]) + more
  {
    var all := [e] + more;
    forall i | 0 <= i < |all| ensures IsOwnStep(all[i], t)
      ensures all[i].On? && all[i].event.RunMatching? ==> all[i].event.geo == geos(CascadeRuns(es + all[..i], t))
    {
      if i == 0 {
        assert es + all[..0] == es;
      } else {
        assert es + all[..i] == (es + [e]) + more[..i-1] && all[i] == more[i-1];
      }
    }
  }

  /** Where own steps end: a CANCEL waits, or nothing is left. */
  ghost predicate IsOver(es: seq<Event>, t: TripId) {
    IsRequested(es, t) && (CancelQueued(es, t) || Stranded(Exec(es).rides[t]))
  }

  lemma {:induction false} Drive(es: seq<Event>, t: TripId, a: Token, geos: nat -> Geo) returns (more: seq<Event>)
    requires IsRequested(es, t) && IsToken(Exec(es).rides[t], a)
    ensures DrivenBy(es, more, t, geos) && IsOver(es + more, t) && Rejects(es + more, t) == Rejects(es, t)
    decreases RunsLeft(es, t), |Exec(es).rides[t].calls|, Distance(Exec(es).env.now, Exec(es).rides[t], a)
  {
    StateOfRide(es, t);
    BoundedRuns(es, t);
    var w := Exec(es);
    var newId := NewId(w.rides[t].offers.Keys);
    var geo := geos(CascadeRuns(es, t));
    var e := StepFor(w.env.now, t, w.rides[t], a, geo, newId);
    ComesNearer(w, t, a, geo, newId);
    OwnStepKeepsRequested(es, t, e);
    BoundedRuns(es + [e], t);
    hide StepFor;
    hide Apply;
    hide IsToken;
    hide Distance;
    hide RunsCascade;
    hide StartInv;
    hide IsOver;
    var rest;
    if a.CallToken? || (e.On? && e.event.RunMatching?) {
      rest := ChainsRunOut(es + [e], t, geos);
    } else {
      rest := Drive(es + [e], t, NextToken(a), geos);
    }
    more := [e] + rest;
    DriveFirst(es, e, rest, t, geos);
  }

  /** From every reachable state in which a ride is REQUESTED, with rejects of any kind behind it and whatever
      the GEO searches answer, the clock and the system's own jobs alone bring the ride to a queued CANCEL or
      strand it. */
  lemma {:induction false} ChainsRunOut(es: seq<Event>, t: TripId, geos: nat -> Geo) returns (more: seq<Event>)
    requires IsRequested(es, t)
    ensures DrivenBy(es, more, t, geos) && IsOver(es + more, t) && Rejects(es + more, t) == Rejects(es, t)
    ensures CascadeRuns(es + more, t) <= 11 * (1 + Rejects(es, t))
    decreases RunsLeft(es, t), |Exec(es).rides[t].calls|, 6
  {
    BoundedRuns(es, t);
    if CancelQueued(es, t) || Stranded(Exec(es).rides[t]) {
      more := [];
      assert es + more == es;
    } else {
      var a :| IsToken(Exec(es).rides[t], a);
      hide IsToken;
      hide IsOver;
      more := Drive(es, t, a, geos);
      BoundedRuns(es + more, t);
    }
  }

  /** If nobody rejected the ride, it is the CANCEL, within eleven cascade runs in all. */
  lemma CancelIsReached(es: seq<Event>, t: TripId, geos: nat -> Geo) returns (more: seq<Event>)
    requires IsRequested(es, t) && Rejects(es, t) == 0
    ensures DrivenBy(es, more, t, geos) && IsRequested(es + more, t) && CancelQueued(es + more, t)
    ensures CascadeRuns(es + more, t) <= 11
  {
    more := ChainsRunOut(es, t, geos);
    NoLostRide.NoLostRide(es + more, t);
  }

  // ---- A stranded ride --------------------------------------------------------------------

  /** Lost, and no cancel call of its rider is under way. */
  ghost predicate Abandoned(r: Ride) {
    Stranded(r) && forall c :: c in r.calls ==> !r.calls[c].RiderCancelChecked?
  }

  lemma ConcludeLeavesAbandoned(env: Env, r: Ride, c: CallId)
    requires Abandoned(r)
    ensures Abandoned(Gateway.Conclude(env, r, c))
  {
    assert c in r.calls ==> !IsToken(r, CallToken(c));
    ConcludeOtherKeepsTokens(env, r, c);
  }

  lemma MatchingLeavesAbandoned(env: Env, r: Ride, e: RideEvent)
    requires Abandoned(r) && (e.RunRequest? || e.Promote? || e.RunMatching?)
    ensures Abandoned(RideStep(env, r, e).ride)
  {
    match e
    case RunRequest => assert !IsToken(r, RequestToken);
    case Promote(k) => PromoteKeepsTokens(env, r, k);
    case RunMatching(k, geo, newId) =>
      assert !IsToken(r, JobToken(k));
      if Ready(r, k, newId) {
        InertRunKeepsTokens(env, r, k, geo, newId);
      }
  }

  lemma OwnStepLeavesAbandoned(w: World, t: TripId, e: Event)
    requires t in w.rides && Abandoned(w.rides[t]) && IsOwnStep(e, t)
    ensures t in Apply(w, e).rides && Abandoned(Apply(w, e).rides[t])
  {
    hide Abandoned;
    RideAfter(w, e, t);
    if e.On? {
      if e.event.Conclude? {
        ConcludeLeavesAbandoned(w.env, w.rides[t], e.event.call);
      } else {
        MatchingLeavesAbandoned(w.env, w.rides[t], e.event);
      }
    }
  }

  /** The clock and the system's own steps never match a stranded ride again or cancel it: only an ACCEPT
      that is already queued, or a client, can move it. */
  lemma {:induction false} StrandedStays(es: seq<Event>, more: seq<Event>, t: TripId)
    requires t in Exec(es).rides && Abandoned(Exec(es).rides[t])
    requires forall i :: 0 <= i < |more| ==> IsOwnStep(more[i], t)
    ensures t in Exec(es + more).rides && Abandoned(Exec(es + more).rides[t])
    decreases |more|
  {
    hide Abandoned;
    hide Apply;
    if more == [] {
      assert es + more == es;
    } else {
      var before, all := more[..|more|-1], es + more;
      assert forall i :: 0 <= i < |before| ==> before[i] == more[i];
      StrandedStays(es, before, t);
      assert all[..|all|-1] == es + before && all[|all|-1] == more[|more|-1];
      OwnStepLeavesAbandoned(Exec(es + before), t, more[|more|-1]);
    }
  }
}
