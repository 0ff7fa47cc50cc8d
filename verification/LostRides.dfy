/** Lost rides with rejects of any kind. A reject of an offer that is no longer PENDING starts a second
    chain beside the living one, so a ride may have several tokens; but they can be counted. Each stale
    reject adds one, and each job that the queue drops because its id is used takes one away: the
    continuation of a cascade run, or the restart after a reject. A ride is lost when none is left. */
module LostRides {
  import opened Base
  import opened Rides
  import opened Gateway
  import opened Cascade
  import opened Lifecycle
  import opened Dispatch
  import opened Frames
  import opened Invariants
  import opened Runs
  import opened Chain
  import opened NoLostRide

  /** A reject whose restart id has already been used: the queue drops the restart. */
  predicate DropsRestart(r: Ride, e: RideEvent) {
    && e.Conclude? && e.call in r.calls && r.calls[e.call].Rejecting?
    && RejectOf(r.calls[e.call].offer) in r.matching.seen
  }

  function DroppedRestarts(es: seq<Event>, t: TripId): nat {
    Count(es, t, (env: Env, r, e) => DropsRestart(r, e))
  }

  ghost function Tokens(r: Ride): (tokens: set<Token>)
    ensures forall a :: a in tokens <==> IsToken(r, a)
  {
    (set c: CallId | c in r.calls && (r.calls[c].Creating? || r.calls[c].Rejecting?) :: CallToken(c))
    + (if RideRequest in r.requests.jobs then {RequestToken} else {})
    + (set k | k in r.matching.jobs && !Inert(r, r.matching.jobs[k]) :: JobToken(k))
  }

  /** A ride is created, requested and first matched once. */
  ghost predicate StartInv(r: Ride) {
    && (forall c, c' :: c in r.calls && c' in r.calls && r.calls[c].Creating? && r.calls[c'].Creating? ==> c == c')
    && (forall c :: c in r.calls && r.calls[c].Creating? ==> RideRequest !in r.requests.seen)
    && (First in r.matching.seen ==> RideRequest in r.requests.seen && RideRequest !in r.requests.jobs)
  }

  // ---- How one event changes the number of tokens -----------------------------------------

  lemma SameCount(r: Ride, r': Ride)
    requires SameTokens(r, r')
    ensures Tokens(r') == Tokens(r)
  {
    hide IsToken;
    hide Tokens;
  }

  lemma ReplacesCount(r: Ride, r': Ride, before: Token, after: Token)
    requires Replaces(r, r', before, after) && !IsToken(r, after)
    ensures |Tokens(r')| == |Tokens(r)|
  {
    hide IsToken;
    hide Tokens;
    assert Tokens(r') == Tokens(r) - {before} + {after};
  }

  lemma ConsumesCount(r: Ride, r': Ride, before: Token)
    requires Consumes(r, r', before)
    ensures |Tokens(r')| == |Tokens(r)| - 1
  {
    hide IsToken;
    hide Tokens;
    assert Tokens(r') == Tokens(r) - {before};
  }

  ghost predicate Gains(r: Ride, r': Ride, after: Token) {
    !IsToken(r, after) && forall a :: IsToken(r', a) <==> IsToken(r, a) || a == after
  }

  lemma GainsCount(r: Ride, r': Ride, after: Token)
    requires Gains(r, r', after)
    ensures |Tokens(r')| == |Tokens(r)| + 1
  {
    hide IsToken;
    hide Tokens;
    assert Tokens(r') == Tokens(r) + {after};
  }

  /** By how much an event changes the number of tokens of a ride that stays requested. */
  function Change(env: Env, r: Ride, e: RideEvent): int {
    if !RejectHitsPending(env, r, e) then 1
    else if DropsContinuation(env, r, e) || DropsRestart(r, e) then -1
    else 0
  }

  lemma StaleRejectGains(env: Env, r: Ride, c: CallId, u: UserId, o: OfferId)
    requires MarksReject(env, r, Begin(c, RejectRide(u, o))) && !r.offers[o].status.Pending?
    ensures Gains(r, Gateway.Begin(env, r, c, RejectRide(u, o)), CallToken(c))
  {
  }

  lemma NoCallNoToken(r: Ride, c: CallId)
    requires c !in r.calls
    ensures !IsToken(r, CallToken(c))
  {
  }

  lemma UnusedIsNoToken(r: Ride, k: MatchKey)
    requires r.matching.WellFormed() && k !in r.matching.seen
    ensures !IsToken(r, JobToken(k))
  {
  }

  lemma BeginCount(env: Env, r: Ride, c: CallId, req: Request)
    requires RideInv(env.now, env.directory, r)
    ensures |Tokens(Gateway.Begin(env, r, c, req))| == |Tokens(r)| + Change(env, r, Begin(c, req))
  {
    hide IsToken;
    hide Tokens;
    var r' := Gateway.Begin(env, r, c, req);
    if !MarksReject(env, r, Begin(c, req)) {
      OtherBeginKeepsTokens(env, r, c, req);
      SameCount(r, r');
    } else if r.offers[req.offer].status.Pending? {
      RejectMovesToken(env, r, c, req.user, req.offer);
      NoCallNoToken(r, c);
      ReplacesCount(r, r', JobToken(TimeoutOf(req.offer)), CallToken(c));
    } else {
      StaleRejectGains(env, r, c, req.user, req.offer);
      GainsCount(r, r', CallToken(c));
    }
  }

  lemma CreatingMoves(env: Env, r: Ride, c: CallId)
    requires r.requests.WellFormed() && StartInv(r) && c in r.calls && r.calls[c].Creating?
    ensures Replaces(r, Gateway.Conclude(env, r, c), CallToken(c), RequestToken) && !IsToken(r, RequestToken)
  {
  }

  lemma RejectingMoves(env: Env, r: Ride, c: CallId)
    requires r.matching.WellFormed() && c in r.calls && r.calls[c].Rejecting?
    ensures var r', after := Gateway.Conclude(env, r, c), JobToken(RejectOf(r.calls[c].offer));
            if after.key in r.matching.seen then Consumes(r, r', CallToken(c))
            else Replaces(r, r', CallToken(c), after) && !IsToken(r, after)
  {
  }

  lemma QueuesAreWellFormed(env: Env, r: Ride)
    requires RideInv(env.now, env.directory, r)
    ensures r.requests.WellFormed() && r.matching.WellFormed() && r.lifecycle.WellFormed()
    ensures forall o :: o !in r.offers ==> TimeoutOf(o) !in r.matching.seen
    ensures forall o :: o in r.offers && r.offers[o].status.Pending? ==> RejectOf(o) !in r.matching.seen
  {
  }

  lemma ConcludeCount(env: Env, r: Ride, c: CallId)
    requires RideInv(env.now, env.directory, r) && StartInv(r)
    ensures |Tokens(Gateway.Conclude(env, r, c))| == |Tokens(r)| + Change(env, r, Conclude(c))
  {
    hide IsToken;
    hide Tokens;
    hide RideInv;
    hide StartInv;
    var r' := Gateway.Conclude(env, r, c);
    if c in r.calls && r.calls[c].Creating? {
      QueuesAreWellFormed(env, r);
      CreatingMoves(env, r, c);
      ReplacesCount(r, r', CallToken(c), RequestToken);
    } else if c in r.calls && r.calls[c].Rejecting? {
      QueuesAreWellFormed(env, r);
      RejectingMoves(env, r, c);
      if DropsRestart(r, Conclude(c)) {
        ConsumesCount(r, r', CallToken(c));
      } else {
        ReplacesCount(r, r', CallToken(c), JobToken(RejectOf(r.calls[c].offer)));
      }
    } else {
      ConcludeOtherKeepsTokens(env, r, c);
      SameCount(r, r');
    }
  }

  lemma RequestMoves(r: Ride)
    requires r.matching.WellFormed() && r.requests.WellFormed() && StartInv(r) && RideRequest in r.requests.jobs
    ensures Replaces(r, Cascade.RunRequest(r), RequestToken, JobToken(First)) && !IsToken(r, JobToken(First))
  {
  }

  lemma RunRequestCount(r: Ride)
    requires r.matching.WellFormed() && r.requests.WellFormed() && StartInv(r)
    ensures |Tokens(Cascade.RunRequest(r))| == |Tokens(r)|
  {
    hide IsToken;
    hide Tokens;
    if RideRequest in r.requests.jobs {
      RequestMoves(r);
      ReplacesCount(r, Cascade.RunRequest(r), RequestToken, JobToken(First));
    }
  }

  lemma RunMatchingCount(env: Env, r: Ride, e: RideEvent)
    requires RideInv(env.now, env.directory, r) && e.RunMatching?
    requires CancelKey !in RideStep(env, r, e).ride.lifecycle.seen
    ensures |Tokens(RideStep(env, r, e).ride)| == |Tokens(r)| + Change(env, r, e)
  {
    hide IsToken;
    hide Tokens;
    var r' := RideStep(env, r, e).ride;
    QueuesAreWellFormed(env, r);
    hide RideInv;
    if RunsCascade(r, e) {
      var before := JobToken(e.key);
      match DecisionOf(env, r, e)
      case GiveUp => GiveUpConsumes(env, r, e);
      case Continue(_, _) =>
        ContinueMovesToken(env, r, e);
        if DropsContinuation(env, r, e) {
          ConsumesCount(r, r', before);
        } else {
          UnusedIsNoToken(r, Continuation(env, r, e).0);
          ReplacesCount(r, r', before, JobToken(Continuation(env, r, e).0));
        }
      case MakeOffer(_, _) =>
        OfferMovesToken(env, r, e);
        UnusedIsNoToken(r, Continuation(env, r, e).0);
        ReplacesCount(r, r', before, JobToken(Continuation(env, r, e).0));
    } else if Ready(r, e.key, e.newId) {
      InertRunKeepsTokens(env, r, e.key, e.geo, e.newId);
      SameCount(r, r');
    }
  }

  /** A lifecycle job of a requested ride moves it on. */
  lemma LifecycleLeavesRequested(env: Env, r: Ride, k: LifeKey, otp: string)
    requires RideInv(env.now, env.directory, r)
    ensures var r' := Lifecycle.RunLifecycle(env, r, k, otp).ride; r' == r || !r'.trip.status.Requested?
  {
    if k in r.lifecycle.jobs {
      assert LifeJobInv(env.directory, r, k, r.lifecycle.jobs[k]);
    }
  }

  ghost predicate StillWaits(r: Ride) {
    r.trip.status.Requested? && CancelKey !in r.lifecycle.seen
  }

  lemma OthersChangeNothing(env: Env, r: Ride, e: RideEvent)
    requires e.TryLock? || e.RunRequest? || e.Promote? || e.RunLifecycle?
    ensures Change(env, r, e) == 0
  {
  }

  lemma TokensChange(env: Env, r: Ride, e: RideEvent)
    requires RideInv(env.now, env.directory, r) && StartInv(r) && StillWaits(RideStep(env, r, e).ride)
    ensures |Tokens(RideStep(env, r, e).ride)| == |Tokens(r)| + Change(env, r, e)
  {
    hide IsToken;
    hide Tokens;
    hide RideInv;
    hide StartInv;
    if e.TryLock? || e.RunRequest? || e.Promote? || e.RunLifecycle? {
      OthersChangeNothing(env, r, e);
    }
    hide Change;
    match e
    case Begin(c, req) => BeginCount(env, r, c, req);
    case TryLock(c) =>
      TryLockKeepsTokens(env, r, c);
      SameCount(r, Gateway.TryLock(env, r, c));
    case Conclude(c) => ConcludeCount(env, r, c);
    case RunRequest =>
      QueuesAreWellFormed(env, r);
      RunRequestCount(r);
    case Promote(k) =>
      PromoteKeepsTokens(env, r, k);
      SameCount(r, Cascade.Promote(env, r, k));
    case RunMatching(_, _, _) => RunMatchingCount(env, r, e);
    case RunLifecycle(k, otp) => LifecycleLeavesRequested(env, r, k, otp);
  }

  lemma BeginKeepsStart(env: Env, r: Ride, c: CallId, req: Request)
    requires StartInv(r)
    ensures StartInv(Gateway.Begin(env, r, c, req))
  {
  }

  lemma ConcludeKeepsStart(env: Env, r: Ride, c: CallId)
    requires r.requests.WellFormed() && StartInv(r)
    ensures StartInv(Gateway.Conclude(env, r, c))
  {
    ConcludeFrame(env, r, c);
  }

  lemma RunMatchingLeavesFirst(env: Env, r: Ride, e: RideEvent)
    requires e.RunMatching?
    ensures var r' := RideStep(env, r, e).ride;
            r'.requests == r.requests && (First in r'.matching.seen ==> First in r.matching.seen)
  {
  }

  lemma StepKeepsStart(env: Env, r: Ride, e: RideEvent)
    requires RideInv(env.now, env.directory, r) && StartInv(r)
    ensures StartInv(RideStep(env, r, e).ride)
  {
    QueuesAreWellFormed(env, r);
    hide RideInv;
    match e
    case RunLifecycle(k, otp) =>
      hide Lifecycle.RunLifecycle;
      LifecycleFrame(env, r, k, otp);
      OffersOnlyClose(env, r, k, otp);
    case RunMatching(_, _, _) =>
      RunMatchingLeavesFirst(env, r, e);
      hide RideStep;
      MatchingFrame(env, r, e);
    case Begin(c, req) => BeginKeepsStart(env, r, c, req);
    case Conclude(c) => ConcludeKeepsStart(env, r, c);
    case _ =>
      hide Gateway.Begin;
      hide Gateway.Conclude;
  }

  /** A ride that still waits was waiting before. */
  lemma WaitedBefore(env: Env, r: Ride, e: RideEvent)
    requires RideInv(env.now, env.directory, r) && StillWaits(RideStep(env, r, e).ride)
    ensures StillWaits(r)
  {
    hide RideInv;
    hide RideStep;
    StepIsLater(env, r, e);
  }

  // ---- Over runs --------------------------------------------------------------------------

  ghost predicate CountInv(r: Ride, stale: nat, continuations: nat, restarts: nat) {
    StartInv(r) && (StillWaits(r) ==> |Tokens(r)| + continuations + restarts == 1 + stale)
  }

  lemma StepKeepsCount(env: Env, r: Ride, e: RideEvent, stale: nat, continuations: nat, restarts: nat)
    requires RideInv(env.now, env.directory, r) && CountInv(r, stale, continuations, restarts)
    ensures CountInv(RideStep(env, r, e).ride,
                     stale + (if RejectHitsPending(env, r, e) then 0 else 1),
                     continuations + (if DropsContinuation(env, r, e) then 1 else 0),
                     restarts + if DropsRestart(r, e) then 1 else 0)
  {
    StepKeepsStart(env, r, e);
    hide RideInv;
    hide StartInv;
    hide Tokens;
    if StillWaits(RideStep(env, r, e).ride) {
      WaitedBefore(env, r, e);
      TokensChange(env, r, e);
    }
  }

  lemma FreshCount(rider: RiderId, meters: Fare.Meters, c: CallId)
    ensures CountInv(FreshRide(rider, meters, map[c := Creating]), 0, 0, 0)
  {
    var r := FreshRide(rider, meters, map[c := Creating]);
    forall a ensures a in Tokens(r) <==> a == CallToken(c) {
    }
    assert Tokens(r) == {CallToken(c)};
  }

  lemma ApplyKeepsCount(w: World, e: Event, t: TripId, stale: nat, continuations: nat, restarts: nat)
    requires WorldInv(w) && t in w.rides && CountInv(w.rides[t], stale, continuations, restarts)
    ensures t in Apply(w, e).rides
    ensures CountInv(Apply(w, e).rides[t],
                     stale + (if e.On? && e.trip == t && !RejectHitsPending(w.env, w.rides[t], e.event) then 1 else 0),
                     continuations + (if e.On? && e.trip == t && DropsContinuation(w.env, w.rides[t], e.event) then 1 else 0),
                     restarts + if e.On? && e.trip == t && DropsRestart(w.rides[t], e.event) then 1 else 0)
  {
    hide RideStep;
    hide RideInv;
    hide CountInv;
    if e.On? && e.trip == t {
      StepKeepsCount(w.env, w.rides[t], e.event, stale, continuations, restarts);
    }
  }

  lemma {:induction false} CountHolds(es: seq<Event>, t: TripId)
    ensures t in Exec(es).rides ==>
              CountInv(Exec(es).rides[t], StaleRejects(es, t), DroppedContinuations(es, t), DroppedRestarts(es, t))
    ensures t !in Exec(es).rides ==>
              StaleRejects(es, t) == DroppedContinuations(es, t) == DroppedRestarts(es, t) == 0
  {
    if es != [] {
      var before, e := es[..|es|-1], es[|es|-1];
      var w := Exec(before);
      CountHolds(before, t);
      ReachableInv(before);
      hide WorldInv;
      hide CountInv;
      if t in w.rides {
        ApplyKeepsCount(w, e, t, StaleRejects(before, t), DroppedContinuations(before, t), DroppedRestarts(before, t));
      } else if t in Exec(es).rides {
        FreshCount(w.env.riders[e.user], e.meters, e.call);
      }
    }
  }

  /** While a ride is REQUESTED and no cancellation is queued, what can still start a cascade run numbers one,
      plus the stale rejects, less the continuations and the restarts the queue dropped: in every run. */
  lemma TokensAreCounted(es: seq<Event>, t: TripId)
    requires t in Exec(es).rides
    requires Exec(es).rides[t].trip.status.Requested? && CancelKey !in Exec(es).rides[t].lifecycle.jobs
    ensures |Tokens(Exec(es).rides[t])| + DroppedContinuations(es, t) + DroppedRestarts(es, t) == 1 + StaleRejects(es, t)
  {
    CountHolds(es, t);
    ReachableInv(es);
    assert RideInv(Exec(es).env.now, Exec(es).env.directory, Exec(es).rides[t]);
  }

  /** When rides get lost, with rejects of any kind: exactly when as many jobs were dropped as chains were
      started. */
  lemma StrandedIffAllChainsDropped(es: seq<Event>, t: TripId)
    requires t in Exec(es).rides
    requires Exec(es).rides[t].trip.status.Requested? && CancelKey !in Exec(es).rides[t].lifecycle.jobs
    ensures Stranded(Exec(es).rides[t])
            <==> DroppedContinuations(es, t) + DroppedRestarts(es, t) == 1 + StaleRejects(es, t)
  {
    TokensAreCounted(es, t);
    var r := Exec(es).rides[t];
    if HasToken(r) {
      var a :| IsToken(r, a);
      assert a in Tokens(r);
    } else {
      assert Tokens(r) == {};
    }
  }

  // ---- A lost ride has lost a continuation -------------------------------------------------

  /** A token that is not a reject call whose restart is going to be dropped. */
  ghost predicate IsLive(r: Ride, a: Token) {
    IsToken(r, a) && (a.CallToken? && r.calls[a.call].Rejecting? ==> RejectOf(r.calls[a.call].offer) !in r.matching.seen)
  }

  ghost predicate LiveInv(r: Ride, dropped: bool) {
    StartInv(r) && (StillWaits(r) ==> dropped || exists a :: IsLive(r, a))
  }

  lemma BeginKeepsLive(env: Env, r: Ride, c: CallId, req: Request, a: Token)
    requires RideInv(env.now, env.directory, r) && IsLive(r, a)
    ensures exists b :: IsLive(Gateway.Begin(env, r, c, req), b)
  {
    var r' := Gateway.Begin(env, r, c, req);
    QueuesAreWellFormed(env, r);
    if !MarksReject(env, r, Begin(c, req)) {
      OtherBeginKeepsTokens(env, r, c, req);
      assert IsLive(r', a);
    } else if r.offers[req.offer].status.Pending? {
      RejectMovesToken(env, r, c, req.user, req.offer);
      assert IsLive(r', if a == JobToken(TimeoutOf(req.offer)) then CallToken(c) else a);
    } else {
      StaleRejectGains(env, r, c, req.user, req.offer);
      assert IsLive(r', a);
    }
  }

  lemma ConcludeKeepsLive(env: Env, r: Ride, c: CallId, a: Token)
    requires RideInv(env.now, env.directory, r) && StartInv(r) && IsLive(r, a)
    ensures exists b :: IsLive(Gateway.Conclude(env, r, c), b)
  {
    var r' := Gateway.Conclude(env, r, c);
    QueuesAreWellFormed(env, r);
    hide RideInv;
    if c in r.calls && r.calls[c].Creating? {
      CreatingMoves(env, r, c);
      assert IsLive(r', RequestToken);
    } else if c in r.calls && r.calls[c].Rejecting? {
      RejectingMoves(env, r, c);
      assert IsLive(r', if DropsRestart(r, Conclude(c)) then a else JobToken(RejectOf(r.calls[c].offer)));
    } else {
      ConcludeOtherKeepsTokens(env, r, c);
      assert IsLive(r', a);
    }
  }

  lemma RunMatchingKeepsLive(env: Env, r: Ride, e: RideEvent, a: Token)
    requires RideInv(env.now, env.directory, r) && IsLive(r, a) && e.RunMatching?
    requires CancelKey !in RideStep(env, r, e).ride.lifecycle.seen && !DropsContinuation(env, r, e)
    ensures exists b :: IsLive(RideStep(env, r, e).ride, b)
  {
    var r' := RideStep(env, r, e).ride;
    if RunsCascade(r, e) {
      match DecisionOf(env, r, e)
      case GiveUp => GiveUpConsumes(env, r, e);
      case Continue(_, _) =>
        ContinueMovesToken(env, r, e);
        assert IsLive(r', JobToken(Continuation(env, r, e).0));
      case MakeOffer(_, _) =>
        OfferMovesToken(env, r, e);
        assert IsLive(r', JobToken(Continuation(env, r, e).0));
    } else {
      if Ready(r, e.key, e.newId) {
        InertRunKeepsTokens(env, r, e.key, e.geo, e.newId);
      }
      assert IsLive(r', a);
    }
  }

  lemma StepKeepsToken(env: Env, r: Ride, e: RideEvent, a: Token)
    requires RideInv(env.now, env.directory, r) && StartInv(r) && IsLive(r, a)
    requires StillWaits(RideStep(env, r, e).ride) && !DropsContinuation(env, r, e)
    ensures exists b :: IsLive(RideStep(env, r, e).ride, b)
  {
    match e
    case Begin(c, req) => BeginKeepsLive(env, r, c, req, a);
    case TryLock(c) =>
      TryLockKeepsTokens(env, r, c);
      assert IsLive(Gateway.TryLock(env, r, c), a);
    case Conclude(c) => ConcludeKeepsLive(env, r, c, a);
    case RunRequest =>
      if RideRequest in r.requests.jobs {
        QueuesAreWellFormed(env, r);
        RequestMoves(r);
        assert IsLive(Cascade.RunRequest(r), JobToken(First));
      }
    case Promote(k) =>
      PromoteKeepsTokens(env, r, k);
      assert IsLive(Cascade.Promote(env, r, k), a);
    case RunMatching(_, _, _) => RunMatchingKeepsLive(env, r, e, a);
    case RunLifecycle(k, otp) => LifecycleLeavesRequested(env, r, k, otp);
  }

  lemma StepKeepsLive(env: Env, r: Ride, e: RideEvent, dropped: bool)
    requires RideInv(env.now, env.directory, r) && LiveInv(r, dropped)
    ensures LiveInv(RideStep(env, r, e).ride, dropped || DropsContinuation(env, r, e))
  {
    StepKeepsStart(env, r, e);
    hide RideInv;
    hide StartInv;
    hide RideStep;
    hide IsLive;
    hide DropsContinuation;
    if StillWaits(RideStep(env, r, e).ride) && !dropped && !DropsContinuation(env, r, e) {
      WaitedBefore(env, r, e);
      var a :| IsLive(r, a);
      StepKeepsToken(env, r, e, a);
    }
  }

  lemma FreshIsLive(rider: RiderId, meters: Fare.Meters, c: CallId)
    ensures LiveInv(FreshRide(rider, meters, map[c := Creating]), false)
  {
    assert IsLive(FreshRide(rider, meters, map[c := Creating]), CallToken(c));
  }

  lemma ApplyKeepsLive(w: World, e: Event, t: TripId, dropped: bool)
    requires WorldInv(w) && t in w.rides && LiveInv(w.rides[t], dropped)
    ensures t in Apply(w, e).rides
    ensures LiveInv(Apply(w, e).rides[t], dropped || (e.On? && e.trip == t && DropsContinuation(w.env, w.rides[t], e.event)))
  {
    hide RideStep;
    hide RideInv;
    hide LiveInv;
    if e.On? && e.trip == t {
      StepKeepsLive(w.env, w.rides[t], e.event, dropped);
    }
  }

  lemma {:induction false} LiveHolds(es: seq<Event>, t: TripId)
    ensures t in Exec(es).rides ==> LiveInv(Exec(es).rides[t], DroppedContinuations(es, t) > 0)
  {
    if es != [] {
      var before, e := es[..|es|-1], es[|es|-1];
      var w := Exec(before);
      LiveHolds(before, t);
      CountHolds(before, t);
      ReachableInv(before);
      hide WorldInv;
      hide LiveInv;
      if t in w.rides {
        ApplyKeepsLive(w, e, t, DroppedContinuations(before, t) > 0);
      } else if t in Exec(es).rides {
        FreshIsLive(w.env.riders[e.user], e.meters, e.call);
      }
    }
  }

  /** In any run, with rejects of any kind, a ride that is lost has lost the continuation of a cascade run to
      a used job id. */
  lemma StrandedOnlyByDrop(es: seq<Event>, t: TripId)
    requires t in Exec(es).rides && Stranded(Exec(es).rides[t])
    ensures DroppedContinuations(es, t) > 0
  {
    LiveHolds(es, t);
    ReachableInv(es);
    assert RideInv(Exec(es).env.now, Exec(es).env.directory, Exec(es).rides[t]);
  }
}
