/** One live chain, and no lost ride. With rejects that hit PENDING offers a ride has at most one
    token at any time; a requested ride without one is lost, and that happens exactly when a cascade
    run found its continuation id used. Without rejects every attempt number is used once, so no
    continuation is dropped, no ride is lost, and the chain ends within eleven cascade runs. */
module NoLostRide {
  import opened Base
  import opened Constants
  import opened Rides
  import opened Gateway
  import opened Cascade
  import opened Lifecycle
  import opened Dispatch
  import opened Frames
  import opened Invariants
  import opened Runs
  import opened Chain

  predicate RideEventIs(w: World, e: Event, t: TripId, p: (Env, Ride, RideEvent) -> bool) {
    e.On? && e.trip == t && t in w.rides && p(w.env, w.rides[t], e.event)
  }

  /** How many events of a run are events of ride `t` that satisfy `p`. */
  function Count(es: seq<Event>, t: TripId, p: (Env, Ride, RideEvent) -> bool): nat {
    if es == [] then 0
    else
      var before := es[..|es|-1];
      Count(before, t, p) + if RideEventIs(Exec(before), es[|es|-1], t, p) then 1 else 0
  }

  function Rejects(es: seq<Event>, t: TripId): nat {
    Count(es, t, (env, r, e) => MarksReject(env, r, e))
  }

  function CascadeRuns(es: seq<Event>, t: TripId): nat {
    Count(es, t, (env: Env, r, e) => RunsCascade(r, e))
  }

  function DroppedContinuations(es: seq<Event>, t: TripId): nat {
    Count(es, t, (env, r, e) => DropsContinuation(env, r, e))
  }

  function StaleRejects(es: seq<Event>, t: TripId): nat {
    Count(es, t, (env, r, e) => !RejectHitsPending(env, r, e))
  }

  lemma CountNext(es: seq<Event>, t: TripId)
    requires es != []
    ensures var before, w, e := es[..|es|-1], Exec(es[..|es|-1]), es[|es|-1];
            && Rejects(es, t) == Rejects(before, t) +
                 (if e.On? && e.trip == t && t in w.rides && MarksReject(w.env, w.rides[t], e.event) then 1 else 0)
            && CascadeRuns(es, t) == CascadeRuns(before, t) +
                 if e.On? && e.trip == t && t in w.rides && RunsCascade(w.rides[t], e.event) then 1 else 0
  {
    hide Apply;
    hide MarksReject;
    hide RunsCascade;
  }

  /** Every reject of ride `t` in the run hit an offer that was PENDING. */
  predicate RejectsHitPending(es: seq<Event>, t: TripId) {
    StaleRejects(es, t) == 0
  }

  /** A requested ride with nothing left that would lead to a cascade run or a cancellation. */
  ghost predicate Stranded(r: Ride) {
    r.trip.status.Requested? && CancelKey !in r.lifecycle.jobs && !HasToken(r)
  }

  ghost predicate ChainState(r: Ride, dropped: bool) {
    && ChainInv(r)
    && (r.trip.status.Requested? && CancelKey !in r.lifecycle.seen ==> (HasToken(r) <==> !dropped))
  }

  lemma RideStepKeepsChain(env: Env, r: Ride, e: RideEvent, dropped: bool)
    requires RideInv(env.now, env.directory, r) && ChainState(r, dropped) && RejectHitsPending(env, r, e)
    ensures ChainState(RideStep(env, r, e).ride, dropped || DropsContinuation(env, r, e))
  {
    match e
    case Begin(c, req) => BeginMovesToken(env, r, c, req); GatewayFrame(env, r, e);
    case TryLock(c) => TryLockKeepsTokens(env, r, c); GatewayFrame(env, r, e);
    case Conclude(c) => ConcludeMovesToken(env, r, c); GatewayFrame(env, r, e);
    case RunRequest => RunRequestMovesToken(r); MatchingFrame(env, r, e);
    case Promote(k) => PromoteKeepsTokens(env, r, k); MatchingFrame(env, r, e);
    case RunMatching(_, _, _) => RunMatchingMovesToken(env, r, e); MatchingFrame(env, r, e);
    case RunLifecycle(k, otp) => LifecycleMovesToken(env, r, k, otp);
  }

  lemma FreshRideHasToken(rider: RiderId, meters: Fare.Meters, c: CallId)
    ensures ChainState(FreshRide(rider, meters, map[c := Creating]), false)
  {
    assert IsToken(FreshRide(rider, meters, map[c := Creating]), CallToken(c));
  }

  lemma {:induction false} ChainHolds(es: seq<Event>, t: TripId)
    requires RejectsHitPending(es, t)
    ensures t in Exec(es).rides ==> ChainState(Exec(es).rides[t], DroppedContinuations(es, t) > 0)
    ensures t !in Exec(es).rides ==> DroppedContinuations(es, t) == 0
  {
    if es != [] {
      var before, e := es[..|es|-1], es[|es|-1];
      var w := Exec(before);
      ChainHolds(before, t);
      ReachableInv(before);
      hide ChainState;
      hide RideStep;
      hide RideInv;
      hide RejectHitsPending;
      hide DropsContinuation;
      if t in w.rides {
        RideAfter(w, e, t);
        if e.On? && e.trip == t {
          RideStepKeepsChain(w.env, w.rides[t], e.event, DroppedContinuations(before, t) > 0);
        }
      } else if t in Exec(es).rides {
        FreshRideHasToken(w.env.riders[e.user], e.meters, e.call);
      }
    }
  }

  lemma PendingOfferIsToken(env: Env, r: Ride, o: OfferId)
    requires RideInv(env.now, env.directory, r) && o in r.offers && r.offers[o].status.Pending?
    ensures IsToken(r, JobToken(TimeoutOf(o)))
  {
    assert MatchJobInv(r, TimeoutOf(o), r.matching.jobs[TimeoutOf(o)]);
  }

  /** One live chain: if rejects hit only PENDING offers, what can still start a cascade run numbers at
      most one, and so do the PENDING offers of the ride. */
  lemma OneLiveChain(es: seq<Event>, t: TripId)
    requires RejectsHitPending(es, t) && t in Exec(es).rides
    ensures AtMostOneToken(Exec(es).rides[t])
    ensures var offers := Exec(es).rides[t].offers;
            forall o, o' :: o in offers && o' in offers && offers[o].status.Pending? && offers[o'].status.Pending? ==> o == o'
  {
    ChainHolds(es, t);
    ReachableInv(es);
    var r := Exec(es).rides[t];
    forall o, o' | o in r.offers && o' in r.offers && r.offers[o].status.Pending? && r.offers[o'].status.Pending?
      ensures o == o'
    {
      PendingOfferIsToken(Exec(es).env, r, o);
      PendingOfferIsToken(Exec(es).env, r, o');
      assert JobToken(TimeoutOf(o)) == JobToken(TimeoutOf(o'));
    }
  }

  /** When rides get lost: as long as a ride is REQUESTED with no cancellation queued, it is stranded if
      and only if some cascade run found the id of its continuation already used. */
  lemma StrandedIffContinuationDropped(es: seq<Event>, t: TripId)
    requires RejectsHitPending(es, t) && t in Exec(es).rides
    requires Exec(es).rides[t].trip.status.Requested? && CancelKey !in Exec(es).rides[t].lifecycle.jobs
    ensures Stranded(Exec(es).rides[t]) <==> DroppedContinuations(es, t) > 0
  {
    ChainHolds(es, t);
    ReachableInv(es);
    assert RideInv(Exec(es).env.now, Exec(es).env.directory, Exec(es).rides[t]);
  }

  // ---- Without rejects --------------------------------------------------------------------

  /** The attempt number of the cascade run a token leads to. */
  function AttemptOf(r: Ride, token: Token): nat {
    if token.JobToken? && token.key in r.matching.jobs then r.matching.jobs[token.key].Attempt() else 1
  }

  /** After `runs` cascade runs of a ride nobody rejected. */
  ghost predicate Unrejected(r: Ride, runs: nat) {
    && (forall c :: c in r.calls ==> !r.calls[c].Rejecting?)
    && (forall n: nat :: Next(n) in r.matching.seen ==> n <= runs + 1)
    && (forall a :: IsToken(r, a) ==> AttemptOf(r, a) == runs + 1 && runs <= MAX_CASCADE_ATTEMPTS)
    && runs <= MAX_CASCADE_ATTEMPTS + 1
    && (runs == MAX_CASCADE_ATTEMPTS + 1 ==> CancelKey in r.lifecycle.seen)
  }

  lemma SameMatchingKeepsUnrejected(r: Ride, r': Ride, runs: nat)
    requires Unrejected(r, runs) && r'.matching == r.matching && r.lifecycle.seen <= r'.lifecycle.seen
    requires forall c :: c in r'.calls ==> !r'.calls[c].Rejecting?
    requires forall a :: IsToken(r', a) ==> IsToken(r, a) || (a == RequestToken && HasToken(r) && runs == 0)
    ensures Unrejected(r', runs)
  {
  }

  lemma ConcludeCreatingKeepsUnrejected(env: Env, r: Ride, c: CallId, runs: nat)
    requires Unrejected(r, runs) && c in r.calls && r.calls[c].Creating?
    ensures Unrejected(Gateway.Conclude(env, r, c), runs)
  {
    var r' := Gateway.Conclude(env, r, c);
    assert IsToken(r, CallToken(c)) && AttemptOf(r, CallToken(c)) == 1;
    forall a | IsToken(r', a) ensures IsToken(r, a) || a == RequestToken {
    }
    SameMatchingKeepsUnrejected(r, r', runs);
  }

  /** Concluding a call other than a creation or a reject queues a lifecycle job. */
  lemma ConcludeOtherKeepsTokens(env: Env, r: Ride, c: CallId)
    requires c in r.calls ==> !r.calls[c].Creating? && !r.calls[c].Rejecting?
    ensures var r' := Gateway.Conclude(env, r, c);
            r'.matching == r.matching && r.lifecycle.seen <= r'.lifecycle.seen && SameTokens(r, r')
  {
  }

  lemma ConcludeKeepsUnrejected(env: Env, r: Ride, c: CallId, runs: nat)
    requires Unrejected(r, runs)
    ensures Unrejected(Gateway.Conclude(env, r, c), runs)
  {
    if c in r.calls && r.calls[c].Creating? {
      ConcludeCreatingKeepsUnrejected(env, r, c, runs);
    } else {
      ConcludeFrame(env, r, c);
      ConcludeOtherKeepsTokens(env, r, c);
      SameMatchingKeepsUnrejected(r, Gateway.Conclude(env, r, c), runs);
    }
  }

  lemma BeginKeepsUnrejected(env: Env, r: Ride, c: CallId, req: Request, runs: nat)
    requires Unrejected(r, runs) && !MarksReject(env, r, Begin(c, req))
    ensures Unrejected(Gateway.Begin(env, r, c, req), runs)
  {
    var r' := Gateway.Begin(env, r, c, req);
    assert SameTokens(r, r');
    SameMatchingKeepsUnrejected(r, r', runs);
  }

  lemma GatewayKeepsUnrejected(env: Env, r: Ride, e: RideEvent, runs: nat)
    requires RideInv(env.now, env.directory, r) && ChainInv(r) && Unrejected(r, runs)
    requires IsGatewayEvent(e) && !MarksReject(env, r, e)
    ensures Unrejected(RideStep(env, r, e).ride, runs)
  {
    match e
    case Begin(c, req) => BeginKeepsUnrejected(env, r, c, req, runs);
    case TryLock(c) =>
      TryLockKeepsTokens(env, r, c);
      SameMatchingKeepsUnrejected(r, Gateway.TryLock(env, r, c), runs);
    case Conclude(c) => ConcludeKeepsUnrejected(env, r, c, runs);
  }

  lemma RequestKeepsUnrejected(env: Env, r: Ride, runs: nat)
    requires RideInv(env.now, env.directory, r) && ChainInv(r) && Unrejected(r, runs)
    ensures Unrejected(Cascade.RunRequest(r), runs)
  {
    var r' := Cascade.RunRequest(r);
    if RideRequest in r.requests.jobs {
      assert IsToken(r, RequestToken);
      forall a | IsToken(r', a) && a != JobToken(First) ensures IsToken(r, a) {
      }
    }
  }

  lemma PromoteKeepsUnrejected(env: Env, r: Ride, k: MatchKey, runs: nat)
    requires Unrejected(r, runs)
    ensures Unrejected(Cascade.Promote(env, r, k), runs)
  {
    PromoteKeepsTokens(env, r, k);
  }

  lemma LifecycleKeepsUnrejected(env: Env, r: Ride, k: LifeKey, otp: string, runs: nat)
    requires Unrejected(r, runs)
    ensures Unrejected(Lifecycle.RunLifecycle(env, r, k, otp).ride, runs)
  {
    var r' := Lifecycle.RunLifecycle(env, r, k, otp).ride;
    LifecycleFrame(env, r, k, otp);
    OffersOnlyClose(env, r, k, otp);
    forall a | IsToken(r', a) ensures IsToken(r, a) {
    }
  }

  /** A cascade run of an unrejected ride moves the attempt number on by one, to an unused id. */
  lemma CascadeKeepsUnrejected(env: Env, r: Ride, e: RideEvent, runs: nat)
    requires RideInv(env.now, env.directory, r) && ChainInv(r) && Unrejected(r, runs) && RunsCascade(r, e)
    ensures Unrejected(RideStep(env, r, e).ride, runs + 1)
    ensures !DropsContinuation(env, r, e)
  {
    var r' := RideStep(env, r, e).ride;
    MatchingFrame(env, r, e);
    assert IsToken(r, JobToken(e.key)) && r.matching.jobs[e.key].Attempt() == runs + 1;
    match DecisionOf(env, r, e)
    case GiveUp => GiveUpConsumes(env, r, e);
    case Continue(_, _) => ContinueMovesToken(env, r, e);
    case MakeOffer(_, _) => OfferMovesToken(env, r, e);
  }

  lemma InertKeepsUnrejected(env: Env, r: Ride, k: MatchKey, geo: Geo, newId: OfferId, runs: nat)
    requires Unrejected(r, runs) && Ready(r, k, newId) && Inert(r, r.matching.jobs[k])
    ensures Unrejected(Cascade.RunMatching(env, r, k, geo, newId), runs)
  {
    InertRunKeepsTokens(env, r, k, geo, newId);
  }

  lemma RideStepKeepsUnrejected(env: Env, r: Ride, e: RideEvent, runs: nat)
    requires RideInv(env.now, env.directory, r) && ChainInv(r) && Unrejected(r, runs) && !MarksReject(env, r, e)
    ensures Unrejected(RideStep(env, r, e).ride, runs + if RunsCascade(r, e) then 1 else 0)
    ensures !DropsContinuation(env, r, e)
  {
    hide Unrejected;
    hide ChainInv;
    hide RideInv;
    if IsGatewayEvent(e) {
      GatewayKeepsUnrejected(env, r, e, runs);
    } else {
      match e
      case RunRequest => RequestKeepsUnrejected(env, r, runs);
      case Promote(k) => PromoteKeepsUnrejected(env, r, k, runs);
      case RunMatching(k, geo, newId) =>
        if RunsCascade(r, e) {
          CascadeKeepsUnrejected(env, r, e, runs);
        } else if Ready(r, k, newId) {
          InertKeepsUnrejected(env, r, k, geo, newId, runs);
        }
      case RunLifecycle(k, otp) => LifecycleKeepsUnrejected(env, r, k, otp, runs);
    }
  }

  lemma {:induction false} NoRejectsNoStaleOnes(es: seq<Event>, t: TripId)
    requires Rejects(es, t) == 0
    ensures RejectsHitPending(es, t)
  {
    if es != [] {
      NoRejectsNoStaleOnes(es[..|es|-1], t);
    }
  }

  lemma FreshRideIsUnrejected(rider: RiderId, meters: Fare.Meters, c: CallId)
    ensures Unrejected(FreshRide(rider, meters, map[c := Creating]), 0)
  {
    FreshRideHasToken(rider, meters, c);
  }

  lemma ApplyKeepsUnrejected(w: World, e: Event, t: TripId, runs: nat)
    requires WorldInv(w) && t in w.rides && ChainInv(w.rides[t]) && Unrejected(w.rides[t], runs)
    requires e.On? && e.trip == t ==> !MarksReject(w.env, w.rides[t], e.event)
    ensures t in Apply(w, e).rides
    ensures Unrejected(Apply(w, e).rides[t], runs + if e.On? && e.trip == t && RunsCascade(w.rides[t], e.event) then 1 else 0)
    ensures e.On? && e.trip == t ==> !DropsContinuation(w.env, w.rides[t], e.event)
  {
    if e.On? && e.trip == t {
      RideStepKeepsUnrejected(w.env, w.rides[t], e.event, runs);
    }
  }

  lemma {:induction false} UnrejectedHolds(es: seq<Event>, t: TripId)
    requires Rejects(es, t) == 0
    ensures t in Exec(es).rides ==> Unrejected(Exec(es).rides[t], CascadeRuns(es, t))
    ensures t !in Exec(es).rides ==> CascadeRuns(es, t) == 0
    ensures DroppedContinuations(es, t) == 0
  {
    if es != [] {
      var before, e := es[..|es|-1], es[|es|-1];
      var w := Exec(before);
      UnrejectedHolds(before, t);
      if t in w.rides {
        NoRejectsNoStaleOnes(before, t);
        ChainHolds(before, t);
        ReachableInv(before);
        ApplyKeepsUnrejected(w, e, t, CascadeRuns(before, t));
      } else if t in Exec(es).rides {
        FreshRideIsUnrejected(w.env.riders[e.user], e.meters, e.call);
      }
    }
  }

  /** No lost ride: in every reachable state, a requested ride that nobody rejected has live work: a
      call, job or PENDING offer's timeout that leads to a cascade run, or a queued CANCEL. */
  lemma NoLostRide(es: seq<Event>, t: TripId)
    requires Rejects(es, t) == 0 && t in Exec(es).rides && Exec(es).rides[t].trip.status.Requested?
    ensures HasToken(Exec(es).rides[t]) || CancelKey in Exec(es).rides[t].lifecycle.jobs
  {
    UnrejectedHolds(es, t);
    NoRejectsNoStaleOnes(es, t);
    if CancelKey !in Exec(es).rides[t].lifecycle.jobs {
      StrandedIffContinuationDropped(es, t);
    }
  }

  /** A ride that nobody rejected sees at most eleven cascade runs, and after the eleventh its CANCEL has
      been queued. */
  lemma CascadeEnds(es: seq<Event>, t: TripId)
    requires Rejects(es, t) == 0
    ensures CascadeRuns(es, t) <= 11
    ensures CascadeRuns(es, t) == 11 ==>
              t in Exec(es).rides && CancelKey in Exec(es).rides[t].lifecycle.seen
  {
    UnrejectedHolds(es, t);
  }
}
