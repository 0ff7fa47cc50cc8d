/** The matching chain of a ride, in any interleaving: the one thing that keeps a requested ride
    moving is handed from the request to the cascade runs, offers and timeouts that follow. */
module Chain {
  import opened Base
  import opened Constants
  import opened Rides
  import opened Gateway
  import opened Cascade
  import opened Lifecycle
  import opened Dispatch
  import opened Frames
  import opened Invariants

  /** What can still start a cascade run: a call that will queue one, the queued request, or a
      matching job that is not an inert timeout. */
  datatype Token = CallToken(call: CallId) | RequestToken | JobToken(key: MatchKey)

  ghost predicate IsToken(r: Ride, token: Token) {
    match token
    case CallToken(c) => c in r.calls && (r.calls[c].Creating? || r.calls[c].Rejecting?)
    case RequestToken => RideRequest in r.requests.jobs
    case JobToken(k) => k in r.matching.jobs && !Inert(r, r.matching.jobs[k])
  }

  ghost predicate HasToken(r: Ride) {
    exists a :: IsToken(r, a)
  }

  ghost predicate AtMostOneToken(r: Ride) {
    forall a, b :: IsToken(r, a) && IsToken(r, b) ==> a == b
  }

  /** The ids the chain is about to use are still free. */
  ghost predicate IdsAhead(r: Ride) {
    && (forall c :: c in r.calls && r.calls[c].Creating? ==> RideRequest !in r.requests.seen)
    && (First in r.matching.seen ==> RideRequest in r.requests.seen && RideRequest !in r.requests.jobs)
    && (forall c :: c in r.calls && r.calls[c].Rejecting? ==> RejectOf(r.calls[c].offer) !in r.matching.seen)
  }

  ghost predicate ChainInv(r: Ride) {
    AtMostOneToken(r) && IdsAhead(r)
  }

  // ---- How one event moves the token ------------------------------------------------------

  ghost predicate SameTokens(r: Ride, r': Ride) {
    forall a :: IsToken(r', a) <==> IsToken(r, a)
  }

  ghost predicate Replaces(r: Ride, r': Ride, before: Token, after: Token) {
    && IsToken(r, before)
    && forall a :: IsToken(r', a) <==> a == after || (IsToken(r, a) && a != before)
  }

  ghost predicate Consumes(r: Ride, r': Ride, before: Token) {
    && IsToken(r, before)
    && forall a :: IsToken(r', a) <==> IsToken(r, a) && a != before
  }

  /** The call `e` effectively rejects an offer. */
  predicate MarksReject(env: Env, r: Ride, e: RideEvent) {
    e.Begin? && e.req.RejectRide? && e.call !in r.calls && Admit(env, r, e.req).Some?
  }

  predicate RejectHitsPending(env: Env, r: Ride, e: RideEvent) {
    MarksReject(env, r, e) ==> r.offers[e.req.offer].status.Pending?
  }

  predicate RunsCascade(r: Ride, e: RideEvent) {
    e.RunMatching? && Ready(r, e.key, e.newId) && !Inert(r, r.matching.jobs[e.key])
  }

  function DecisionOf(env: Env, r: Ride, e: RideEvent): Decision
    requires RunsCascade(r, e)
  {
    var job := r.matching.jobs[e.key];
    Decide(env, job.Attempt(), job.Skipped(), e.geo)
  }

  /** A cascade run whose continuation id has already been used: the queue drops the continuation. */
  predicate DropsContinuation(env: Env, r: Ride, e: RideEvent) {
    && RunsCascade(r, e)
    && DecisionOf(env, r, e).Continue?
    && Next(r.matching.jobs[e.key].Attempt() + 1) in r.matching.seen
  }

  lemma RejectMovesToken(env: Env, r: Ride, c: CallId, u: UserId, o: OfferId)
    requires RideInv(env.now, env.directory, r)
    requires MarksReject(env, r, Begin(c, RejectRide(u, o))) && r.offers[o].status.Pending?
    ensures Replaces(r, Gateway.Begin(env, r, c, RejectRide(u, o)), JobToken(TimeoutOf(o)), CallToken(c))
  {
    var r' := Gateway.Begin(env, r, c, RejectRide(u, o));
    assert MatchJobInv(r, TimeoutOf(o), r.matching.jobs[TimeoutOf(o)]);
    forall a ensures IsToken(r', a) <==> a == CallToken(c) || (IsToken(r, a) && a != JobToken(TimeoutOf(o))) {
      if a.JobToken? && a.key in r.matching.jobs {
        assert MatchJobInv(r, a.key, r.matching.jobs[a.key]);
      }
    }
  }

  lemma OtherBeginKeepsTokens(env: Env, r: Ride, c: CallId, req: Request)
    requires !MarksReject(env, r, Begin(c, req))
    ensures SameTokens(r, Gateway.Begin(env, r, c, req))
    ensures IdsAhead(r) ==> IdsAhead(Gateway.Begin(env, r, c, req))
  {
  }

  lemma RejectIsAhead(env: Env, r: Ride, c: CallId, u: UserId, o: OfferId)
    requires RideInv(env.now, env.directory, r) && IdsAhead(r)
    requires MarksReject(env, r, Begin(c, RejectRide(u, o))) && r.offers[o].status.Pending?
    ensures IdsAhead(Gateway.Begin(env, r, c, RejectRide(u, o)))
  {
  }

  lemma RejectKeepsChain(env: Env, r: Ride, c: CallId, u: UserId, o: OfferId)
    requires RideInv(env.now, env.directory, r) && ChainInv(r)
    requires MarksReject(env, r, Begin(c, RejectRide(u, o))) && r.offers[o].status.Pending?
    ensures var r' := Gateway.Begin(env, r, c, RejectRide(u, o)); ChainInv(r') && HasToken(r') && HasToken(r)
  {
    var r' := Gateway.Begin(env, r, c, RejectRide(u, o));
    RejectMovesToken(env, r, c, u, o);
    RejectIsAhead(env, r, c, u, o);
    hide RideInv;
    hide Gateway.Begin;
    hide IsToken;
    assert IsToken(r', CallToken(c));
  }

  lemma BeginMovesToken(env: Env, r: Ride, c: CallId, req: Request)
    requires RideInv(env.now, env.directory, r) && ChainInv(r)
    requires RejectHitsPending(env, r, Begin(c, req))
    ensures ChainInv(Gateway.Begin(env, r, c, req))
    ensures HasToken(Gateway.Begin(env, r, c, req)) <==> HasToken(r)
  {
    if MarksReject(env, r, Begin(c, req)) {
      RejectKeepsChain(env, r, c, req.user, req.offer);
    } else {
      hide RideInv;
      hide Gateway.Begin;
      hide IsToken;
      hide IdsAhead;
      OtherBeginKeepsTokens(env, r, c, req);
    }
  }

  lemma TryLockKeepsTokens(env: Env, r: Ride, c: CallId)
    ensures SameTokens(r, Gateway.TryLock(env, r, c))
    ensures IdsAhead(r) ==> IdsAhead(Gateway.TryLock(env, r, c))
  {
  }

  lemma OtherCallsAreNotTokens(r: Ride, c: CallId)
    requires AtMostOneToken(r) && IsToken(r, CallToken(c))
    ensures forall c' :: c' in r.calls && c' != c ==> !r.calls[c'].Creating? && !r.calls[c'].Rejecting?
  {
    forall c' | c' in r.calls && c' != c ensures !r.calls[c'].Creating? && !r.calls[c'].Rejecting? {
      assert CallToken(c') != CallToken(c);
      assert !IsToken(r, CallToken(c'));
    }
  }

  lemma ConcludeTokenCall(env: Env, r: Ride, c: CallId)
    requires RideInv(env.now, env.directory, r) && ChainInv(r)
    requires c in r.calls && (r.calls[c].Creating? || r.calls[c].Rejecting?)
    ensures ChainInv(Gateway.Conclude(env, r, c))
    ensures HasToken(Gateway.Conclude(env, r, c)) && HasToken(r)
  {
    var r' := Gateway.Conclude(env, r, c);
    assert IsToken(r, CallToken(c));
    OtherCallsAreNotTokens(r, c);
    if r.calls[c].Creating? {
      assert Replaces(r, r', CallToken(c), RequestToken);
      assert IsToken(r', RequestToken);
    } else {
      assert Replaces(r, r', CallToken(c), JobToken(RejectOf(r.calls[c].offer)));
      assert IsToken(r', JobToken(RejectOf(r.calls[c].offer)));
    }
  }

  lemma ConcludeOtherCall(env: Env, r: Ride, c: CallId)
    requires c in r.calls && !r.calls[c].Creating? && !r.calls[c].Rejecting?
    ensures SameTokens(r, Gateway.Conclude(env, r, c))
  {
  }

  lemma ConcludeMovesToken(env: Env, r: Ride, c: CallId)
    requires RideInv(env.now, env.directory, r) && ChainInv(r)
    ensures ChainInv(Gateway.Conclude(env, r, c))
    ensures HasToken(Gateway.Conclude(env, r, c)) <==> HasToken(r)
  {
    if c in r.calls {
      if r.calls[c].Creating? || r.calls[c].Rejecting? {
        ConcludeTokenCall(env, r, c);
      } else {
        ConcludeOtherCall(env, r, c);
      }
    }
  }

  lemma RunRequestMovesToken(r: Ride)
    requires r.requests.WellFormed() && ChainInv(r)
    ensures ChainInv(Cascade.RunRequest(r))
    ensures HasToken(Cascade.RunRequest(r)) <==> HasToken(r)
  {
    var r' := Cascade.RunRequest(r);
    if RideRequest in r.requests.jobs {
      assert IsToken(r, RequestToken);
      assert Replaces(r, r', RequestToken, JobToken(First));
      assert IsToken(r', JobToken(First));
    }
  }

  lemma PromoteKeepsTokens(env: Env, r: Ride, k: MatchKey)
    ensures SameTokens(r, Cascade.Promote(env, r, k))
    ensures IdsAhead(r) ==> IdsAhead(Cascade.Promote(env, r, k))
  {
  }

  lemma InertRunKeepsTokens(env: Env, r: Ride, k: MatchKey, geo: Geo, newId: OfferId)
    requires Ready(r, k, newId) && Inert(r, r.matching.jobs[k])
    ensures SameTokens(r, Cascade.RunMatching(env, r, k, geo, newId))
  {
  }

  /** The job a cascade run leaves behind as the new token. */
  function Continuation(env: Env, r: Ride, e: RideEvent): (MatchKey, MatchJob)
    requires RunsCascade(r, e) && !DecisionOf(env, r, e).GiveUp?
  {
    var job := r.matching.jobs[e.key];
    match DecisionOf(env, r, e)
    case Continue(name, skip) =>
      (Next(job.Attempt() + 1), MatchJob(name, Some(job.Attempt() + 1), Some(skip), None))
    case MakeOffer(user, _) =>
      (TimeoutOf(e.newId),
       MatchJob(OfferTimeout(e.newId), Some(job.Attempt() + 1), Some(job.Skipped() + [user]), Some(env.now + OFFER_TIMEOUT_MS)))
  }

  lemma BeforeCascadeConsumes(env: Env, r: Ride, k: MatchKey)
    requires RideInv(env.now, env.directory, r) && k in r.matching.jobs && !Inert(r, r.matching.jobs[k])
    ensures Consumes(r, BeforeCascade(r, k), JobToken(k))
  {
    assert MatchJobInv(r, k, r.matching.jobs[k]);
    forall a ensures IsToken(BeforeCascade(r, k), a) <==> IsToken(r, a) && a != JobToken(k) {
      if a.JobToken? && a.key in r.matching.jobs {
        assert MatchJobInv(r, a.key, r.matching.jobs[a.key]);
      }
    }
  }

  lemma GiveUpConsumes(env: Env, r: Ride, e: RideEvent)
    requires RideInv(env.now, env.directory, r) && RunsCascade(r, e) && DecisionOf(env, r, e).GiveUp?
    ensures var r' := RideStep(env, r, e).ride;
            && Consumes(r, r', JobToken(e.key))
            && r'.matching.seen == r.matching.seen && r'.offers.Keys == r.offers.Keys
            && CancelKey in r'.lifecycle.seen
  {
    var r1, r' := BeforeCascade(r, e.key), RideStep(env, r, e).ride;
    assert r' == CancelNoDrivers(r1);
    BeforeCascadeConsumes(env, r, e.key);
    assert SameTokens(r1, r');
  }

  lemma AddedJobIsToken(r1: Ride, r': Ride, key: MatchKey, job: MatchJob)
    requires r1.matching.WellFormed() && r' == r1.(matching := r1.matching.Add(key, job)) && !job.name.OfferTimeout?
    ensures forall a :: IsToken(r', a) <==> IsToken(r1, a) || (a == JobToken(key) && key !in r1.matching.seen)
  {
  }

  lemma ContinueMovesToken(env: Env, r: Ride, e: RideEvent)
    requires RideInv(env.now, env.directory, r) && RunsCascade(r, e) && DecisionOf(env, r, e).Continue?
    ensures var r', (key, job) := RideStep(env, r, e).ride, Continuation(env, r, e);
            && r'.lifecycle == r.lifecycle && r'.offers.Keys == r.offers.Keys
            && if DropsContinuation(env, r, e) then
                 Consumes(r, r', JobToken(e.key)) && r'.matching.seen == r.matching.seen
               else
                 && Replaces(r, r', JobToken(e.key), JobToken(key))
                 && r'.matching.seen == r.matching.seen + {key}
                 && key in r'.matching.jobs && r'.matching.jobs[key] == job
  {
    var (key, job) := Continuation(env, r, e);
    var r1, r' := BeforeCascade(r, e.key), RideStep(env, r, e).ride;
    assert r' == r1.(matching := r1.matching.Add(key, job));
    BeforeCascadeConsumes(env, r, e.key);
    AddedJobIsToken(r1, r', key, job);
  }

  lemma OfferStepIs(env: Env, r: Ride, e: RideEvent)
    requires RunsCascade(r, e) && DecisionOf(env, r, e).MakeOffer?
    ensures var r1, (key, job) := BeforeCascade(r, e.key), Continuation(env, r, e);
            var offer := Offer(DecisionOf(env, r, e).driver, Pending, env.now + OFFER_TIMEOUT_MS);
            && RideStep(env, r, e).ride == r1.(offers := r1.offers[e.newId := offer], matching := r1.matching.Add(key, job))
            && key == TimeoutOf(e.newId) && job.name == OfferTimeout(e.newId)
            && r1.lifecycle == r.lifecycle && r1.matching.seen == r.matching.seen && e.newId !in r1.offers
  {
  }

  lemma AddedOfferIsToken(r1: Ride, r': Ride, o: OfferId, offer: Offer, job: MatchJob)
    requires MatchInv(r1) && o !in r1.offers && offer.status.Pending? && job.name == OfferTimeout(o)
    requires r' == r1.(offers := r1.offers[o := offer], matching := r1.matching.Add(TimeoutOf(o), job))
    ensures TimeoutOf(o) !in r1.matching.seen
    ensures forall a :: IsToken(r', a) <==> IsToken(r1, a) || a == JobToken(TimeoutOf(o))
  {
    forall a ensures IsToken(r', a) <==> IsToken(r1, a) || a == JobToken(TimeoutOf(o)) {
      if a.JobToken? && a.key in r1.matching.jobs {
        assert MatchJobInv(r1, a.key, r1.matching.jobs[a.key]);
      }
    }
  }

  lemma OfferMovesToken(env: Env, r: Ride, e: RideEvent)
    requires RideInv(env.now, env.directory, r) && RunsCascade(r, e) && DecisionOf(env, r, e).MakeOffer?
    ensures var r', (key, job) := RideStep(env, r, e).ride, Continuation(env, r, e);
            && r'.lifecycle == r.lifecycle
            && Replaces(r, r', JobToken(e.key), JobToken(key))
            && r'.matching.seen == r.matching.seen + {key}
            && key in r'.matching.jobs && r'.matching.jobs[key] == job
  {
    var (key, job) := Continuation(env, r, e);
    var r1, r' := BeforeCascade(r, e.key), RideStep(env, r, e).ride;
    var offer := Offer(DecisionOf(env, r, e).driver, Pending, env.now + OFFER_TIMEOUT_MS);
    OfferStepIs(env, r, e);
    BeforeCascadeConsumes(env, r, e.key);
    BeforeCascadeKeepsInv(env, r, e.key);
    hide RideStep;
    hide RideInv;
    hide IsToken;
    AddedOfferIsToken(r1, r', e.newId, offer, job);
  }

  lemma ReplacedKeepsChain(r: Ride, r': Ride, before: Token, after: MatchKey)
    requires ChainInv(r) && Replaces(r, r', before, JobToken(after))
    requires r'.requests == r.requests && r'.calls == r.calls && r'.matching.seen == r.matching.seen + {after}
    requires after.Next? || after.TimeoutOf?
    ensures ChainInv(r') && HasToken(r')
  {
    hide IsToken;
    assert IsToken(r', JobToken(after));
  }

  lemma ConsumedKeepsChain(r: Ride, r': Ride, before: Token)
    requires ChainInv(r) && Consumes(r, r', before)
    requires r'.requests == r.requests && r'.calls == r.calls && r'.matching.seen == r.matching.seen
    ensures ChainInv(r') && !HasToken(r')
  {
    hide IsToken;
  }

  lemma CascadeLeavesRequests(env: Env, r: Ride, e: RideEvent)
    requires RunsCascade(r, e)
    ensures RideStep(env, r, e).ride.requests == r.requests
  {
  }

  lemma CascadeKeepsChain(env: Env, r: Ride, e: RideEvent)
    requires RideInv(env.now, env.directory, r) && ChainInv(r) && RunsCascade(r, e)
    ensures var r' := RideStep(env, r, e).ride;
            && ChainInv(r')
            && HasToken(r)
            && (DropsContinuation(env, r, e) ==> !HasToken(r'))
            && (!DropsContinuation(env, r, e) && CancelKey !in r'.lifecycle.seen ==> HasToken(r'))
  {
    var r', before := RideStep(env, r, e).ride, JobToken(e.key);
    MatchingFrame(env, r, e);
    CascadeLeavesRequests(env, r, e);
    assert IsToken(r, before);
    hide RideStep;
    hide IsToken;
    hide ChainInv;
    hide RideInv;
    if DecisionOf(env, r, e).GiveUp? {
      GiveUpConsumes(env, r, e);
      ConsumedKeepsChain(r, r', before);
    } else if DecisionOf(env, r, e).MakeOffer? {
      OfferMovesToken(env, r, e);
      ReplacedKeepsChain(r, r', before, Continuation(env, r, e).0);
    } else {
      ContinueMovesToken(env, r, e);
      if DropsContinuation(env, r, e) {
        ConsumedKeepsChain(r, r', before);
      } else {
        ReplacedKeepsChain(r, r', before, Continuation(env, r, e).0);
      }
    }
  }

  lemma RunMatchingMovesToken(env: Env, r: Ride, e: RideEvent)
    requires RideInv(env.now, env.directory, r) && ChainInv(r) && e.RunMatching?
    ensures var r' := RideStep(env, r, e).ride;
            && ChainInv(r')
            && (DropsContinuation(env, r, e) ==> HasToken(r) && !HasToken(r'))
            && (!DropsContinuation(env, r, e) && CancelKey !in r'.lifecycle.seen ==> (HasToken(r') <==> HasToken(r)))
  {
    if RunsCascade(r, e) {
      CascadeKeepsChain(env, r, e);
    } else if Ready(r, e.key, e.newId) {
      InertRunKeepsTokens(env, r, e.key, e.geo, e.newId);
    }
  }

  lemma OffersOnlyClose(env: Env, r: Ride, k: LifeKey, otp: string)
    ensures var r' := Lifecycle.RunLifecycle(env, r, k, otp).ride;
            && (forall o :: o in r'.offers && r'.offers[o].status.Pending? ==> r.offers[o].status.Pending?)
            && (forall key :: key in r'.matching.jobs ==> key in r.matching.jobs && r'.matching.jobs[key] == r.matching.jobs[key])
            && r'.matching.seen <= r.matching.seen
  {
  }

  /** Accepting and cancelling only take tokens away, and only from a ride that leaves REQUESTED. */
  lemma LifecycleMovesToken(env: Env, r: Ride, k: LifeKey, otp: string)
    requires RideInv(env.now, env.directory, r) && ChainInv(r)
    ensures var r' := Lifecycle.RunLifecycle(env, r, k, otp).ride;
            && ChainInv(r')
            && (r'.trip.status.Requested? ==> r' == r)
  {
    var r' := Lifecycle.RunLifecycle(env, r, k, otp).ride;
    if k in r.lifecycle.jobs {
      assert LifeJobInv(env.directory, r, k, r.lifecycle.jobs[k]);
    }
    LifecycleFrame(env, r, k, otp);
    OffersOnlyClose(env, r, k, otp);
    forall a | IsToken(r', a) ensures IsToken(r, a) {
    }
  }

  // ---- When offers are made ---------------------------------------------------------------

  lemma OffersOfOtherSteps(env: Env, r: Ride, e: RideEvent)
    requires !RunsCascade(r, e)
    ensures RideStep(env, r, e).ride.offers.Keys == r.offers.Keys
  {
    if e.RunLifecycle? {
      LifecycleFrame(env, r, e.job, e.otp);
      hide Lifecycle.RunLifecycle;
    } else {
      hide Lifecycle.RunLifecycle;
    }
  }

  lemma CascadeOffers(env: Env, r: Ride, e: RideEvent)
    requires RunsCascade(r, e)
    ensures RideStep(env, r, e).ride.offers.Keys
         == r.offers.Keys + if DecisionOf(env, r, e).MakeOffer? then {e.newId} else {}
  {
  }
}
