/** The refinement theorems: running a call or handler on the shared stores is one event (for a
    gateway call, its events without interleaving) of the world those stores hold. Every other trip's
    rows, keys, offers and jobs are untouched, because the event leaves its ride alone. */
module StoresRefineWorld {
  import opened Base
  import opened Rides
  import opened Gateway
  import opened Cascade
  import opened Lifecycle
  import opened Dispatch
  import opened Storage
  import opened StoreOps
  import opened Refinement
  import opened HandlerRefinement

  /** Offer operations name offers of this trip, and at most the first insertion adds a new one. */
  ghost predicate FitsAtStart(s: Store, t: TripId, ops: seq<Op>) {
    forall i :: 0 <= i < |ops| ==>
      && (ops[i].MarkOffer? && ops[i].offer in s.offers ==> s.offers[ops[i].offer].trip == t)
      && (ops[i].InsertOffer? ==> ops[i].id !in s.offers && forall j :: 0 <= j < i ==> !ops[j].InsertOffer?)
  }

  /** From `s` to `s'`, no offer changes its trip and new ones are of trip `t`. */
  ghost predicate OffersStay(s: Store, s': Store, t: TripId) {
    forall o :: o in s'.offers ==> (o in s.offers && s'.offers[o].trip == s.offers[o].trip) || s'.offers[o].trip == t
  }

  lemma OffersDone(s: Store, t: TripId, op: Op)
    ensures Do(s, t, op).offers == RowsAfter(s.offers, t, op)
  {
    hide MarkRow;
    hide ExpireRows;
  }

  lemma DoKeepsOffers(s: Store, s1: Store, t: TripId, op: Op)
    requires OffersStay(s, s1, t) && Fits(s1, t, op)
    ensures OffersStay(s, Do(s1, t, op), t)
    ensures !op.InsertOffer? ==> Do(s1, t, op).offers.Keys == s1.offers.Keys
  {
    OffersDone(s1, t, op);
    hide Do;
  }

  lemma {:induction false} FitsAllAlong(s: Store, t: TripId, ops: seq<Op>)
    requires FitsAtStart(s, t, ops)
    ensures AllFit(s, t, ops) && OffersStay(s, DoAll(s, t, ops), t)
    ensures (forall i :: 0 <= i < |ops| ==> !ops[i].InsertOffer?) ==> DoAll(s, t, ops).offers.Keys == s.offers.Keys
  {
    if ops != [] {
      var before, op := ops[..|ops|-1], ops[|ops|-1];
      assert forall i :: 0 <= i < |before| ==> before[i] == ops[i];
      FitsAllAlong(s, t, before);
      assert op.InsertOffer? ==> forall i :: 0 <= i < |before| ==> !before[i].InsertOffer?;
      assert Fits(DoAll(s, t, before), t, op);
      DoKeepsOffers(s, DoAll(s, t, before), t, op);
    }
  }

  lemma ApplyOn(w: World, t: TripId, e: RideEvent)
    requires t in w.rides
    ensures Apply(w, On(t, e)) == Commit(w, t, RideStep(w.env, w.rides[t], e))
  {
  }

  lemma OpsRefineStep(s: Store, w: World, t: TripId, ops: seq<Op>, step: Step)
    requires Represents(s, w) && t in w.rides
    requires FitsAtStart(s, t, ops) && Realizes(s, w.rides[t], ops, step)
    ensures Represents(DoAll(s, t, ops), Commit(w, t, step))
  {
    FitsAllAlong(s, t, ops);
    DoAllRefines(s, w, t, ops);
  }

  /** Operations that realize an event of the ride perform the event on the world. */
  lemma OpsRefineEvent(s: Store, w: World, t: TripId, ops: seq<Op>, e: RideEvent)
    requires Represents(s, w) && t in w.rides
    requires FitsAtStart(s, t, ops) && Realizes(s, w.rides[t], ops, RideStep(w.env, w.rides[t], e))
    ensures Represents(DoAll(s, t, ops), Apply(w, On(t, e)))
  {
    ApplyOn(w, t, e);
    OpsRefineStep(s, w, t, ops, RideStep(w.env, w.rides[t], e));
  }

  /** The offer a lifecycle or timeout job names is one of its trip. */
  ghost predicate JobsNameOwnOffers(s: Store, t: TripId) {
    && (forall k :: (t, k) in s.lifecycle.jobs && s.lifecycle.jobs[(t, k)].Accept? ==>
          var o := s.lifecycle.jobs[(t, k)].offer; o in s.offers ==> s.offers[o].trip == t)
    && (forall k :: (t, k) in s.matching.jobs && s.matching.jobs[(t, k)].name.OfferTimeout? ==>
          var o := s.matching.jobs[(t, k)].name.offer; o in s.offers ==> s.offers[o].trip == t)
  }

  /** Operations that mark only own offers and insert none. */
  ghost predicate MarksOwn(s: Store, t: TripId, ops: seq<Op>) {
    forall op :: op in ops ==> !op.InsertOffer? && (op.MarkOffer? && op.offer in s.offers ==> s.offers[op.offer].trip == t)
  }

  lemma MarksOwnFits(s: Store, t: TripId, ops: seq<Op>)
    requires MarksOwn(s, t, ops)
    ensures FitsAtStart(s, t, ops)
  {
    forall i | 0 <= i < |ops| ensures ops[i] in ops {
    }
  }

  lemma CancelMarksOwn(s: Store, t: TripId)
    requires t in s.trips
    ensures MarksOwn(s, t, CancelOps(s, t))
  {
  }

  lemma AcceptMarksOwn(s: Store, t: TripId, d: DriverId, o: OfferId, otp: string)
    requires t in s.trips && (o in s.offers ==> s.offers[o].trip == t)
    ensures MarksOwn(s, t, AcceptOps(s, t, d, o, otp))
  {
  }

  lemma VerifyMarksOwn(s: Store, t: TripId, guess: string)
    requires t in s.trips
    ensures MarksOwn(s, t, VerifyOtpOps(s, t, guess))
  {
    CancelMarksOwn(s, t);
  }

  lemma CompleteMarksOwn(s: Store, t: TripId)
    requires t in s.trips
    ensures MarksOwn(s, t, CompleteOps(s, t))
  {
  }

  lemma HandlerMarksOwn(s: Store, t: TripId, job: LifeJob, otp: string)
    requires t in s.trips
    requires job.Accept? && job.offer in s.offers ==> s.offers[job.offer].trip == t
    ensures MarksOwn(s, t, HandlerOps(s, t, job, otp))
  {
    CancelMarksOwn(s, t);
    match job
    case Accept(d, o) => AcceptMarksOwn(s, t, d, o, otp);
    case VerifyOtp(_, guess) => VerifyMarksOwn(s, t, guess);
    case Cancel(_) =>
    case Complete(_) => CompleteMarksOwn(s, t);
  }

  lemma LifecycleFits(s: Store, t: TripId, k: LifeKey, otp: string)
    requires t in s.trips && (t, k) in s.lifecycle.jobs && JobsNameOwnOffers(s, t)
    ensures FitsAtStart(s, t, LifecycleOps(s, t, k, otp))
  {
    HandlerMarksOwn(s, t, s.lifecycle.jobs[(t, k)], otp);
    MarksOwnFits(s, t, LifecycleOps(s, t, k, otp));
  }

  lemma LifecycleRealizes(s: Store, t: TripId, env: Env, r: Ride, k: LifeKey, otp: string)
    requires s.env == env && Mirrors(s, t, r) && (t, k) in s.lifecycle.jobs && JobsNameOwnOffers(s, t)
    ensures Realizes(s, r, LifecycleOps(s, t, k, otp), RideStep(env, r, RideEvent.RunLifecycle(k, otp)))
  {
    LifecycleIsRealized(s, t, r, k, otp);
  }

  /** One run of the lifecycle worker is one event. */
  lemma LifecycleRefines(s: Store, w: World, t: TripId, k: LifeKey, otp: string)
    requires Represents(s, w) && t in w.rides && (t, k) in s.lifecycle.jobs && JobsNameOwnOffers(s, t)
    ensures Represents(DoAll(s, t, LifecycleOps(s, t, k, otp)), Apply(w, On(t, RideEvent.RunLifecycle(k, otp))))
  {
    SliceMirrors(s, w, t);
    LifecycleFits(s, t, k, otp);
    LifecycleRealizes(s, t, w.env, w.rides[t], k, otp);
    OpsRefineEvent(s, w, t, LifecycleOps(s, t, k, otp), RideEvent.RunLifecycle(k, otp));
  }

  lemma MatchingFits(s: Store, t: TripId, k: MatchKey, geo: Geo, newId: OfferId)
    requires (t, k) in s.matching.jobs && JobsNameOwnOffers(s, t) && newId !in s.offers
    ensures FitsAtStart(s, t, MatchingOps(s, t, k, geo, newId))
  {
    var ops := MatchingOps(s, t, k, geo, newId);
    forall i | 0 <= i < |ops|
      ensures ops[i].MarkOffer? && ops[i].offer in s.offers ==> s.offers[ops[i].offer].trip == t
      ensures ops[i].InsertOffer? ==> ops[i].id == newId && i == |ops| - 2
    {
    }
  }

  lemma MatchingRealizes(s: Store, t: TripId, env: Env, r: Ride, k: MatchKey, geo: Geo, newId: OfferId)
    requires s.env == env && Mirrors(s, t, r) && JobsNameOwnOffers(s, t) && newId !in s.offers
    requires (t, k) in s.matching.jobs && s.matching.jobs[(t, k)].delayedUntil.None?
    ensures Realizes(s, r, MatchingOps(s, t, k, geo, newId), RideStep(env, r, RideEvent.RunMatching(k, geo, newId)))
  {
    MatchingIsRealized(s, t, r, k, geo, newId);
  }

  /** One run of the matching worker is one event. */
  lemma MatchingRefines(s: Store, w: World, t: TripId, k: MatchKey, geo: Geo, newId: OfferId)
    requires Represents(s, w) && t in w.rides && JobsNameOwnOffers(s, t) && newId !in s.offers
    requires (t, k) in s.matching.jobs && s.matching.jobs[(t, k)].delayedUntil.None?
    ensures Represents(DoAll(s, t, MatchingOps(s, t, k, geo, newId)), Apply(w, On(t, RideEvent.RunMatching(k, geo, newId))))
  {
    SliceMirrors(s, w, t);
    MatchingFits(s, t, k, geo, newId);
    MatchingRealizes(s, t, w.env, w.rides[t], k, geo, newId);
    OpsRefineEvent(s, w, t, MatchingOps(s, t, k, geo, newId), RideEvent.RunMatching(k, geo, newId));
  }

  /** A gateway call none of whose steps another process interleaves with. */
  function CallEvents(w: World, t: TripId, c: CallId, req: Request): World {
    Apply(Apply(Apply(w, On(t, RideEvent.Begin(c, req))), On(t, RideEvent.TryLock(c))), On(t, RideEvent.Conclude(c)))
  }

  lemma CallEventsAre(w: World, t: TripId, c: CallId, req: Request)
    requires t in w.rides
    ensures CallEvents(w, t, c, req) == Commit(w, t, Step(WholeCall(w.env, w.rides[t], c, req), Keep, Done))
  {
    var r1 := Gateway.Begin(w.env, w.rides[t], c, req);
    var r2 := Gateway.TryLock(w.env, r1, c);
    assert w.rides[t := r1][t := r2] == w.rides[t := r2];
    assert w.rides[t := r2][t := Gateway.Conclude(w.env, r2, c)] == w.rides[t := Gateway.Conclude(w.env, r2, c)];
    assert w.env.(busy := w.env.busy) == w.env;
  }

  lemma CallFits(s: Store, t: TripId, req: Request)
    requires OfferOfTrip(s, t, req)
    ensures FitsAtStart(s, t, CallOps(s, t, req))
  {
  }

  /** An uninterrupted gateway call is its three events. */
  lemma CallRefines(s: Store, w: World, t: TripId, c: CallId, req: Request)
    requires Represents(s, w) && t in w.rides && OfferOfTrip(s, t, req) && (t, c) !in s.calls
    ensures Represents(DoAll(s, t, CallOps(s, t, req)), CallEvents(w, t, c, req))
  {
    SliceMirrors(s, w, t);
    CallIsRealized(s, t, w.rides[t], c, req);
    CallFits(s, t, req);
    OpsRefineStep(s, w, t, CallOps(s, t, req), Step(WholeCall(w.env, w.rides[t], c, req), Keep, Done));
    CallEventsAre(w, t, c, req);
  }

  lemma CallStepFits(s: Store, t: TripId, c: CallId, req: Request)
    requires OfferOfTrip(s, t, req)
    ensures FitsAtStart(s, t, BeginOps(s, t, c, req))
  {
  }

  lemma LaterStepsFit(s: Store, t: TripId, c: CallId)
    ensures FitsAtStart(s, t, TryLockOps(s, t, c)) && FitsAtStart(s, t, ConcludeOps(s, t, c))
  {
  }

  lemma BeginRealizes(s: Store, t: TripId, env: Env, r: Ride, c: CallId, req: Request)
    requires s.env == env && Mirrors(s, t, r) && OfferOfTrip(s, t, req)
    ensures Realizes(s, r, BeginOps(s, t, c, req), RideStep(env, r, RideEvent.Begin(c, req)))
  {
    BeginIsRealized(s, t, r, c, req);
  }

  /** Each micro-step of a call on the shared stores is one event, so whatever other processes do between
      them interleaves there as it does here. */
  lemma BeginRefines(s: Store, w: World, t: TripId, c: CallId, req: Request)
    requires Represents(s, w) && t in w.rides && OfferOfTrip(s, t, req)
    ensures Represents(DoAll(s, t, BeginOps(s, t, c, req)), Apply(w, On(t, RideEvent.Begin(c, req))))
  {
    RepresentedRide(s, w, t);
    hide Represents;
    hide Realizes;
    hide FitsAtStart;
    hide Mirrors;
    hide BeginOps;
    hide RideStep;
    hide Apply;
    SliceMirrors(s, w, t);
    BeginRealizes(s, t, w.env, w.rides[t], c, req);
    CallStepFits(s, t, c, req);
    OpsRefineEvent(s, w, t, BeginOps(s, t, c, req), RideEvent.Begin(c, req));
  }

  lemma TryLockRealizes(s: Store, t: TripId, env: Env, r: Ride, c: CallId)
    requires s.env == env && Mirrors(s, t, r)
    ensures Realizes(s, r, TryLockOps(s, t, c), RideStep(env, r, RideEvent.TryLock(c)))
  {
    TryLockIsRealized(s, t, r, c);
  }

  lemma TryLockRefines(s: Store, w: World, t: TripId, c: CallId)
    requires Represents(s, w) && t in w.rides
    ensures Represents(DoAll(s, t, TryLockOps(s, t, c)), Apply(w, On(t, RideEvent.TryLock(c))))
  {
    RepresentedRide(s, w, t);
    hide Represents;
    hide Realizes;
    hide FitsAtStart;
    hide Mirrors;
    hide TryLockOps;
    hide RideStep;
    hide Apply;
    SliceMirrors(s, w, t);
    TryLockRealizes(s, t, w.env, w.rides[t], c);
    LaterStepsFit(s, t, c);
    OpsRefineEvent(s, w, t, TryLockOps(s, t, c), RideEvent.TryLock(c));
  }

  lemma ConcludeRealizes(s: Store, t: TripId, env: Env, r: Ride, c: CallId)
    requires s.env == env && Mirrors(s, t, r)
    ensures Realizes(s, r, ConcludeOps(s, t, c), RideStep(env, r, RideEvent.Conclude(c)))
  {
    ConcludeIsRealized(s, t, r, c);
  }

  lemma ConcludeRefines(s: Store, w: World, t: TripId, c: CallId)
    requires Represents(s, w) && t in w.rides
    ensures Represents(DoAll(s, t, ConcludeOps(s, t, c)), Apply(w, On(t, RideEvent.Conclude(c))))
  {
    RepresentedRide(s, w, t);
    hide Represents;
    hide Realizes;
    hide FitsAtStart;
    hide Mirrors;
    hide ConcludeOps;
    hide RideStep;
    hide Apply;
    SliceMirrors(s, w, t);
    ConcludeRealizes(s, t, w.env, w.rides[t], c);
    LaterStepsFit(s, t, c);
    OpsRefineEvent(s, w, t, ConcludeOps(s, t, c), RideEvent.Conclude(c));
  }

  lemma RequestRealizes(s: Store, t: TripId, env: Env, r: Ride)
    requires s.env == env && Mirrors(s, t, r) && (t, RideRequest) in s.requests.jobs
    ensures Realizes(s, r, REQUEST_OPS, RideStep(env, r, RideEvent.RunRequest))
  {
    ActTwo(r, s.env.busy, REQUEST_OPS[0], REQUEST_OPS[1]);
    assert REQUEST_OPS == [REQUEST_OPS[0], REQUEST_OPS[1]];
  }

  lemma RequestFits(s: Store, t: TripId)
    ensures FitsAtStart(s, t, REQUEST_OPS)
  {
  }

  /** One run of the request worker is one event. */
  lemma RequestRefines(s: Store, w: World, t: TripId)
    requires Represents(s, w) && t in w.rides && (t, RideRequest) in s.requests.jobs
    ensures Represents(DoAll(s, t, REQUEST_OPS), Apply(w, On(t, RideEvent.RunRequest)))
  {
    SliceMirrors(s, w, t);
    RequestRealizes(s, t, w.env, w.rides[t]);
    RequestFits(s, t);
    OpsRefineEvent(s, w, t, REQUEST_OPS, RideEvent.RunRequest);
  }

  lemma InsertRefines(s: Store, w: World, t: TripId, rider: RiderId, meters: Fare.Meters)
    requires Represents(s, w) && t !in w.rides
    ensures Represents(Do(s, t, SaveTrip(NewTrip(rider, meters))), Put(w, t, FreshRide(rider, meters, map[])))
  {
    TripInserted(s, t, NewTrip(rider, meters));
  }

  /** The world with the new ride inserted and its request job queued. */
  function Created(w: World, t: TripId, rider: RiderId, meters: Fare.Meters): World {
    var inserted := Put(w, t, FreshRide(rider, meters, map[]));
    WorldAfter(inserted, t, Act(inserted.rides[t], AddRequest), ActBusy(inserted.env.busy, AddRequest))
  }

  lemma CreateOpsRefine(s: Store, w: World, t: TripId, rider: RiderId, meters: Fare.Meters)
    requires Represents(s, w) && t !in w.rides
    ensures Represents(DoAll(s, t, [SaveTrip(NewTrip(rider, meters)), AddRequest]), Created(w, t, rider, meters))
  {
    hide Represents;
    hide DoAll;
    hide Do;
    hide Act;
    hide ActBusy;
    InsertRefines(s, w, t, rider, meters);
    DoRefines(Do(s, t, SaveTrip(NewTrip(rider, meters))), Put(w, t, FreshRide(rider, meters, map[])), t, AddRequest);
    DoTwo(s, t, SaveTrip(NewTrip(rider, meters)), AddRequest);
  }

  lemma CreateEventsAre(w: World, user: UserId, t: TripId, meters: Fare.Meters)
    requires t !in w.rides && user in w.env.riders
    ensures Apply(Apply(w, CreateRide(user, t, 0, meters)), On(t, RideEvent.Conclude(0))) == Created(w, t, w.env.riders[user], meters)
  {
    var created := FreshRide(w.env.riders[user], meters, map[0 := Creating]);
    var r := FreshRide(w.env.riders[user], meters, map[]);
    assert map[0 := Creating] - {0} == map[];
    assert Gateway.Conclude(w.env, created, 0) == Act(r, AddRequest);
    assert w.rides[t := created][t := Act(r, AddRequest)] == w.rides[t := r][t := Act(r, AddRequest)];
    assert w.env.(busy := w.env.busy) == w.env;
  }

  /** `createRide`: the new trip row, then its request job. */
  lemma CreateRefines(s: Store, w: World, user: UserId, t: TripId, meters: Fare.Meters)
    requires Represents(s, w) && t !in w.rides && user in w.env.riders
    ensures Represents(DoAll(s, t, [SaveTrip(NewTrip(w.env.riders[user], meters)), AddRequest]),
                       Apply(Apply(w, CreateRide(user, t, 0, meters)), On(t, RideEvent.Conclude(0))))
  {
    CreateOpsRefine(s, w, t, w.env.riders[user], meters);
    CreateEventsAre(w, user, t, meters);
  }

  lemma OpenIsCreate(w: World, user: UserId, t: TripId, c: CallId, meters: Fare.Meters)
    requires t !in w.rides && user in w.env.riders
    ensures var w1 := Put(w, t, FreshRide(w.env.riders[user], meters, map[]));
            WorldAfter(w1, t, Act(w1.rides[t], SetCall(c, Creating)), ActBusy(w1.env.busy, SetCall(c, Creating)))
            == Apply(w, CreateRide(user, t, c, meters))
  {
    var r := FreshRide(w.env.riders[user], meters, map[]);
    assert w.rides[t := r][t := Act(r, SetCall(c, Creating))] == w.rides[t := Act(r, SetCall(c, Creating))];
    assert map[][c := Creating] == map[c := Creating];
  }

  /** The first half of `createRide`: the row is there, its request job is not queued yet. */
  lemma OpenRefines(s: Store, w: World, user: UserId, t: TripId, c: CallId, meters: Fare.Meters)
    requires Represents(s, w) && t !in w.rides && user in w.env.riders
    ensures Represents(DoAll(s, t, [SaveTrip(NewTrip(w.env.riders[user], meters)), SetCall(c, Creating)]),
                       Apply(w, CreateRide(user, t, c, meters)))
  {
    hide Represents;
    hide Do;
    hide DoAll;
    hide Act;
    hide WorldAfter;
    var row := NewTrip(w.env.riders[user], meters);
    var s1, w1 := Do(s, t, SaveTrip(row)), Put(w, t, FreshRide(w.env.riders[user], meters, map[]));
    InsertRefines(s, w, t, w.env.riders[user], meters);
    DoRefines(s1, w1, t, SetCall(c, Creating));
    DoTwo(s, t, SaveTrip(row), SetCall(c, Creating));
    OpenIsCreate(w, user, t, c, meters);
  }
}
