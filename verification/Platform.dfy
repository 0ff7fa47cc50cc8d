/** The three processes over their shared stores, doing what the source does in the order it does it.
    Every method is proved to perform exactly its list of operations (StoreOps); StoresRefineWorld
    says what that means for the rides. */
module Platform {
  import opened Base
  import opened Constants
  import opened Fare
  import opened StateMachine
  import opened Rides
  import opened Gateway
  import opened Cascade
  import opened Lifecycle
  import opened Storage
  import opened StoreOps
  import opened StoreEffects
  import opened HandlerRefinement
  import opened StoreRuns
  import opened Matching

  datatype Reply =
    | Success
    | DriverNotFound | RiderNotFound | OfferMissing | OfferNotYours | OfferUnavailable | AlreadyAccepted
    | TripMissing | NotAssigned | WrongStatus | NoActiveRide

  /** `GEOSEARCH ... BYRADIUS radius km ASC`: of the ranked members those within the radius, in their order. */
  function FindNearbyDrivers(ranked: seq<UserId>, geo: Geo, radius: real): (ids: seq<UserId>)
    ensures forall u :: u in ids <==> u in ranked && u in geo.km && geo.km[u] <= radius
  {
    if ranked == [] then []
    else
      var rest := FindNearbyDrivers(ranked[1..], geo, radius);
      if ranked[0] in geo.km && geo.km[ranked[0]] <= radius then [ranked[0]] + rest else rest
  }

  /** The ids of `ids` that are not in `skipped`, in order. */
  function WithoutSkipped(ids: seq<UserId>, skipped: seq<UserId>): seq<UserId> {
    if ids == [] then []
    else (if ids[0] in skipped then [] else [ids[0]]) + WithoutSkipped(ids[1..], skipped)
  }

  function WithoutBusy(ids: seq<UserId>, busy: set<UserId>): seq<UserId> {
    if ids == [] then []
    else (if ids[0] in busy then [] else [ids[0]]) + WithoutBusy(ids[1..], busy)
  }

  lemma PrependFilters(u: UserId, rest: seq<UserId>, busy: set<UserId>, skipped: seq<UserId>)
    ensures WithoutBusy([u] + rest, busy) == (if u in busy then [] else [u]) + WithoutBusy(rest, busy)
    ensures WithoutSkipped(WithoutBusy([u] + rest, busy), skipped)
         == (if u in busy || u in skipped then [] else [u]) + WithoutSkipped(WithoutBusy(rest, busy), skipped)
  {
    assert ([u] + rest)[1..] == rest;
    var free := WithoutBusy(rest, busy);
    if u in busy {
      assert WithoutBusy([u] + rest, busy) == free;
    } else {
      assert ([u] + free)[1..] == free;
      assert WithoutBusy([u] + rest, busy) == [u] + free;
    }
  }

  /** Searching, dropping those who are busy or whose lookup failed, and dropping the skipped finds the drivers a
      cascade run considers. */
  lemma {:induction false} FiltersFindEligible(ranked: seq<UserId>, geo: Geo, radius: real, busy: set<UserId>,
                                               skipped: seq<UserId>)
    ensures WithoutSkipped(WithoutBusy(FindNearbyDrivers(ranked, geo, radius), busy + geo.failed), skipped)
         == Available(ranked, geo, radius, busy, skipped)
  {
    if ranked != [] {
      var u := ranked[0];
      FiltersFindEligible(ranked[1..], geo, radius, busy, skipped);
      var near, rest := FindNearbyDrivers(ranked, geo, radius), FindNearbyDrivers(ranked[1..], geo, radius);
      if u !in geo.km || geo.km[u] > radius {
        assert near == rest;
      } else {
        assert near == [u] + rest;
        PrependFilters(u, rest, busy + geo.failed, skipped);
      }
    }
  }

  /** What one cascade run does to the stores. It makes an offer, for 30 seconds, if and only if the tenth attempt
      is not over and somebody within 5 km, or 10 from the second attempt on, may be asked, the nearest of
      whom has a driver record; otherwise it queues the CANCEL or the next run. */
  ghost predicate CascadeIsRight(s: Store, s': Store, t: TripId, attempt: nat, skipped: seq<UserId>, geo: Geo,
                                 newId: OfferId)
  {
    var km, due := if attempt == 1 then 5.0 else 10.0, s.env.now + 30_000;
    if newId in s'.offers then
      attempt <= 10 && exists u ::
        && Nearest(geo, km, s.env.busy, skipped, u) && u in s.env.directory.byUser
        && s' == s.(offers := s.offers[newId := OfferRow(t, Offer(s.env.directory.byUser[u], Pending, due))],
                    matching := s.matching.Add((t, TimeoutOf(newId)),
                      MatchJob(OfferTimeout(newId), Some(attempt + 1), Some(skipped + [u]), Some(due))))
    else if attempt > 10 || (attempt != 1 && NobodyCanBeAsked(geo, 10.0, s.env.busy, skipped)) then
      s' == s.(lifecycle := s.lifecycle.Add((t, CancelKey), Cancel(NoDrivers)))
    else if attempt == 1 && NobodyCanBeAsked(geo, 5.0, s.env.busy, skipped) then
      s' == s.(matching := s.matching.Add((t, Next(2)), MatchJob(CascadeExpanded, Some(2), Some(skipped), None)))
    else
      exists u ::
        && Nearest(geo, km, s.env.busy, skipped, u) && u !in s.env.directory.byUser
        && s' == s.(matching := s.matching.Add((t, Next(attempt + 1)),
                      MatchJob(CascadeSkip, Some(attempt + 1), Some(skipped + [u]), None)))
  }

  /** The writes of a run that has found `target`. */
  function AskOps(s: Store, attempt: nat, skipped: seq<UserId>, target: UserId, newId: OfferId): seq<Op> {
    if target in s.env.directory.byUser then
      [InsertOffer(newId, Offer(s.env.directory.byUser[target], Pending, s.env.now + OFFER_TIMEOUT_MS)),
       AddMatching(TimeoutOf(newId), MatchJob(OfferTimeout(newId), Some(attempt + 1), Some(skipped + [target]),
                                              Some(s.env.now + OFFER_TIMEOUT_MS)))]
    else [AddMatching(Next(attempt + 1), MatchJob(CascadeSkip, Some(attempt + 1), Some(skipped + [target]), None))]
  }

  lemma OfferIsRight(s: Store, s': Store, t: TripId, attempt: nat, skipped: seq<UserId>, geo: Geo, newId: OfferId,
                     u: UserId)
    requires attempt <= 10 && newId !in s.offers && u in s.env.directory.byUser
    requires Nearest(geo, if attempt == 1 then 5.0 else 10.0, s.env.busy, skipped, u)
    requires s' == s.(offers := s.offers[newId := OfferRow(t, Offer(s.env.directory.byUser[u], Pending,
                                                                    s.env.now + 30_000))],
                      matching := s.matching.Add((t, TimeoutOf(newId)),
                        MatchJob(OfferTimeout(newId), Some(attempt + 1), Some(skipped + [u]), Some(s.env.now + 30_000))))
    ensures CascadeIsRight(s, s', t, attempt, skipped, geo, newId)
  {
    hide Nearest;
    hide NobodyCanBeAsked;
  }

  lemma SkipIsRight(s: Store, s': Store, t: TripId, attempt: nat, skipped: seq<UserId>, geo: Geo, newId: OfferId,
                    u: UserId)
    requires attempt <= 10 && newId !in s.offers && u !in s.env.directory.byUser
    requires Nearest(geo, if attempt == 1 then 5.0 else 10.0, s.env.busy, skipped, u)
    requires s' == s.(matching := s.matching.Add((t, Next(attempt + 1)),
                        MatchJob(CascadeSkip, Some(attempt + 1), Some(skipped + [u]), None)))
    ensures CascadeIsRight(s, s', t, attempt, skipped, geo, newId)
  {
    assert !NobodyCanBeAsked(geo, if attempt == 1 then 5.0 else 10.0, s.env.busy, skipped);
    hide Nearest;
    hide NobodyCanBeAsked;
  }

  lemma NobodyIsRight(s: Store, s': Store, t: TripId, attempt: nat, skipped: seq<UserId>, geo: Geo, newId: OfferId)
    requires newId !in s.offers
    requires attempt > 10 || NobodyCanBeAsked(geo, if attempt == 1 then 5.0 else 10.0, s.env.busy, skipped)
    requires s' == if attempt == 1
                   then s.(matching := s.matching.Add((t, Next(2)), MatchJob(CascadeExpanded, Some(2), Some(skipped), None)))
                   else s.(lifecycle := s.lifecycle.Add((t, CancelKey), Cancel(NoDrivers)))
    ensures CascadeIsRight(s, s', t, attempt, skipped, geo, newId)
  {
    hide Nearest;
    hide NobodyCanBeAsked;
  }

  lemma CascadeIsRightOnStores(s: Store, t: TripId, attempt: nat, skipped: seq<UserId>, geo: Geo, newId: OfferId)
    requires geo.Valid() && newId !in s.offers
    ensures CascadeIsRight(s, DoAll(s, t, CascadeOps(s, attempt, skipped, geo, newId)), t, attempt, skipped, geo, newId)
  {
    hide Geo.Valid;
    hide Do;
    hide DoAll;
    CascadeEffect(s, t, attempt, skipped, geo, newId);
    DecisionIsRight(s.env, attempt, skipped, geo);
    var s' := DoAll(s, t, CascadeOps(s, attempt, skipped, geo, newId));
    hide CascadeOps;
    hide Decide;
    hide Nearest;
    hide NobodyCanBeAsked;
    hide CascadeIsRight;
    match Decide(s.env, attempt, skipped, geo)
    case GiveUp => NobodyIsRight(s, s', t, attempt, skipped, geo, newId);
    case Continue(_, skip) =>
      if Decide(s.env, attempt, skipped, geo) == Continue(CascadeExpanded, skipped) {
        NobodyIsRight(s, s', t, attempt, skipped, geo, newId);
      } else {
        SkipIsRight(s, s', t, attempt, skipped, geo, newId, skip[|skipped|]);
      }
    case MakeOffer(u, _) => OfferIsRight(s, s', t, attempt, skipped, geo, newId, u);
  }

  ghost function OfferExpired(s: Store, o: OfferId): Store
    requires o in s.offers
  {
    s.(offers := s.offers[o := OfferRow(s.offers[o].trip, s.offers[o].offer.(status := Expired))])
  }

  /** What a matching job does to the stores: a timeout whose offer is no longer PENDING, nothing; any other expires its
      offer, and then, as every other job, runs the cascade. */
  ghost predicate MatchJobIsRight(s: Store, s': Store, t: TripId, job: MatchJob, geo: Geo, newId: OfferId) {
    if !job.name.OfferTimeout? then CascadeIsRight(s, s', t, AttemptOf(job), SkippedOf(job), geo, newId)
    else if job.name.offer in s.offers && s.offers[job.name.offer].offer.status == Pending then
      CascadeIsRight(OfferExpired(s, job.name.offer), s', t, AttemptOf(job), SkippedOf(job), geo, newId)
    else s' == s
  }

  lemma CascadeLeavesOffers(s: Store, t: TripId, attempt: nat, skipped: seq<UserId>, geo: Geo, newId: OfferId)
    ensures var s' := DoAll(s, t, CascadeOps(s, attempt, skipped, geo, newId));
            forall o :: o in s.offers && o != newId ==> o in s'.offers && s'.offers[o] == s.offers[o]
  {
    CascadeEffect(s, t, attempt, skipped, geo, newId);
    hide CascadeOps;
    hide DoAll;
    hide Decide;
  }

  lemma CascadeOutcome(s: Store, t: TripId, attempt: nat, skipped: seq<UserId>, geo: Geo, newId: OfferId)
    ensures var s' := DoAll(s, t, CascadeOps(s, attempt, skipped, geo, newId));
            && (forall o :: o in s.offers && o != newId ==> o in s'.offers && s'.offers[o] == s.offers[o])
            && (geo.Valid() && newId !in s.offers ==> CascadeIsRight(s, s', t, attempt, skipped, geo, newId))
  {
    hide Geo.Valid;
    hide CascadeIsRight;
    hide CascadeOps;
    hide DoAll;
    CascadeLeavesOffers(s, t, attempt, skipped, geo, newId);
    if geo.Valid() && newId !in s.offers {
      CascadeIsRightOnStores(s, t, attempt, skipped, geo, newId);
    }
  }

  lemma CascadeOpsAre(s: Store, attempt: nat, skipped: seq<UserId>, geo: Geo, newId: OfferId)
    ensures var available := Available(geo.ranked, geo, if attempt == 1 then 5.0 else 10.0, s.env.busy, skipped);
            CascadeOps(s, attempt, skipped, geo, newId) ==
              if attempt > 10 || (available == [] && attempt != 1) then [AddLifecycle(CancelKey, Cancel(NoDrivers))]
              else if available == [] then
                [AddMatching(Next(attempt + 1), MatchJob(CascadeExpanded, Some(attempt + 1), Some(skipped), None))]
              else AskOps(s, attempt, skipped, available[0], newId)
  {
    hide Available;
  }

  /** A cascade run does not look at the offers. */
  lemma CascadeIgnoresOffers(s: Store, t: TripId, o: OfferId, attempt: nat, skipped: seq<UserId>, geo: Geo,
                             newId: OfferId)
    requires o in s.offers
    ensures CascadeOps(DoAll(s, t, [MarkOffer(o, Expired)]), attempt, skipped, geo, newId)
         == CascadeOps(s, attempt, skipped, geo, newId)
  {
    DoThen(s, t, [], MarkOffer(o, Expired));
  }

  /** The matching handlers do not look at their own queue. */
  lemma MatchingIgnoresFinish(s: Store, t: TripId, k: MatchKey, job: MatchJob, geo: Geo, newId: OfferId)
    ensures MatchingJobOps(DoAll(s, t, [FinishMatching(k)]), job, geo, newId) == MatchingJobOps(s, job, geo, newId)
  {
    DoThen(s, t, [], FinishMatching(k));
  }

  lemma ExpireIsOneField(s: Store, t: TripId, o: OfferId)
    requires o in s.offers
    ensures DoAll(s, t, [MarkOffer(o, Expired)]) == OfferExpired(s, o)
  {
    DoThen(s, t, [], MarkOffer(o, Expired));
  }

  lemma TakeIsOneField(s: Store, t: TripId, k: MatchKey)
    ensures DoAll(s, t, [FinishMatching(k)]) == s.(matching := Queue(s.matching.jobs - {(t, k)}, s.matching.seen))
  {
    DoThen(s, t, [], FinishMatching(k));
  }

  lemma FinishIsOneField(s: Store, t: TripId, k: LifeKey)
    ensures DoAll(s, t, [FinishLifecycle(k)]) == s.(lifecycle := s.lifecycle.Finish((t, k)))
  {
    DoThen(s, t, [], FinishLifecycle(k));
  }

  lemma CountIsOneField(s: Store, t: TripId, n: nat, expiry: nat)
    ensures DoAll(s, t, [SetAttempts(n, expiry)]) == s.(attempts := s.attempts[t := Present(n, expiry)])
  {
    DoThen(s, t, [], SetAttempts(n, expiry));
  }

  /** How a handler ends that validates a transition of trip `t` to `to`. */
  function TransitionOutcome(s: Store, t: TripId, to: Status): Outcome {
    if t !in s.trips then Threw(TripNotFound)
    else if IsValidTransition(s.trips[t].status, to) then Done
    else Threw(InvalidTransition(s.trips[t].status, to))
  }

  function AcceptOutcome(s: Store, t: TripId, o: OfferId): Outcome {
    var outcome := TransitionOutcome(s, t, Accepted);
    if outcome.Done? && o !in s.offers then Threw(OfferNotFound) else outcome
  }

  function GuessOutcome(s: Store, t: TripId, right: bool, n: nat): Outcome {
    if right then TransitionOutcome(s, t, Started)
    else if MAX_OTP_ATTEMPTS - n <= 0 then TransitionOutcome(s, t, Cancelled)
    else Done
  }

  /** A guess fails without a live OTP; a right one if the ride cannot start; the last wrong one if it cannot
      be cancelled. */
  function VerifyOutcome(s: Store, t: TripId, guess: string): Outcome {
    var stored := ReadKey(s.otps, t).Get(s.env.now);
    if stored.None? then Threw(OtpNotFound)
    else GuessOutcome(s, t, guess == stored.value, ReadKey(s.attempts, t).Get(s.env.now).GetOr(0) + 1)
  }

  function CompleteOutcome(s: Store, t: TripId): Outcome {
    if t in s.trips && s.trips[t].status.Completed? then Done else TransitionOutcome(s, t, Completed)
  }

  function HandlerOutcome(s: Store, t: TripId, job: LifeJob): Outcome {
    match job
    case Accept(_, o) => AcceptOutcome(s, t, o)
    case VerifyOtp(_, guess) => VerifyOutcome(s, t, guess)
    case Cancel(_) => TransitionOutcome(s, t, Cancelled)
    case Complete(_) => CompleteOutcome(s, t)
  }

  /** The counted guess and, if it is the last wrong one, its cancellation. */
  lemma VerifyEffects(s: Store, t: TripId, guess: string)
    ensures var s' := DoAll(s, t, VerifyOtpOps(s, t, guess));
            if !OtpIsLive(s, t) then s' == s && VerifyOutcome(s, t, guess) == Threw(OtpNotFound)
            else if guess == s.otps[t].value then
              t in s.trips && s.trips[t].status == Accepted ==>
                && VerifyOutcome(s, t, guess) == Done
                && s' == s.(trips := s.trips[t := s.trips[t].(status := Started)],
                            otps := s.otps - {t}, attempts := s.attempts - {t})
            else if GuessNumber(s, t) < 3 then
              && VerifyOutcome(s, t, guess) == Done
              && s' == s.(attempts := s.attempts[t := Present(GuessNumber(s, t), s.env.now + 900_000)])
            else
              t in s.trips && s.trips[t].status in {Requested, Accepted} ==>
                && VerifyOutcome(s, t, guess) == Done && PendingExpired(s.offers, s'.offers, t)
                && s' == s.(trips := s.trips[t := s.trips[t].(status := Cancelled)],
                            env := s.env.(busy := s.env.busy - DriversUser(s, s.trips[t].driver)),
                            otps := s.otps - {t}, attempts := s.attempts - {t}, locks := s.locks - {t},
                            offers := s'.offers)
  {
    VerifyEffect(s, t, guess);
    hide DoAll;
    hide VerifyOtpOps;
    hide CancelOps;
    hide PendingExpired;
    if OtpIsLive(s, t) {
      var counted := s.(attempts := s.attempts[t := Present(GuessNumber(s, t), s.env.now + 900_000)]);
      CancelEffect(counted, t);
      assert counted.attempts - {t} == s.attempts - {t};
      assert DriversUser(counted, None) == DriversUser(s, None);
      hide DriversUser;
    }
  }

  lemma VerifyOtpIs(s: Store, t: TripId, guess: string)
    ensures var stored, n := ReadKey(s.otps, t).Get(s.env.now), ReadKey(s.attempts, t).Get(s.env.now).GetOr(0) + 1;
            if stored.None? then VerifyOtpOps(s, t, guess) == [] && VerifyOutcome(s, t, guess) == Threw(OtpNotFound)
            else
              && VerifyOtpOps(s, t, guess)
                 == [SetAttempts(n, s.env.now + OTP_TTL_MS)] + GuessOps(s, t, guess == stored.value, n)
              && VerifyOutcome(s, t, guess) == GuessOutcome(s, t, guess == stored.value, n)
  {
    hide GuessOps;
    hide GuessOutcome;
  }

  /** A handler on the stores ends as the handler of the ride does, with the same error. */
  lemma OutcomeIsTheRides(s: Store, t: TripId, r: Ride, job: LifeJob, otp: string)
    requires Mirrors(s, t, r)
    requires job.Accept? && job.offer in s.offers ==> s.offers[job.offer].trip == t
    ensures HandlerOutcome(s, t, job) == Handle(s.env, r, job, otp).outcome
  {
  }

  lemma OutcomeIgnoresQueue(s: Store, q: Queue<JobId<LifeKey>, LifeJob>, t: TripId, job: LifeJob)
    ensures HandlerOutcome(s.(lifecycle := q), t, job) == HandlerOutcome(s, t, job)
  {
  }

  /** The lifecycle handlers do not look at their own queue. */
  lemma LifecycleIgnoresFinish(s: Store, t: TripId, k: LifeKey, job: LifeJob, otp: string)
    ensures HandlerOps(DoAll(s, t, [FinishLifecycle(k)]), t, job, otp) == HandlerOps(s, t, job, otp)
    ensures HandlerOutcome(DoAll(s, t, [FinishLifecycle(k)]), t, job) == HandlerOutcome(s, t, job)
  {
    FinishIsOneField(s, t, k);
    HandlersIgnoreQueue(s, s.lifecycle.Finish((t, k)), t, job, otp);
    OutcomeIgnoresQueue(s, s.lifecycle.Finish((t, k)), t, job);
  }

  /** Counting an attempt changes neither the trip nor the driver. */
  lemma GuessIgnoresCount(s: Store, t: TripId, n: nat, expiry: nat, right: bool)
    ensures GuessOps(DoAll(s, t, [SetAttempts(n, expiry)]), t, right, n) == GuessOps(s, t, right, n)
    ensures GuessOutcome(DoAll(s, t, [SetAttempts(n, expiry)]), t, right, n) == GuessOutcome(s, t, right, n)
  {
    CountIsOneField(s, t, n, expiry);
    GuessReads(s, s.(attempts := s.attempts[t := Present(n, expiry)]), t, right, n);
  }

  lemma TryLockOpsAre(s: Store, t: TripId, c: CallId)
    requires (t, c) in s.calls && s.calls[(t, c)].AcceptChecked?
    ensures var d, o := s.calls[(t, c)].driver, s.calls[(t, c)].offer;
            TryLockOps(s, t, c) ==
              if LockIsFree(s, t) then [SetLock(d, s.env.now + RIDE_LOCK_TTL_MS)] + [SetCall(c, AcceptLocked(d, o))]
              else [EndCall(c)]
  {
  }

  /** Trip `t` can still be cancelled, and is the user's if he has a rider record. */
  ghost predicate MayCancel(trips: map<TripId, Trip>, riders: map<UserId, RiderId>, user: UserId, t: TripId) {
    && t in trips && trips[t].status in {Requested, Accepted}
    && (user in riders ==> trips[t].rider == riders[user])
  }

  class Backend {
    // Clock, `Driver` and `Rider` tables
    var now: nat
    var directory: Directory
    var riders: map<UserId, RiderId>
    // Postgres
    var trips: map<TripId, Trip>
    var offers: map<OfferId, OfferRow>
    // Redis
    var busy: set<UserId>
    var locks: map<TripId, Key<DriverId>>
    var otps: map<TripId, Key<string>>
    var attempts: map<TripId, Key<nat>>
    // BullMQ
    var requests: Queue<JobId<RequestKey>, RequestJob>
    var matching: Queue<JobId<MatchKey>, MatchJob>
    var lifecycle: Queue<JobId<LifeKey>, LifeJob>
    // The gateways' calls between two awaits
    var calls: map<JobId<CallId>, Call>

    ghost function Snapshot(): Store
      reads this
    {
      Store(Env(now, directory, riders, busy), trips, offers, locks, otps, attempts, requests, matching, lifecycle, calls)
    }

    constructor ()
      ensures Snapshot() == EMPTY_STORE
    {
      now, directory, riders := 0, Directory(map[], map[]), map[];
      trips, offers, busy, locks, otps, attempts := map[], map[], {}, map[], map[], map[];
      requests, matching, lifecycle := Queue(map[], {}), Queue(map[], {}), Queue(map[], {});
      calls := map[];
    }

    // ---- Gateway ----------------------------------------------------------------------------

    method AddRequestJob(t: TripId)
      modifies this`requests
      ensures Snapshot() == DoAll(old(Snapshot()), t, [AddRequest])
    {
      DoThen(Snapshot(), t, [], AddRequest);
      requests := requests.Add((t, RideRequest), NewRide);
    }

    method SaveTripRow(t: TripId, row: Trip)
      modifies this`trips
      ensures Snapshot() == DoAll(old(Snapshot()), t, [SaveTrip(row)])
      ensures trips == old(trips)[t := row]
    {
      DoThen(Snapshot(), t, [], SaveTrip(row));
      trips := trips[t := row];
    }

    method CreateRide(user: UserId, t: TripId, meters: Meters) returns (reply: Reply)
      requires t !in trips  // a new UUID
      modifies this`trips, this`requests
      ensures reply == if user in riders then Success else RiderNotFound
      ensures user in riders ==>
                && trips.Keys == old(trips).Keys + {t} && (forall t' :: t' in old(trips) ==> trips[t'] == old(trips)[t'])
                && trips[t].rider == riders[user] && trips[t].meters == meters && trips[t].status == Requested
                && trips[t].driver == None && trips[t].otp == None
                && trips[t].fare == None && trips[t].distance == None && trips[t].completedAt == None
                && requests == old(requests).Add((t, RideRequest), NewRide)
      ensures Snapshot() == if user !in riders then old(Snapshot())
                            else DoAll(old(Snapshot()), t, [SaveTrip(NewTrip(riders[user], meters)), AddRequest])
    {
      if user !in riders { return RiderNotFound; }
      ghost var s := Snapshot();
      var row := NewTrip(riders[user], meters);
      SaveTripRow(t, row);
      AddRequestJob(t);
      DoAppend(s, t, [SaveTrip(row)], [AddRequest]);
      assert [SaveTrip(row)] + [AddRequest] == [SaveTrip(row), AddRequest];
      return Success;
    }

    /** `SET lock driver EX 300 NX` */
    method LockRide(t: TripId, driver: DriverId) returns (locked: bool)
      modifies this`locks
      ensures locked <==> LockIsFree(old(Snapshot()), t)
      ensures locks == if locked then old(locks)[t := Present(driver, now + 300_000)] else old(locks)
      ensures Snapshot() == DoAll(old(Snapshot()), t, if locked then [SetLock(driver, now + RIDE_LOCK_TTL_MS)] else [])
    {
      locked := ReadKey(locks, t).Get(now).None?;
      if locked {
        DoThen(Snapshot(), t, [], SetLock(driver, now + RIDE_LOCK_TTL_MS));
        locks := locks[t := Present(driver, now + RIDE_LOCK_TTL_MS)];
      }
    }

    /** The checks `acceptRide` and `rejectRide` share. */
    method CheckOffer(user: UserId, o: OfferId) returns (reply: Reply)
      ensures reply == if user !in directory.byUser then DriverNotFound
                       else if o !in offers then OfferMissing
                       else if offers[o].offer.driver != directory.byUser[user] then OfferNotYours
                       else Success
    {
      if user !in directory.byUser { return DriverNotFound; }
      if o !in offers { return OfferMissing; }
      if offers[o].offer.driver != directory.byUser[user] { return OfferNotYours; }
      return Success;
    }

    method AddLifecycleJob(t: TripId, k: LifeKey, job: LifeJob)
      modifies this`lifecycle
      ensures Snapshot() == DoAll(old(Snapshot()), t, [AddLifecycle(k, job)])
    {
      DoThen(Snapshot(), t, [], AddLifecycle(k, job));
      lifecycle := lifecycle.Add((t, k), job);
    }

    method AcceptRide(user: UserId, t: TripId, o: OfferId) returns (reply: Reply)
      modifies this`locks, this`lifecycle
      ensures Snapshot() == DoAll(old(Snapshot()), t, CallOps(old(Snapshot()), t, Request.AcceptRide(user, o)))
      ensures var owns := user in directory.byUser && o in offers && offers[o].offer.driver == directory.byUser[user];
              && (reply == Success <==> owns && offers[o].offer.status == Pending && LockIsFree(old(Snapshot()), t))
              && (reply == OfferUnavailable <==> owns && offers[o].offer.status != Pending)
              && (reply == AlreadyAccepted <==>
                    owns && offers[o].offer.status == Pending && !LockIsFree(old(Snapshot()), t))
      ensures reply == Success ==>
                && locks == old(locks)[t := Present(directory.byUser[user], now + 300_000)]
                && lifecycle == old(lifecycle).Add((t, AcceptKey), Accept(directory.byUser[user], o))
      ensures reply != Success ==> locks == old(locks) && lifecycle == old(lifecycle)
    {
      AcceptCallEffect(Snapshot(), t, user, o);
      AcceptCallOps(Snapshot(), t, user, o);
      hide CallOps;
      hide Do;
      hide DoAll;
      reply := CheckOffer(user, o);
      if !reply.Success? { return; }
      var driver := directory.byUser[user];
      if !offers[o].offer.status.Pending? { return OfferUnavailable; }
      ghost var s := Snapshot();
      var locked := LockRide(t, driver);
      if !locked { return AlreadyAccepted; }
      AddLifecycleJob(t, AcceptKey, Accept(driver, o));
      DoAppend(s, t, [SetLock(driver, now + RIDE_LOCK_TTL_MS)], [AddLifecycle(AcceptKey, Accept(driver, o))]);
      return Success;
    }

    /** `rideOffer.update` of the status */
    method MarkOfferRow(t: TripId, o: OfferId, status: OfferStatus)
      requires o in offers
      modifies this`offers
      ensures Snapshot() == DoAll(old(Snapshot()), t, [MarkOffer(o, status)])
    {
      DoThen(Snapshot(), t, [], MarkOffer(o, status));
      offers := MarkRow(offers, o, status);
    }

    method AddMatchingJob(t: TripId, k: MatchKey, job: MatchJob)
      modifies this`matching
      ensures Snapshot() == DoAll(old(Snapshot()), t, [AddMatching(k, job)])
    {
      DoThen(Snapshot(), t, [], AddMatching(k, job));
      matching := matching.Add((t, k), job);
    }

    method RejectRide(user: UserId, t: TripId, o: OfferId) returns (reply: Reply)
      modifies this`offers, this`matching
      ensures Snapshot() == DoAll(old(Snapshot()), t, CallOps(old(Snapshot()), t, Request.RejectRide(user, o)))
      ensures var owns := user in directory.byUser && o in old(offers) && old(offers)[o].offer.driver == directory.byUser[user];
              && (reply == Success <==> owns && t in trips) && (reply == TripMissing <==> owns && t !in trips)
              && (owns ==>
                    && offers.Keys == old(offers).Keys && (forall x :: x in offers && x != o ==> offers[x] == old(offers)[x])
                    && offers[o] == OfferRow(old(offers)[o].trip, old(offers)[o].offer.(status := Rejected)))
              && (!owns ==> offers == old(offers))
      ensures matching == if reply != Success then old(matching)
                          else old(matching).Add((t, RejectOf(o)), MatchJob(CascadeReject, Some(1), Some([user]), None))
    {
      RejectCallEffect(Snapshot(), t, user, o);
      hide Do;
      reply := CheckOffer(user, o);
      if !reply.Success? { return; }
      ghost var s := Snapshot();
      MarkOfferRow(t, o, Rejected);
      if t !in trips { return TripMissing; }
      var job := MatchJob(CascadeReject, Some(1), Some([user]), None);
      AddMatchingJob(t, RejectOf(o), job);
      DoAppend(s, t, [MarkOffer(o, Rejected)], [AddMatching(RejectOf(o), job)]);
      return Success;
    }

    /** The checks `verifyOtp`, `driverCancelRide` and `completeRide` share. */
    method CheckAssigned(user: UserId, t: TripId, status: Status) returns (reply: Reply)
      ensures reply == if user !in directory.byUser then DriverNotFound
                       else if t !in trips then TripMissing
                       else if trips[t].driver != Some(directory.byUser[user]) then NotAssigned
                       else if trips[t].status != status then WrongStatus
                       else Success
    {
      if user !in directory.byUser { return DriverNotFound; }
      if t !in trips { return TripMissing; }
      if trips[t].driver != Some(directory.byUser[user]) { return NotAssigned; }
      if trips[t].status != status { return WrongStatus; }
      return Success;
    }

    method VerifyOtpRequest(user: UserId, t: TripId, otp: string) returns (reply: Reply)
      modifies this`lifecycle
      ensures Snapshot() == DoAll(old(Snapshot()), t, CallOps(old(Snapshot()), t, Request.SubmitOtp(user, otp)))
      ensures reply == Success <==>
                && user in directory.byUser && t in trips
                && trips[t].driver == Some(directory.byUser[user]) && trips[t].status == Accepted
      ensures lifecycle == if reply != Success then old(lifecycle)
                           else old(lifecycle).Add((t, VerifyKey(now)), VerifyOtp(directory.byUser[user], otp))
    {
      SubmitOtpEffect(Snapshot(), t, user, otp);
      reply := CheckAssigned(user, t, Accepted);
      if reply.Success? {
        AddLifecycleJob(t, VerifyKey(now), VerifyOtp(directory.byUser[user], otp));
      }
    }

    method CheckActiveRide(user: UserId, t: TripId) returns (reply: Reply)
      ensures reply == Success <==>
                && t in trips && trips[t].status in {Requested, Accepted}
                && (user in riders ==> trips[t].rider == riders[user])
      ensures reply != Success ==> reply == NoActiveRide
    {
      if t !in trips || trips[t].status !in {Requested, Accepted} { return NoActiveRide; }
      if user in riders && trips[t].rider != riders[user] { return NoActiveRide; }
      return Success;
    }

    method CancelRide(user: UserId, t: TripId) returns (reply: Reply)
      modifies this`lifecycle
      ensures Snapshot() == DoAll(old(Snapshot()), t, CallOps(old(Snapshot()), t, Request.CancelRide(user)))
      ensures reply == Success <==>
                && t in trips && trips[t].status in {Requested, Accepted}
                && (user in riders ==> trips[t].rider == riders[user])
      ensures reply != Success ==> reply == NoActiveRide && lifecycle == old(lifecycle)
      ensures reply == Success ==> lifecycle == old(lifecycle).Add((t, CancelKey), Cancel(RiderCancelled))
    {
      CancelCallEffect(Snapshot(), t, user);
      reply := CheckActiveRide(user, t);
      if reply.Success? {
        AddLifecycleJob(t, CancelKey, Cancel(RiderCancelled));
      }
    }

    /** The call without a trip id, whose query orders the trips by creation, newest first: it cancels the first
        that may be cancelled. */
    method CancelLatestRide(user: UserId, newestFirst: seq<TripId>) returns (reply: Reply)
      modifies this`lifecycle
      ensures reply == Success ==>
                exists i :: 0 <= i < |newestFirst|
                  && MayCancel(trips, riders, user, newestFirst[i])
                  && (forall j :: 0 <= j < i ==> !MayCancel(trips, riders, user, newestFirst[j]))
                  && lifecycle == old(lifecycle).Add((newestFirst[i], CancelKey), Cancel(RiderCancelled))
                  && Snapshot() == DoAll(old(Snapshot()), newestFirst[i],
                                         CallOps(old(Snapshot()), newestFirst[i], Request.CancelRide(user)))
      ensures reply != Success ==>
                && reply == NoActiveRide && lifecycle == old(lifecycle)
                && forall t :: t in newestFirst ==> !MayCancel(trips, riders, user, t)
    {
      for i := 0 to |newestFirst|
        invariant lifecycle == old(lifecycle)
        invariant forall j :: 0 <= j < i ==> !MayCancel(trips, riders, user, newestFirst[j])
      {
        reply := CancelRide(user, newestFirst[i]);
        if reply.Success? { return; }
      }
      return NoActiveRide;
    }

    method DriverCancelRide(user: UserId, t: TripId) returns (reply: Reply)
      modifies this`lifecycle
      ensures Snapshot() == DoAll(old(Snapshot()), t, CallOps(old(Snapshot()), t, Request.DriverCancelRide(user)))
      ensures reply == Success <==>
                && user in directory.byUser && t in trips
                && trips[t].driver == Some(directory.byUser[user]) && trips[t].status == Accepted
      ensures lifecycle == if reply != Success then old(lifecycle)
                           else old(lifecycle).Add((t, DriverCancelKey), Cancel(DriverCancelled(directory.byUser[user])))
    {
      DriverCancelCallEffect(Snapshot(), t, user);
      reply := CheckAssigned(user, t, Accepted);
      if reply.Success? {
        AddLifecycleJob(t, DriverCancelKey, Cancel(DriverCancelled(directory.byUser[user])));
      }
    }

    method CompleteRide(user: UserId, t: TripId) returns (reply: Reply)
      modifies this`lifecycle
      ensures Snapshot() == DoAll(old(Snapshot()), t, CallOps(old(Snapshot()), t, Request.CompleteRide(user)))
      ensures reply == Success <==>
                && user in directory.byUser && t in trips
                && trips[t].driver == Some(directory.byUser[user]) && trips[t].status == Started
      ensures lifecycle == if reply != Success then old(lifecycle)
                           else old(lifecycle).Add((t, CompleteKey), Complete(directory.byUser[user]))
    {
      CompleteCallEffect(Snapshot(), t, user);
      reply := CheckAssigned(user, t, Started);
      if reply.Success? {
        AddLifecycleJob(t, CompleteKey, Complete(directory.byUser[user]));
      }
    }

    // ---- The gateway, cut at its awaits -----------------------------------------------------

    method SetCallState(t: TripId, c: CallId, call: Call)
      modifies this`calls
      ensures Snapshot() == DoAll(old(Snapshot()), t, [SetCall(c, call)])
      ensures calls == old(calls)[(t, c) := call]
    {
      DoThen(Snapshot(), t, [], SetCall(c, call));
      calls := calls[(t, c) := call];
    }

    method EndCallState(t: TripId, c: CallId)
      modifies this`calls
      ensures Snapshot() == DoAll(old(Snapshot()), t, [EndCall(c)])
      ensures calls == old(calls) - {(t, c)}
    {
      DoThen(Snapshot(), t, [], EndCall(c));
      calls := calls - {(t, c)};
    }

    /** `createRide` up to the queueing of the request. */
    method OpenTrip(user: UserId, t: TripId, c: CallId, meters: Meters)
      requires user in riders && t !in trips
      modifies this`trips, this`calls
      ensures Snapshot() == DoAll(old(Snapshot()), t, [SaveTrip(NewTrip(riders[user], meters)), SetCall(c, Creating)])
    {
      ghost var s := Snapshot();
      var row := NewTrip(riders[user], meters);
      SaveTripRow(t, row);
      SetCallState(t, c, Creating);
      DoAppend(s, t, [SaveTrip(row)], [SetCall(c, Creating)]);
      assert [SaveTrip(row)] + [SetCall(c, Creating)] == [SaveTrip(row), SetCall(c, Creating)];
    }

    /** The reads and guards of a call. */
    method AdmitCall(t: TripId, req: Request) returns (call: Option<Call>)
      ensures call == StoreAdmit(Snapshot(), t, req)
    {
      var reply;
      match req {
        case AcceptRide(u, o) =>
          reply := CheckOffer(u, o);
          if !reply.Success? || !offers[o].offer.status.Pending? { return None; }
          return Some(AcceptChecked(directory.byUser[u], o));
        case RejectRide(u, o) =>
          reply := CheckOffer(u, o);
          return if reply.Success? then Some(Rejecting(u, o)) else None;
        case SubmitOtp(u, otp) =>
          reply := CheckAssigned(u, t, Accepted);
          return if reply.Success? then Some(VerifyChecked(directory.byUser[u], otp)) else None;
        case CancelRide(u) =>
          reply := CheckActiveRide(u, t);
          return if reply.Success? then Some(RiderCancelChecked) else None;
        case DriverCancelRide(u) =>
          reply := CheckAssigned(u, t, Accepted);
          return if reply.Success? then Some(DriverCancelChecked(directory.byUser[u])) else None;
        case CompleteRide(u) =>
          reply := CheckAssigned(u, t, Started);
          return if reply.Success? then Some(CompleteChecked(directory.byUser[u])) else None;
      }
    }

    method BeginCall(t: TripId, c: CallId, req: Request)
      modifies this`offers, this`calls
      ensures Snapshot() == DoAll(old(Snapshot()), t, BeginOps(old(Snapshot()), t, c, req))
    {
      if (t, c) in calls { return; }
      var call := AdmitCall(t, req);
      if call.None? { return; }
      hide Do;
      ghost var s := Snapshot();
      if req.RejectRide? {
        MarkOfferRow(t, req.offer, Rejected);
        SetCallState(t, c, call.value);
        DoAppend(s, t, [MarkOffer(req.offer, Rejected)], [SetCall(c, call.value)]);
      } else {
        SetCallState(t, c, call.value);
        assert [] + [SetCall(c, call.value)] == [SetCall(c, call.value)];
      }
    }

    method LockCall(t: TripId, c: CallId)
      modifies this`locks, this`calls
      ensures Snapshot() == DoAll(old(Snapshot()), t, TryLockOps(old(Snapshot()), t, c))
      ensures (t, c) in old(calls) && old(calls)[(t, c)].AcceptChecked? ==>
                var d, o := old(calls)[(t, c)].driver, old(calls)[(t, c)].offer;
                if LockIsFree(old(Snapshot()), t)
                then locks == old(locks)[t := Present(d, now + 300_000)] && calls == old(calls)[(t, c) := AcceptLocked(d, o)]
                else locks == old(locks) && calls == old(calls) - {(t, c)}
    {
      if (t, c) !in calls || !calls[(t, c)].AcceptChecked? { return; }
      TryLockOpsAre(Snapshot(), t, c);
      hide Do;
      hide DoAll;
      hide TryLockOps;
      hide LockIsFree;
      ghost var s := Snapshot();
      var call := calls[(t, c)];
      var locked := LockRide(t, call.driver);
      if locked {
        SetCallState(t, c, AcceptLocked(call.driver, call.offer));
        DoAppend(s, t, [SetLock(call.driver, now + RIDE_LOCK_TTL_MS)], [SetCall(c, AcceptLocked(call.driver, call.offer))]);
      } else {
        EndCallState(t, c);
      }
    }

    /** The job a call ends with. */
    method QueueLast(t: TripId, call: Call)
      requires !call.AcceptChecked?
      modifies this`requests, this`matching, this`lifecycle
      ensures Snapshot() == DoAll(old(Snapshot()), t, [LastWrite(now, call)])
    {
      match call {
        case Creating => AddRequestJob(t);
        case AcceptLocked(d, o) => AddLifecycleJob(t, AcceptKey, Accept(d, o));
        case Rejecting(u, o) => AddMatchingJob(t, RejectOf(o), MatchJob(CascadeReject, Some(1), Some([u]), None));
        case VerifyChecked(d, otp) => AddLifecycleJob(t, VerifyKey(now), VerifyOtp(d, otp));
        case RiderCancelChecked => AddLifecycleJob(t, CancelKey, Cancel(RiderCancelled));
        case DriverCancelChecked(d) => AddLifecycleJob(t, DriverCancelKey, Cancel(DriverCancelled(d)));
        case CompleteChecked(d) => AddLifecycleJob(t, CompleteKey, Complete(d));
      }
    }

    method ConcludeCall(t: TripId, c: CallId)
      modifies this`requests, this`matching, this`lifecycle, this`calls
      ensures Snapshot() == DoAll(old(Snapshot()), t, ConcludeOps(old(Snapshot()), t, c))
      ensures (t, c) in old(calls) ==>
                ConcludedRightly(old(Snapshot()), Snapshot(), t, c, old(calls)[(t, c)])
    {
      if (t, c) in calls {
        ConcludeEffect(Snapshot(), t, c);
      }
      hide ConcludedRightly;
      hide DoAll;
      if (t, c) !in calls || calls[(t, c)].AcceptChecked? { return; }
      hide Do;
      hide LastWrite;
      ghost var s := Snapshot();
      var call := calls[(t, c)];
      QueueLast(t, call);
      EndCallState(t, c);
      DoAppend(s, t, [LastWrite(now, call)], [EndCall(c)]);
      assert [LastWrite(now, call)] + [EndCall(c)] == [LastWrite(now, call), EndCall(c)];
    }

    // ---- Request and matching workers -------------------------------------------------------

    method FinishRequestJob(t: TripId)
      modifies this`requests
      ensures Snapshot() == DoAll(old(Snapshot()), t, [FinishRequest])
    {
      DoThen(Snapshot(), t, [], FinishRequest);
      requests := requests.Finish((t, RideRequest));
    }

    method ProcessRideRequest(t: TripId)
      requires (t, RideRequest) in requests.jobs
      modifies this`requests, this`matching
      ensures Snapshot() == DoAll(old(Snapshot()), t, REQUEST_OPS)
      ensures requests == old(requests).Finish((t, RideRequest))
      ensures matching == old(matching).Add((t, First), MatchJob(MatchDriver, None, None, None))
    {
      RequestEffect(Snapshot(), t);
      hide Do;
      hide DoAll;
      ghost var s := Snapshot();
      FinishRequestJob(t);
      AddMatchingJob(t, First, FIRST_JOB);
      DoAppend(s, t, [FinishRequest], [AddMatching(First, FIRST_JOB)]);
      assert [FinishRequest] + [AddMatching(First, FIRST_JOB)] == REQUEST_OPS;
    }

    /** One `SISMEMBER` per id, then the filter over the answers: an id whose lookup failed counts as busy. */
    method FilterBusyDrivers(ids: seq<UserId>, failed: set<UserId>) returns (free: seq<UserId>)
      ensures free == WithoutBusy(ids, busy + failed)
    {
      free := [];
      ghost var out := busy + failed;
      for i := 0 to |ids|
        invariant free + WithoutBusy(ids[i..], out) == WithoutBusy(ids, out)
      {
        assert ids[i..][0] == ids[i] && ids[i..][1..] == ids[i+1..];
        ghost var rest := WithoutBusy(ids[i+1..], out);
        if ids[i] !in failed && ids[i] !in busy {
          assert WithoutBusy(ids[i..], out) == [ids[i]] + rest;
          assert free + ([ids[i]] + rest) == (free + [ids[i]]) + rest;
          free := free + [ids[i]];
        } else {
          assert WithoutBusy(ids[i..], out) == rest;
        }
      }
    }

    method CancelRideNoDrivers(t: TripId)
      modifies this`lifecycle
      ensures Snapshot() == DoAll(old(Snapshot()), t, [AddLifecycle(CancelKey, Cancel(NoDrivers))])
    {
      AddLifecycleJob(t, CancelKey, Cancel(NoDrivers));
    }

    method SaveOffer(t: TripId, o: OfferId, offer: Offer)
      modifies this`offers
      ensures Snapshot() == DoAll(old(Snapshot()), t, [InsertOffer(o, offer)])
    {
      DoThen(Snapshot(), t, [], InsertOffer(o, offer));
      offers := offers[o := OfferRow(t, offer)];
    }

    /** The offer's row, then the delayed job that will time it out. */
    method OfferRide(t: TripId, o: OfferId, offer: Offer, timeout: MatchJob)
      modifies this`offers, this`matching
      ensures Snapshot() == DoAll(old(Snapshot()), t, [InsertOffer(o, offer), AddMatching(TimeoutOf(o), timeout)])
    {
      hide Do;
      hide DoAll;
      ghost var s := Snapshot();
      SaveOffer(t, o, offer);
      AddMatchingJob(t, TimeoutOf(o), timeout);
      DoAppend(s, t, [InsertOffer(o, offer)], [AddMatching(TimeoutOf(o), timeout)]);
      assert [InsertOffer(o, offer)] + [AddMatching(TimeoutOf(o), timeout)]
          == [InsertOffer(o, offer), AddMatching(TimeoutOf(o), timeout)];
    }

    /** The search of a cascade run and its two filters. */
    method FindAvailable(radius: real, skipped: seq<UserId>, geo: Geo) returns (available: seq<UserId>)
      ensures available == Available(geo.ranked, geo, radius, busy, skipped)
    {
      var nearby := FindNearbyDrivers(geo.ranked, geo, radius);
      var free := FilterBusyDrivers(nearby, geo.failed);
      available := WithoutSkipped(free, skipped);
      FiltersFindEligible(geo.ranked, geo, radius, busy, skipped);
    }

    /** Asks the driver whose user is `target`, or queues the next run if there is no such driver. */
    method AskDriver(t: TripId, attempt: nat, skipped: seq<UserId>, target: UserId, newId: OfferId)
      modifies this`offers, this`matching
      ensures Snapshot() == DoAll(old(Snapshot()), t, AskOps(old(Snapshot()), attempt, skipped, target, newId))
    {
      hide Do;
      hide DoAll;
      if target !in directory.byUser {
        AddMatchingJob(t, Next(attempt + 1), MatchJob(CascadeSkip, Some(attempt + 1), Some(skipped + [target]), None));
        return;
      }
      var due := now + OFFER_TIMEOUT_MS;
      var timeout := MatchJob(OfferTimeout(newId), Some(attempt + 1), Some(skipped + [target]), Some(due));
      OfferRide(t, newId, Offer(directory.byUser[target], Pending, due), timeout);
    }

    method RunCascadeMatching(t: TripId, attempt: nat, skipped: seq<UserId>, geo: Geo, newId: OfferId)
      modifies this`offers, this`matching, this`lifecycle
      ensures Snapshot() == DoAll(old(Snapshot()), t, CascadeOps(old(Snapshot()), attempt, skipped, geo, newId))
      ensures forall o :: o in old(offers) && o != newId ==> o in offers && offers[o] == old(offers)[o]
      ensures geo.Valid() && newId !in old(offers) ==>
                CascadeIsRight(old(Snapshot()), Snapshot(), t, attempt, skipped, geo, newId)
    {
      hide Geo.Valid;
      hide CascadeIsRight;
      hide Do;
      hide DoAll;
      hide Available;
      hide AskOps;
      hide CascadeOps;
      CascadeOpsAre(Snapshot(), attempt, skipped, geo, newId);
      CascadeOutcome(Snapshot(), t, attempt, skipped, geo, newId);
      if attempt > MAX_CASCADE_ATTEMPTS {
        CancelRideNoDrivers(t);
        return;
      }
      var radius := if attempt == 1 then MATCHING_RADIUS_KM else MATCHING_EXPANDED_RADIUS_KM;
      var available := FindAvailable(radius, skipped, geo);
      if available != [] {
        AskDriver(t, attempt, skipped, available[0], newId);
        return;
      }
      if radius == MATCHING_RADIUS_KM {
        AddMatchingJob(t, Next(attempt + 1), MatchJob(CascadeExpanded, Some(attempt + 1), Some(skipped), None));
        return;
      }
      CancelRideNoDrivers(t);
    }

    method HandleOfferTimeout(t: TripId, o: OfferId, attempt: nat, skipped: seq<UserId>, geo: Geo, newId: OfferId)
      modifies this`offers, this`matching, this`lifecycle
      ensures Snapshot() == DoAll(old(Snapshot()), t, TimeoutOps(old(Snapshot()), o, attempt, skipped, geo, newId))
      ensures o in old(offers) && old(offers)[o].offer.status == Pending && newId != o ==>
                && o in offers && offers[o] == OfferRow(old(offers)[o].trip, old(offers)[o].offer.(status := Expired))
      ensures o in old(offers) && old(offers)[o].offer.status == Pending && geo.Valid() && newId !in old(offers) ==>
                CascadeIsRight(OfferExpired(old(Snapshot()), o), Snapshot(), t, attempt, skipped, geo, newId)
      ensures !(o in old(offers) && old(offers)[o].offer.status == Pending) ==> Snapshot() == old(Snapshot())
    {
      if o !in offers || !offers[o].offer.status.Pending? { return; }
      ghost var s := Snapshot();
      MarkOfferRow(t, o, Expired);
      CascadeIgnoresOffers(s, t, o, attempt, skipped, geo, newId);
      ExpireIsOneField(s, t, o);
      hide CascadeIsRight;
      hide Geo.Valid;
      hide Do;
      hide DoAll;
      hide CascadeOps;
      RunCascadeMatching(t, attempt, skipped, geo, newId);
      DoAppend(s, t, [MarkOffer(o, Expired)], CascadeOps(s, attempt, skipped, geo, newId));
    }

    /** Takes a job off the queue; its id stays known. */
    method TakeMatchingJob(t: TripId, k: MatchKey) returns (job: MatchJob)
      requires (t, k) in matching.jobs
      modifies this`matching
      ensures job == old(matching).jobs[(t, k)]
      ensures Snapshot() == DoAll(old(Snapshot()), t, [FinishMatching(k)])
    {
      DoThen(Snapshot(), t, [], FinishMatching(k));
      job := matching.jobs[(t, k)];
      matching := matching.Finish((t, k));
    }

    method HandleMatchingJob(t: TripId, job: MatchJob, geo: Geo, newId: OfferId)
      modifies this`offers, this`matching, this`lifecycle
      ensures Snapshot() == DoAll(old(Snapshot()), t, MatchingJobOps(old(Snapshot()), job, geo, newId))
      ensures geo.Valid() && newId !in old(offers) ==>
                MatchJobIsRight(old(Snapshot()), Snapshot(), t, job, geo, newId)
    {
      hide CascadeIsRight;
      hide Geo.Valid;
      hide DoAll;
      hide CascadeOps;
      hide TimeoutOps;
      if job.name.OfferTimeout? {
        HandleOfferTimeout(t, job.name.offer, job.attempt.GetOr(1), job.skipped.GetOr([]), geo, newId);
      } else {
        RunCascadeMatching(t, job.attempt.GetOr(1), job.skipped.GetOr([]), geo, newId);
      }
    }

    method ProcessRideMatching(t: TripId, k: MatchKey, geo: Geo, newId: OfferId)
      requires (t, k) in matching.jobs
      modifies this`offers, this`matching, this`lifecycle
      ensures Snapshot() == DoAll(old(Snapshot()), t, MatchingOps(old(Snapshot()), t, k, geo, newId))
      ensures geo.Valid() && newId !in old(offers) ==>
                MatchJobIsRight(old(Snapshot()).(matching := Queue(old(matching).jobs - {(t, k)}, old(matching).seen)),
                                Snapshot(), t, old(matching).jobs[(t, k)], geo, newId)
    {
      hide MatchJobIsRight;
      hide Geo.Valid;
      hide Do;
      hide DoAll;
      hide MatchingJobOps;
      ghost var s := Snapshot();
      TakeIsOneField(s, t, k);
      var job := TakeMatchingJob(t, k);
      MatchingIgnoresFinish(s, t, k, job, geo, newId);
      HandleMatchingJob(t, job, geo, newId);
      DoAppend(s, t, [FinishMatching(k)], MatchingJobOps(s, job, geo, newId));
    }

    // ---- Lifecycle worker -------------------------------------------------------------------

    /** `queue.getDelayed()`, in some order. */
    method GetDelayed() returns (ids: seq<JobId<MatchKey>>)
      ensures forall id :: id in ids <==> id in matching.jobs && matching.jobs[id].delayedUntil.Some?
    {
      ids := [];
      var rest := matching.jobs.Keys;
      while rest != {}
        invariant rest <= matching.jobs.Keys
        invariant forall id :: id in ids <==> id in matching.jobs && id !in rest && matching.jobs[id].delayedUntil.Some?
        decreases rest
      {
        var id :| id in rest;
        if matching.jobs[id].delayedUntil.Some? {
          ids := ids + [id];
        }
        rest := rest - {id};
      }
    }

    /** The loop of `handleAccept`: it removes exactly this trip's delayed offer timeouts. */
    method RemoveTimeoutJobs(t: TripId)
      modifies this`matching
      ensures Snapshot() == Do(old(Snapshot()), t, RemoveTimeouts)
    {
      var delayed := GetDelayed();
      ghost var removed: set<JobId<MatchKey>> := {};
      for i := 0 to |delayed|
        invariant matching == old(matching).Remove(removed)
        invariant removed == set id | id in delayed[..i] && id in TimeoutIds(old(matching), t)
      {
        var id := delayed[i];
        assert delayed[..i+1] == delayed[..i] + [id];
        if id in matching.jobs && id.0 == t && matching.jobs[id].name.OfferTimeout? {
          matching := matching.Remove({id});
          removed := removed + {id};
          assert matching == old(matching).Remove(removed);
        }
      }
      assert delayed[..|delayed|] == delayed;
      assert removed == TimeoutIds(old(matching), t);
    }

    method ExpirePendingOffers(t: TripId, except: Option<OfferId>)
      modifies this`offers
      ensures Snapshot() == Do(old(Snapshot()), t, ExpireOffers(except))
    {
      offers := ExpireRows(offers, t, except);
    }

    /** Steps 2 to 4 of `handleAccept`: the offers and the timeouts. */
    method CloseMatching(t: TripId, o: OfferId)
      requires o in offers
      modifies this`offers, this`matching
      ensures Snapshot() == DoAll(old(Snapshot()), t, [MarkOffer(o, OfferAccepted), ExpireOffers(Some(o)), RemoveTimeouts])
    {
      ghost var s := Snapshot();
      MarkOfferRow(t, o, OfferAccepted);
      ExpirePendingOffers(t, Some(o));
      DoThen(s, t, [MarkOffer(o, OfferAccepted)], ExpireOffers(Some(o)));
      assert [MarkOffer(o, OfferAccepted)] + [ExpireOffers(Some(o))] == [MarkOffer(o, OfferAccepted), ExpireOffers(Some(o))];
      RemoveTimeoutJobs(t);
      DoThen(s, t, [MarkOffer(o, OfferAccepted), ExpireOffers(Some(o))], RemoveTimeouts);
      assert [MarkOffer(o, OfferAccepted), ExpireOffers(Some(o))] + [RemoveTimeouts]
          == [MarkOffer(o, OfferAccepted), ExpireOffers(Some(o)), RemoveTimeouts];
    }

    /** `SADD` when the driver has a user. */
    method MarkBusy(t: TripId, driver: DriverId)
      modifies this`busy
      ensures Snapshot() == DoAll(old(Snapshot()), t, MarkBusyOps(old(Snapshot()), driver))
    {
      ghost var s := Snapshot();
      if driver in directory.byId {
        DoThen(s, t, [], AddBusy(directory.byId[driver]));
        busy := busy + {directory.byId[driver]};
        assert Snapshot() == Do(s, t, AddBusy(directory.byId[driver]));
      }
    }

    /** The OTP goes to Redis first, then into the trip's row. */
    method IssueOtp(t: TripId, otp: string)
      requires t in trips
      modifies this`trips, this`otps
      ensures Snapshot() == DoAll(old(Snapshot()), t, [SetOtp(otp, now + OTP_TTL_MS),
                                                             SaveTrip(old(trips)[t].(otp := Some(otp)))])
    {
      ghost var s := Snapshot();
      DoThen(s, t, [], SetOtp(otp, now + OTP_TTL_MS));
      otps := otps[t := Present(otp, now + OTP_TTL_MS)];
      SaveTripRow(t, trips[t].(otp := Some(otp)));
      DoAppend(s, t, [SetOtp(otp, now + OTP_TTL_MS)], [SaveTrip(s.trips[t].(otp := Some(otp)))]);
      assert [SetOtp(otp, now + OTP_TTL_MS)] + [SaveTrip(s.trips[t].(otp := Some(otp)))]
          == [SetOtp(otp, now + OTP_TTL_MS), SaveTrip(s.trips[t].(otp := Some(otp)))];
    }

    /** Steps 5 to 9 of `handleAccept`: driver, busy set and OTP. */
    method AssignDriver(t: TripId, driver: DriverId, otp: string)
      requires t in trips
      modifies this`trips, this`busy, this`otps
      ensures Snapshot() == DoAll(old(Snapshot()), t, AssignOps(old(Snapshot()), t, driver, otp))
    {
      ghost var s := Snapshot();
      var row := trips[t].(driver := Some(driver), status := Accepted);
      SaveTripRow(t, row);
      MarkBusy(t, driver);
      DoAppend(s, t, [SaveTrip(row)], MarkBusyOps(s, driver));
      IssueOtp(t, otp);
      DoAppend(s, t, [SaveTrip(row)] + MarkBusyOps(s, driver),
               [SetOtp(otp, now + OTP_TTL_MS), SaveTrip(row.(otp := Some(otp)))]);
    }

    method HandleAccept(t: TripId, driver: DriverId, o: OfferId, otp: string) returns (outcome: Outcome)
      modifies this`offers, this`matching, this`trips, this`busy, this`otps
      ensures Snapshot() == DoAll(old(Snapshot()), t, AcceptOps(old(Snapshot()), t, driver, o, otp))
      ensures outcome == AcceptOutcome(old(Snapshot()), t, o)
      ensures outcome.Done? <==> t in old(trips) && old(trips)[t].status == Requested && o in old(offers)
      ensures outcome.Done? ==>
                && trips == old(trips)[t := old(trips)[t].(driver := Some(driver), status := Accepted, otp := Some(otp))]
                && otps == old(otps)[t := Present(otp, now + 900_000)]
                && busy == old(busy) + (if driver in directory.byId then {directory.byId[driver]} else {})
                && ClosedFor(old(offers), offers, t, o) && TimeoutsRemoved(old(matching), matching, t)
      ensures !outcome.Done? ==> Snapshot() == old(Snapshot())
    {
      AcceptEffect(Snapshot(), t, driver, o, otp);
      hide Do;
      hide DoAll;
      hide ClosedFor;
      hide TimeoutsRemoved;
      if t !in trips { return Threw(TripNotFound); }
      if !IsValidTransition(trips[t].status, Accepted) { return Threw(InvalidTransition(trips[t].status, Accepted)); }
      if o !in offers { return Threw(OfferNotFound); }
      ghost var s := Snapshot();
      CloseMatching(t, o);
      AssignDriver(t, driver, otp);
      DoAppend(s, t, [MarkOffer(o, OfferAccepted), ExpireOffers(Some(o)), RemoveTimeouts], AssignOps(s, t, driver, otp));
      return Done;
    }

    /** Lets the trip's driver go, as `handleCancel` and `handleComplete` do. */
    method ReleaseDriver(t: TripId, driver: Option<DriverId>)
      requires t in trips && trips[t].driver == driver
      modifies this`busy
      ensures Snapshot() == DoAll(old(Snapshot()), t, ReleaseOps(old(Snapshot()), t))
    {
      if driver.Some? && driver.value in directory.byId {
        DoThen(Snapshot(), t, [], RemoveBusy(directory.byId[driver.value]));
        busy := busy - {directory.byId[driver.value]};
      }
    }

    method DeleteOtpKeys(t: TripId)
      modifies this`otps, this`attempts
      ensures Snapshot() == DoAll(old(Snapshot()), t, [DeleteOtp, DeleteAttempts])
    {
      ghost var s := Snapshot();
      otps := otps - {t};
      DoThen(s, t, [], DeleteOtp);
      attempts := attempts - {t};
      DoThen(s, t, [DeleteOtp], DeleteAttempts);
      assert [DeleteOtp] + [DeleteAttempts] == [DeleteOtp, DeleteAttempts];
    }

    /** `DEL` of the ride's lock */
    method UnlockRide(t: TripId)
      modifies this`locks
      ensures Snapshot() == DoAll(old(Snapshot()), t, [DeleteLock])
    {
      DoThen(Snapshot(), t, [], DeleteLock);
      locks := locks - {t};
    }

    method DeleteKeys(t: TripId)
      modifies this`locks, this`otps, this`attempts
      ensures Snapshot() == DoAll(old(Snapshot()), t, [DeleteLock, DeleteOtp, DeleteAttempts])
    {
      ghost var s := Snapshot();
      UnlockRide(t);
      DeleteOtpKeys(t);
      DoAppend(s, t, [DeleteLock], [DeleteOtp, DeleteAttempts]);
      assert [DeleteLock] + [DeleteOtp, DeleteAttempts] == [DeleteLock, DeleteOtp, DeleteAttempts];
    }

    method CleanUpCancelled(t: TripId)
      modifies this`locks, this`otps, this`attempts, this`offers
      ensures Snapshot() == DoAll(old(Snapshot()), t, [DeleteOtp, DeleteAttempts, DeleteLock, ExpireOffers(None)])
    {
      ghost var s := Snapshot();
      DeleteOtpKeys(t);
      UnlockRide(t);
      DoAppend(s, t, [DeleteOtp, DeleteAttempts], [DeleteLock]);
      ExpirePendingOffers(t, None);
      DoThen(s, t, [DeleteOtp, DeleteAttempts] + [DeleteLock], ExpireOffers(None));
      assert [DeleteOtp, DeleteAttempts] + [DeleteLock] + [ExpireOffers(None)]
          == [DeleteOtp, DeleteAttempts, DeleteLock, ExpireOffers(None)];
    }

    method HandleCancel(t: TripId) returns (outcome: Outcome)
      modifies this`trips, this`busy, this`locks, this`otps, this`attempts, this`offers
      ensures Snapshot() == DoAll(old(Snapshot()), t, CancelOps(old(Snapshot()), t))
      ensures outcome == TransitionOutcome(old(Snapshot()), t, Cancelled)
      ensures outcome.Done? <==> t in old(trips) && old(trips)[t].status in {Requested, Accepted}
      ensures outcome.Done? ==>
                && trips == old(trips)[t := old(trips)[t].(status := Cancelled)]
                && busy == old(busy) - DriversUser(old(Snapshot()), old(trips)[t].driver)
                && locks == old(locks) - {t} && otps == old(otps) - {t} && attempts == old(attempts) - {t}
                && PendingExpired(old(offers), offers, t)
      ensures !outcome.Done? ==> Snapshot() == old(Snapshot())
    {
      CancelEffect(Snapshot(), t);
      if t !in trips { return Threw(TripNotFound); }
      var trip := trips[t];
      if !IsValidTransition(trip.status, Cancelled) { return Threw(InvalidTransition(trip.status, Cancelled)); }
      ghost var s := Snapshot();
      var row := trip.(status := Cancelled);
      SaveTripRow(t, row);
      ReleaseDriver(t, trip.driver);
      DoAppend(s, t, [SaveTrip(row)], ReleaseOps(s, t));
      CleanUpCancelled(t);
      DoAppend(s, t, [SaveTrip(row)] + ReleaseOps(s, t), [DeleteOtp, DeleteAttempts, DeleteLock, ExpireOffers(None)]);
      return Done;
    }

    method StartTrip(t: TripId)
      requires t in trips
      modifies this`trips, this`otps, this`attempts
      ensures Snapshot() == DoAll(old(Snapshot()), t,
                                  [SaveTrip(old(trips)[t].(status := Started)), DeleteOtp, DeleteAttempts])
    {
      ghost var s := Snapshot();
      var row := trips[t].(status := Started);
      SaveTripRow(t, row);
      DeleteOtpKeys(t);
      DoAppend(s, t, [SaveTrip(row)], [DeleteOtp, DeleteAttempts]);
      assert [SaveTrip(row)] + [DeleteOtp, DeleteAttempts] == [SaveTrip(row), DeleteOtp, DeleteAttempts];
    }

    method CountAttempt(t: TripId) returns (n: nat)
      modifies this`attempts
      ensures n == ReadKey(old(attempts), t).Get(now).GetOr(0) + 1
      ensures Snapshot() == DoAll(old(Snapshot()), t, [SetAttempts(n, now + OTP_TTL_MS)])
    {
      n := ReadKey(attempts, t).Get(now).GetOr(0) + 1;
      DoThen(Snapshot(), t, [], SetAttempts(n, now + OTP_TTL_MS));
      attempts := attempts[t := Present(n, now + OTP_TTL_MS)];
    }

    /** What follows the comparison with the stored OTP, at attempt `n`. */
    method JudgeGuess(t: TripId, right: bool, n: nat) returns (outcome: Outcome)
      modifies this`trips, this`busy, this`locks, this`otps, this`attempts, this`offers
      ensures Snapshot() == DoAll(old(Snapshot()), t, GuessOps(old(Snapshot()), t, right, n))
      ensures outcome == GuessOutcome(old(Snapshot()), t, right, n)
    {
      if right {
        if t !in trips { return Threw(TripNotFound); }
        if !IsValidTransition(trips[t].status, Started) { return Threw(InvalidTransition(trips[t].status, Started)); }
        StartTrip(t);
        return Done;
      }
      if MAX_OTP_ATTEMPTS - n <= 0 {
        outcome := HandleCancel(t);
        return;
      }
      return Done;
    }

    method JudgeNextAttempt(t: TripId, right: bool) returns (outcome: Outcome)
      modifies this`trips, this`busy, this`locks, this`otps, this`attempts, this`offers
      ensures var n := ReadKey(old(attempts), t).Get(now).GetOr(0) + 1;
              && Snapshot() == DoAll(old(Snapshot()), t,
                                     [SetAttempts(n, now + OTP_TTL_MS)] + GuessOps(old(Snapshot()), t, right, n))
              && outcome == GuessOutcome(old(Snapshot()), t, right, n)
    {
      hide Do;
      hide DoAll;
      hide GuessOps;
      hide GuessOutcome;
      ghost var s := Snapshot();
      var n := CountAttempt(t);
      GuessIgnoresCount(s, t, n, now + OTP_TTL_MS, right);
      outcome := JudgeGuess(t, right, n);
      DoAppend(s, t, [SetAttempts(n, now + OTP_TTL_MS)], GuessOps(s, t, right, n));
    }

    method HandleVerifyOtp(t: TripId, guess: string) returns (outcome: Outcome)
      modifies this`trips, this`busy, this`locks, this`otps, this`attempts, this`offers
      ensures Snapshot() == DoAll(old(Snapshot()), t, VerifyOtpOps(old(Snapshot()), t, guess))
      ensures outcome == VerifyOutcome(old(Snapshot()), t, guess)
      ensures !OtpIsLive(old(Snapshot()), t) ==> outcome == Threw(OtpNotFound) && Snapshot() == old(Snapshot())
      ensures OtpIsLive(old(Snapshot()), t) && guess == old(otps)[t].value && t in old(trips)
              && old(trips)[t].status == Accepted ==>
                && outcome == Done && trips == old(trips)[t := old(trips)[t].(status := Started)]
                && otps == old(otps) - {t} && attempts == old(attempts) - {t}
                && busy == old(busy) && locks == old(locks) && offers == old(offers)
      ensures OtpIsLive(old(Snapshot()), t) && guess != old(otps)[t].value && GuessNumber(old(Snapshot()), t) < 3 ==>
                && outcome == Done && trips == old(trips) && otps == old(otps)
                && attempts == old(attempts)[t := Present(GuessNumber(old(Snapshot()), t), now + 900_000)]
                && busy == old(busy) && locks == old(locks) && offers == old(offers)
      ensures OtpIsLive(old(Snapshot()), t) && guess != old(otps)[t].value && GuessNumber(old(Snapshot()), t) >= 3
              && t in old(trips) && old(trips)[t].status in {Requested, Accepted} ==>
                && outcome == Done && trips == old(trips)[t := old(trips)[t].(status := Cancelled)]
                && busy == old(busy) - DriversUser(old(Snapshot()), old(trips)[t].driver)
                && locks == old(locks) - {t} && otps == old(otps) - {t} && attempts == old(attempts) - {t}
                && PendingExpired(old(offers), offers, t)
    {
      VerifyEffects(Snapshot(), t, guess);
      ghost var s := Snapshot();
      VerifyOtpIs(s, t, guess);
      hide VerifyOtpOps;
      hide VerifyOutcome;
      hide GuessOps;
      hide GuessOutcome;
      hide Do;
      var stored := ReadKey(otps, t).Get(now);
      if stored.None? { return Threw(OtpNotFound); }
      outcome := JudgeNextAttempt(t, guess == stored.value);
    }

    /** The row of a completed trip, unless it was completed before. */
    method SaveCompletion(t: TripId)
      requires t in trips
      modifies this`trips
      ensures Snapshot() == DoAll(old(Snapshot()), t, if old(trips)[t].status == Completed then []
                                                      else [SaveTrip(CompletedTrip(old(trips)[t], now))])
      ensures trips.Keys == old(trips).Keys && trips[t].driver == old(trips)[t].driver
    {
      var trip := trips[t];
      if trip.status == Completed { return; }
      var completedAt := trip.completedAt.GetOr(now);
      SaveTripRow(t, trip.(status := Completed, fare := Some(FareOf(trip.meters)), distance := Some(StoredKm(trip.meters)),
                           completedAt := Some(completedAt)));
    }

    method HandleComplete(t: TripId) returns (outcome: Outcome)
      modifies this`trips, this`busy, this`locks, this`otps, this`attempts
      ensures Snapshot() == DoAll(old(Snapshot()), t, CompleteOps(old(Snapshot()), t))
      ensures outcome == CompleteOutcome(old(Snapshot()), t)
      ensures outcome.Done? <==> t in old(trips) && old(trips)[t].status in {Started, Completed}
      ensures outcome.Done? ==>
                && trips.Keys == old(trips).Keys && (forall t' :: t' in trips && t' != t ==> trips[t'] == old(trips)[t'])
                && (if old(trips)[t].status == Completed then trips[t] == old(trips)[t]
                    else IsCompletion(old(trips)[t], trips[t], now))
                && busy == old(busy) - DriversUser(old(Snapshot()), old(trips)[t].driver)
                && locks == old(locks) - {t} && otps == old(otps) - {t} && attempts == old(attempts) - {t}
      ensures !outcome.Done? ==> Snapshot() == old(Snapshot())
    {
      CompleteEffect(Snapshot(), t);
      hide Do;
      hide DoAll;
      hide IsCompletion;
      hide CompletedTrip;
      if t !in trips { return Threw(TripNotFound); }
      var trip := trips[t];
      if trip.status != Completed && !IsValidTransition(trip.status, Completed) {
        return Threw(InvalidTransition(trip.status, Completed));
      }
      ghost var s := Snapshot();
      SaveCompletion(t);
      ghost var save := if trip.status == Completed then [] else [SaveTrip(CompletedTrip(trip, now))];
      ReleaseDriver(t, trip.driver);
      DeleteKeys(t);
      DoParts(s, t, save, ReleaseOps(s, t), [DeleteLock, DeleteOtp, DeleteAttempts]);
      return Done;
    }

    method TakeLifecycleJob(t: TripId, k: LifeKey) returns (job: LifeJob)
      requires (t, k) in lifecycle.jobs
      modifies this`lifecycle
      ensures job == old(lifecycle).jobs[(t, k)]
      ensures Snapshot() == DoAll(old(Snapshot()), t, [FinishLifecycle(k)])
    {
      DoThen(Snapshot(), t, [], FinishLifecycle(k));
      job := lifecycle.jobs[(t, k)];
      lifecycle := lifecycle.Finish((t, k));
    }

    method DispatchLifecycle(t: TripId, job: LifeJob, otp: string) returns (outcome: Outcome)
      modifies this`offers, this`matching, this`trips, this`busy, this`locks, this`otps, this`attempts
      ensures Snapshot() == DoAll(old(Snapshot()), t, HandlerOps(old(Snapshot()), t, job, otp))
      ensures outcome == HandlerOutcome(old(Snapshot()), t, job)
    {
      match job {
        case Accept(driver, offer) => outcome := HandleAccept(t, driver, offer, otp);
        case VerifyOtp(_, guess) => outcome := HandleVerifyOtp(t, guess);
        case Cancel(_) => outcome := HandleCancel(t);
        case Complete(_) => outcome := HandleComplete(t);
      }
    }

    method ProcessRideLifecycle(t: TripId, k: LifeKey, otp: string) returns (outcome: Outcome)
      requires (t, k) in lifecycle.jobs
      modifies this`lifecycle, this`offers, this`matching, this`trips, this`busy, this`locks, this`otps, this`attempts
      ensures Snapshot() == DoAll(old(Snapshot()), t, LifecycleOps(old(Snapshot()), t, k, otp))
      ensures outcome == HandlerOutcome(old(Snapshot()), t, old(lifecycle).jobs[(t, k)])
    {
      ghost var s := Snapshot();
      var job := TakeLifecycleJob(t, k);
      LifecycleIgnoresFinish(s, t, k, job, otp);
      outcome := DispatchLifecycle(t, job, otp);
      DoAppend(s, t, [FinishLifecycle(k)], HandlerOps(s, t, job, otp));
    }

    // ---- Everything together ----------------------------------------------------------------

    method ServeCall(t: TripId, req: Request)
      modifies this
      ensures Snapshot() == DoAll(old(Snapshot()), t, CallOps(old(Snapshot()), t, req))
    {
      var reply;
      match req {
        case AcceptRide(u, o) => reply := AcceptRide(u, t, o);
        case RejectRide(u, o) => reply := RejectRide(u, t, o);
        case SubmitOtp(u, otp) => reply := VerifyOtpRequest(u, t, otp);
        case CancelRide(u) => reply := CancelRide(u, t);
        case DriverCancelRide(u) => reply := DriverCancelRide(u, t);
        case CompleteRide(u) => reply := CompleteRide(u, t);
      }
    }

    /** One unit of work, by the process that does it: with StoreRuns, any sequence of these is a run of
        the world of rides. */
    method Serve(work: Work)
      requires Enabled(Snapshot(), work)
      modifies this
      ensures Snapshot() == Perform(old(Snapshot()), work)
    {
      match work {
        case Wait(ms) => now := now + ms;
        case AddDriver(u, d) => directory := Directory(directory.byUser[u := d], directory.byId[d := u]);
        case AddRider(u, rider) => riders := riders[u := rider];
        case NewTripCall(u, t, meters) => var reply := CreateRide(u, t, meters);
        case Call(t, _, req) => ServeCall(t, req);
        case TripOpens(u, t, c, meters) => OpenTrip(u, t, c, meters);
        case CallBegins(t, c, req) => BeginCall(t, c, req);
        case CallLocks(t, c) => LockCall(t, c);
        case CallEnds(t, c) => ConcludeCall(t, c);
        case RequestWork(t) => ProcessRideRequest(t);
        case MatchWork(t, k, geo, newId) => ProcessRideMatching(t, k, geo, newId);
        case LifeWork(t, k, otp) => var outcome := ProcessRideLifecycle(t, k, otp);
        case Due(t, k) => matching := PromoteIn(matching, (t, k));
      }
    }
  }
}
