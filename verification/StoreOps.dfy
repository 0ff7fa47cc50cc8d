/** What each call and handler writes: the list of database, Redis and queue operations, in the source's
    order, decided by what it reads from the shared stores when it starts. */
module StoreOps {
  import opened Base
  import opened Constants
  import opened StateMachine
  import opened Rides
  import opened Gateway
  import opened Cascade
  import opened Lifecycle
  import opened Storage

  /** One operation of a call or handler about one trip. */
  datatype Op =
    | SaveTrip(row: Trip)
    | MarkOffer(offer: OfferId, status: OfferStatus)
    | ExpireOffers(except: Option<OfferId>)        // updateMany of the trip's other PENDING offers
    | InsertOffer(id: OfferId, content: Offer)
    | SetLock(holder: DriverId, expiry: nat)
    | SetOtp(otp: string, expiry: nat)
    | SetAttempts(n: nat, expiry: nat)
    | DeleteLock
    | DeleteOtp
    | DeleteAttempts
    | AddBusy(user: UserId)
    | RemoveBusy(user: UserId)
    | AddRequest
    | AddMatching(matchKey: MatchKey, matchJob: MatchJob)
    | AddLifecycle(lifeKey: LifeKey, lifeJob: LifeJob)
    | FinishRequest
    | FinishMatching(doneMatch: MatchKey)
    | FinishLifecycle(doneLife: LifeKey)
    | SetCall(call: CallId, state: Call)
    | EndCall(ended: CallId)
    | RemoveTimeouts                               // the loop over the delayed jobs

  /** The delayed offer timeouts of trip `t` in the shared queue. */
  function TimeoutIds(q: Queue<JobId<MatchKey>, MatchJob>, t: TripId): set<JobId<MatchKey>> {
    set id | id in q.jobs && id.0 == t && q.jobs[id].name.OfferTimeout? && q.jobs[id].delayedUntil.Some?
  }

  function MarkRow(offers: map<OfferId, OfferRow>, o: OfferId, status: OfferStatus): map<OfferId, OfferRow>
    requires o in offers
  {
    offers[o := OfferRow(offers[o].trip, offers[o].offer.(status := status))]
  }

  function ExpireRows(offers: map<OfferId, OfferRow>, t: TripId, except: Option<OfferId>): map<OfferId, OfferRow> {
    map o | o in offers ::
      if offers[o].trip == t && Some(o) != except && offers[o].offer.status.Pending?
      then OfferRow(t, offers[o].offer.(status := Expired)) else offers[o]
  }

  function Do(s: Store, t: TripId, op: Op): Store {
    match op
    case SaveTrip(row) => s.(trips := s.trips[t := row])
    case MarkOffer(o, status) => if o in s.offers then s.(offers := MarkRow(s.offers, o, status)) else s
    case ExpireOffers(except) => s.(offers := ExpireRows(s.offers, t, except))
    case InsertOffer(o, row) => s.(offers := s.offers[o := OfferRow(t, row)])
    case SetLock(d, e) => s.(locks := s.locks[t := Present(d, e)])
    case SetOtp(otp, e) => s.(otps := s.otps[t := Present(otp, e)])
    case SetAttempts(n, e) => s.(attempts := s.attempts[t := Present(n, e)])
    case DeleteLock => s.(locks := s.locks - {t})
    case DeleteOtp => s.(otps := s.otps - {t})
    case DeleteAttempts => s.(attempts := s.attempts - {t})
    case AddBusy(u) => s.(env := s.env.(busy := s.env.busy + {u}))
    case RemoveBusy(u) => s.(env := s.env.(busy := s.env.busy - {u}))
    case AddRequest => s.(requests := s.requests.Add((t, RideRequest), NewRide))
    case AddMatching(k, job) => s.(matching := s.matching.Add((t, k), job))
    case AddLifecycle(k, job) => s.(lifecycle := s.lifecycle.Add((t, k), job))
    case FinishRequest => s.(requests := s.requests.Finish((t, RideRequest)))
    case FinishMatching(k) => s.(matching := s.matching.Finish((t, k)))
    case FinishLifecycle(k) => s.(lifecycle := s.lifecycle.Finish((t, k)))
    case SetCall(c, call) => s.(calls := s.calls[(t, c) := call])
    case EndCall(c) => s.(calls := s.calls - {(t, c)})
    case RemoveTimeouts => s.(matching := s.matching.Remove(TimeoutIds(s.matching, t)))
  }

  function DoAll(s: Store, t: TripId, ops: seq<Op>): Store {
    if ops == [] then s else Do(DoAll(s, t, ops[..|ops|-1]), t, ops[|ops|-1])
  }

  lemma DoThen(s: Store, t: TripId, ops: seq<Op>, op: Op)
    ensures DoAll(s, t, ops + [op]) == Do(DoAll(s, t, ops), t, op)
  {
    assert (ops + [op])[..|ops|] == ops;
  }

  lemma {:induction false} DoAppend(s: Store, t: TripId, a: seq<Op>, b: seq<Op>)
    ensures DoAll(s, t, a + b) == DoAll(DoAll(s, t, a), t, b)
    decreases |b|
  {
    if b == [] {
      assert a + b == a;
    } else {
      DoAppend(s, t, a, b[..|b|-1]);
      assert (a + b)[..|a + b|-1] == a + b[..|b|-1];
    }
  }

  lemma DoOne(s: Store, t: TripId, x: Op)
    ensures DoAll(s, t, [x]) == Do(s, t, x)
  {
    DoThen(s, t, [], x);
    assert [] + [x] == [x];
  }

  lemma DoTwo(s: Store, t: TripId, x: Op, y: Op)
    ensures DoAll(s, t, [x, y]) == Do(Do(s, t, x), t, y)
  {
    DoOne(s, t, x);
    DoThen(s, t, [x], y);
    assert [x] + [y] == [x, y];
  }

  lemma DoThree(s: Store, t: TripId, x: Op, y: Op, z: Op)
    ensures DoAll(s, t, [x, y, z]) == Do(Do(Do(s, t, x), t, y), t, z)
  {
    DoTwo(s, t, x, y);
    DoThen(s, t, [x, y], z);
    assert [x, y] + [z] == [x, y, z];
  }

  lemma DoParts(s: Store, t: TripId, a: seq<Op>, b: seq<Op>, c: seq<Op>)
    ensures DoAll(s, t, a + b + c) == DoAll(DoAll(DoAll(s, t, a), t, b), t, c)
  {
    DoAppend(s, t, a, b);
    DoAppend(s, t, a + b, c);
  }

  // ---- The gateway ------------------------------------------------------------------------

  predicate StoreOwnsOffer(s: Store, user: UserId, o: OfferId) {
    && user in s.env.directory.byUser
    && o in s.offers
    && s.offers[o].offer.driver == s.env.directory.byUser[user]
  }

  predicate StoreDrives(s: Store, t: TripId, user: UserId, status: Status) {
    && user in s.env.directory.byUser
    && t in s.trips
    && s.trips[t].driver == Some(s.env.directory.byUser[user])
    && s.trips[t].status == status
  }

  /** The guards of each call; None is an error reply. */
  function StoreAdmit(s: Store, t: TripId, req: Request): Option<Call> {
    match req
    case AcceptRide(u, o) =>
      if StoreOwnsOffer(s, u, o) && s.offers[o].offer.status.Pending?
      then Some(AcceptChecked(s.env.directory.byUser[u], o)) else None
    case RejectRide(u, o) => if StoreOwnsOffer(s, u, o) then Some(Rejecting(u, o)) else None
    case SubmitOtp(u, otp) =>
      if StoreDrives(s, t, u, Accepted) then Some(VerifyChecked(s.env.directory.byUser[u], otp)) else None
    case CancelRide(u) =>
      if t in s.trips && (u in s.env.riders ==> s.trips[t].rider == s.env.riders[u])
         && s.trips[t].status in {Requested, Accepted}
      then Some(RiderCancelChecked) else None
    case DriverCancelRide(u) =>
      if StoreDrives(s, t, u, Accepted) then Some(DriverCancelChecked(s.env.directory.byUser[u])) else None
    case CompleteRide(u) =>
      if StoreDrives(s, t, u, Started) then Some(CompleteChecked(s.env.directory.byUser[u])) else None
  }

  /** The job a call ends with. */
  function LastWrite(now: nat, call: Call): Op
    requires !call.AcceptChecked?
  {
    match call
    case Creating => AddRequest
    case AcceptLocked(d, o) => AddLifecycle(AcceptKey, Accept(d, o))
    case Rejecting(u, o) => AddMatching(RejectOf(o), MatchJob(CascadeReject, Some(1), Some([u]), None))
    case VerifyChecked(d, otp) => AddLifecycle(VerifyKey(now), VerifyOtp(d, otp))
    case RiderCancelChecked => AddLifecycle(CancelKey, Cancel(RiderCancelled))
    case DriverCancelChecked(d) => AddLifecycle(DriverCancelKey, Cancel(DriverCancelled(d)))
    case CompleteChecked(d) => AddLifecycle(CompleteKey, Complete(d))
  }

  /** What a call writes that nothing interleaves with. */
  function CallOps(s: Store, t: TripId, req: Request): seq<Op> {
    match StoreAdmit(s, t, req)
    case None => []
    case Some(AcceptChecked(d, o)) =>
      if ReadKey(s.locks, t).Get(s.env.now).Some? then []
      else [SetLock(d, s.env.now + RIDE_LOCK_TTL_MS), LastWrite(s.env.now, AcceptLocked(d, o))]
    case Some(Rejecting(u, o)) =>
      [MarkOffer(o, Rejected)] + if t in s.trips then [LastWrite(s.env.now, Rejecting(u, o))] else []
    case Some(call) => [LastWrite(s.env.now, call)]
  }

  // The same call cut at the awaits where another process can interleave; `c` names the call.

  function BeginOps(s: Store, t: TripId, c: CallId, req: Request): seq<Op> {
    var call := StoreAdmit(s, t, req);
    if (t, c) in s.calls || call.None? then []
    else (if req.RejectRide? then [MarkOffer(req.offer, Rejected)] else []) + [SetCall(c, call.value)]
  }

  function TryLockOps(s: Store, t: TripId, c: CallId): seq<Op> {
    if (t, c) !in s.calls || !s.calls[(t, c)].AcceptChecked? then []
    else
      var call := s.calls[(t, c)];
      if ReadKey(s.locks, t).Get(s.env.now).Some? then [EndCall(c)]
      else [SetLock(call.driver, s.env.now + RIDE_LOCK_TTL_MS), SetCall(c, AcceptLocked(call.driver, call.offer))]
  }

  function ConcludeOps(s: Store, t: TripId, c: CallId): seq<Op> {
    if (t, c) !in s.calls || s.calls[(t, c)].AcceptChecked? then []
    else [LastWrite(s.env.now, s.calls[(t, c)]), EndCall(c)]
  }

  // ---- The request worker -----------------------------------------------------------------

  const REQUEST_OPS := [FinishRequest, AddMatching(First, FIRST_JOB)]

  // ---- The matching worker ----------------------------------------------------------------

  function CascadeOps(s: Store, attempt: nat, skipped: seq<UserId>, geo: Geo, newId: OfferId): seq<Op> {
    match Decide(s.env, attempt, skipped, geo)
    case GiveUp => [AddLifecycle(CancelKey, Cancel(NoDrivers))]
    case Continue(name, skip) => [AddMatching(Next(attempt + 1), MatchJob(name, Some(attempt + 1), Some(skip), None))]
    case MakeOffer(user, driver) =>
      [InsertOffer(newId, Offer(driver, Pending, s.env.now + OFFER_TIMEOUT_MS)),
       AddMatching(TimeoutOf(newId), MatchJob(OfferTimeout(newId), Some(attempt + 1), Some(skipped + [user]),
                                              Some(s.env.now + OFFER_TIMEOUT_MS)))]
  }

  predicate StillPending(s: Store, o: OfferId) {
    o in s.offers && s.offers[o].offer.status.Pending?
  }

  function TimeoutOps(s: Store, o: OfferId, attempt: nat, skipped: seq<UserId>, geo: Geo, newId: OfferId): seq<Op> {
    if !StillPending(s, o) then [] else [MarkOffer(o, Expired)] + CascadeOps(s, attempt, skipped, geo, newId)
  }

  function MatchingJobOps(s: Store, job: MatchJob, geo: Geo, newId: OfferId): seq<Op> {
    if job.name.OfferTimeout? then TimeoutOps(s, job.name.offer, job.Attempt(), job.Skipped(), geo, newId)
    else CascadeOps(s, job.Attempt(), job.Skipped(), geo, newId)
  }

  function MatchingOps(s: Store, t: TripId, k: MatchKey, geo: Geo, newId: OfferId): seq<Op>
    requires (t, k) in s.matching.jobs
  {
    [FinishMatching(k)] + MatchingJobOps(s, s.matching.jobs[(t, k)], geo, newId)
  }

  // ---- The lifecycle worker ---------------------------------------------------------------

  function MarkBusyOps(s: Store, d: DriverId): seq<Op> {
    if d in s.env.directory.byId then [AddBusy(s.env.directory.byId[d])] else []
  }

  function AssignOps(s: Store, t: TripId, d: DriverId, otp: string): seq<Op>
    requires t in s.trips
  {
    var row := s.trips[t].(driver := Some(d), status := Accepted);
    [SaveTrip(row)]
    + MarkBusyOps(s, d)
    + [SetOtp(otp, s.env.now + OTP_TTL_MS), SaveTrip(row.(otp := Some(otp)))]
  }

  // A handler that throws before its first write has nothing to write: among other reasons, because the trip
  // has no row.

  function AcceptOps(s: Store, t: TripId, d: DriverId, o: OfferId, otp: string): seq<Op> {
    if t !in s.trips || !IsValidTransition(s.trips[t].status, Accepted) || o !in s.offers then []
    else [MarkOffer(o, OfferAccepted), ExpireOffers(Some(o)), RemoveTimeouts] + AssignOps(s, t, d, otp)
  }

  function ReleaseOps(s: Store, t: TripId): seq<Op>
    requires t in s.trips
  {
    var driver := s.trips[t].driver;
    if driver.Some? && driver.value in s.env.directory.byId then [RemoveBusy(s.env.directory.byId[driver.value])] else []
  }

  function CancelOps(s: Store, t: TripId): seq<Op> {
    if t !in s.trips || !IsValidTransition(s.trips[t].status, Cancelled) then []
    else
      [SaveTrip(s.trips[t].(status := Cancelled))] + ReleaseOps(s, t)
      + [DeleteOtp, DeleteAttempts, DeleteLock, ExpireOffers(None)]
  }

  /** What a guess leads to: the right one starts the ride, the third wrong one cancels it. */
  function GuessOps(s: Store, t: TripId, right: bool, attempts: nat): seq<Op> {
    if right then
      if t !in s.trips || !IsValidTransition(s.trips[t].status, Started) then []
      else [SaveTrip(s.trips[t].(status := Started)), DeleteOtp, DeleteAttempts]
    else if MAX_OTP_ATTEMPTS - attempts <= 0 then CancelOps(s, t)
    else []
  }

  /** The OTP is read and the attempt counted before the trip is looked up. */
  function VerifyOtpOps(s: Store, t: TripId, guess: string): seq<Op> {
    var stored := ReadKey(s.otps, t).Get(s.env.now);
    if stored.None? then []
    else
      var attempts := ReadKey(s.attempts, t).Get(s.env.now).GetOr(0) + 1;
      [SetAttempts(attempts, s.env.now + OTP_TTL_MS)] + GuessOps(s, t, guess == stored.value, attempts)
  }

  function CompleteOps(s: Store, t: TripId): seq<Op> {
    if t !in s.trips || (s.trips[t].status != Completed && !IsValidTransition(s.trips[t].status, Completed)) then []
    else
      var trip := s.trips[t];
      (if trip.status.Completed? then [] else [SaveTrip(CompletedTrip(trip, s.env.now))])
      + ReleaseOps(s, t) + [DeleteLock, DeleteOtp, DeleteAttempts]
  }

  /** What the handler of `job` writes. */
  function HandlerOps(s: Store, t: TripId, job: LifeJob, otp: string): seq<Op> {
    match job
    case Accept(d, o) => AcceptOps(s, t, d, o, otp)
    case VerifyOtp(_, guess) => VerifyOtpOps(s, t, guess)
    case Cancel(_) => CancelOps(s, t)
    case Complete(_) => CompleteOps(s, t)
  }

  function LifecycleOps(s: Store, t: TripId, k: LifeKey, otp: string): seq<Op>
    requires (t, k) in s.lifecycle.jobs
  {
    [FinishLifecycle(k)] + HandlerOps(s, t, s.lifecycle.jobs[(t, k)], otp)
  }
}
