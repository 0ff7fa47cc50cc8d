/** What each call and handler leaves in the shared stores, written out: which rows, keys, jobs and members of
    the busy set it changes, to what, and under which condition. Whatever is not named stays. */
module StoreEffects {
  import opened Base
  import opened StateMachine
  import opened Rides
  import opened Gateway
  import opened Cascade
  import opened Lifecycle
  import opened Storage
  import opened StoreOps

  // ---- Calls ------------------------------------------------------------------------------

  /** The user is the driver whom offer `o` was made to. */
  ghost predicate OwnsOfferRow(s: Store, user: UserId, o: OfferId) {
    user in s.env.directory.byUser && o in s.offers && s.offers[o].offer.driver == s.env.directory.byUser[user]
  }

  /** The user is the driver of trip `t`, and its status is `status`. */
  ghost predicate DrivesRow(s: Store, t: TripId, user: UserId, status: Status) {
    && user in s.env.directory.byUser && t in s.trips
    && s.trips[t].driver == Some(s.env.directory.byUser[user]) && s.trips[t].status == status
  }

  /** Trip `t` can still be cancelled, and is the user's if he has a rider record. */
  ghost predicate MayCancelRow(s: Store, t: TripId, user: UserId) {
    && t in s.trips && (s.trips[t].status == Requested || s.trips[t].status == Accepted)
    && (user in s.env.riders ==> s.trips[t].rider == s.env.riders[user])
  }

  ghost predicate LockIsFree(s: Store, t: TripId) {
    t in s.locks && s.locks[t].Present? ==> s.locks[t].expiry <= s.env.now
  }

  // Who is let in by the guards of each call, and what the call goes on with.

  lemma DriverCallsAdmitted(s: Store, t: TripId, u: UserId, otp: string)
    ensures StoreAdmit(s, t, Request.SubmitOtp(u, otp))
         == if DrivesRow(s, t, u, Accepted) then Some(VerifyChecked(s.env.directory.byUser[u], otp)) else None
    ensures StoreAdmit(s, t, Request.DriverCancelRide(u))
         == if DrivesRow(s, t, u, Accepted) then Some(DriverCancelChecked(s.env.directory.byUser[u])) else None
    ensures StoreAdmit(s, t, Request.CompleteRide(u))
         == if DrivesRow(s, t, u, Started) then Some(CompleteChecked(s.env.directory.byUser[u])) else None
  {
  }

  lemma CancelCallAdmitted(s: Store, t: TripId, u: UserId)
    ensures StoreAdmit(s, t, Request.CancelRide(u)) == if MayCancelRow(s, t, u) then Some(RiderCancelChecked) else None
  {
  }

  lemma AcceptCallOps(s: Store, t: TripId, u: UserId, o: OfferId)
    ensures CallOps(s, t, Request.AcceptRide(u, o)) ==
              if OwnsOfferRow(s, u, o) && s.offers[o].offer.status == Pending && LockIsFree(s, t) then
                var d := s.env.directory.byUser[u];
                [SetLock(d, s.env.now + 300_000)] + [AddLifecycle(AcceptKey, Accept(d, o))]
              else []
  {
  }

  lemma AcceptCallEffect(s: Store, t: TripId, u: UserId, o: OfferId)
    ensures DoAll(s, t, CallOps(s, t, Request.AcceptRide(u, o))) ==
              if OwnsOfferRow(s, u, o) && s.offers[o].offer.status == Pending && LockIsFree(s, t) then
                var d := s.env.directory.byUser[u];
                s.(locks := s.locks[t := Present(d, s.env.now + 300_000)],
                   lifecycle := s.lifecycle.Add((t, AcceptKey), Accept(d, o)))
              else s
  {
    AcceptCallOps(s, t, u, o);
    var ops := CallOps(s, t, Request.AcceptRide(u, o));
    hide CallOps;
    if ops != [] {
      DoTwo(s, t, ops[0], ops[1]);
      assert ops == [ops[0], ops[1]];
    }
  }

  lemma RejectCallEffect(s: Store, t: TripId, u: UserId, o: OfferId)
    ensures DoAll(s, t, CallOps(s, t, Request.RejectRide(u, o))) ==
              if !OwnsOfferRow(s, u, o) then s
              else
                var rejected := s.offers[o].(offer := s.offers[o].offer.(status := Rejected));
                var s1 := s.(offers := s.offers[o := rejected]);
                if t !in s.trips then s1
                else s1.(matching := s.matching.Add((t, RejectOf(o)), MatchJob(CascadeReject, Some(1), Some([u]), None)))
  {
    var ops := CallOps(s, t, Request.RejectRide(u, o));
    if |ops| == 1 {
      DoOne(s, t, ops[0]);
      assert ops == [ops[0]];
    } else if |ops| == 2 {
      DoTwo(s, t, ops[0], ops[1]);
      assert ops == [ops[0], ops[1]];
    }
  }

  lemma OneWriteEffect(s: Store, t: TripId, req: Request)
    requires !req.AcceptRide? && !req.RejectRide?
    ensures var call := StoreAdmit(s, t, req);
            if call.None? then DoAll(s, t, CallOps(s, t, req)) == s
            else
              && !call.value.AcceptChecked?
              && DoAll(s, t, CallOps(s, t, req)) == Do(s, t, LastWrite(s.env.now, call.value))
  {
    var ops := CallOps(s, t, req);
    if ops != [] {
      DoOne(s, t, ops[0]);
      assert ops == [ops[0]];
    }
  }

  lemma SubmitOtpEffect(s: Store, t: TripId, u: UserId, otp: string)
    ensures DoAll(s, t, CallOps(s, t, Request.SubmitOtp(u, otp))) ==
              if DrivesRow(s, t, u, Accepted)
              then s.(lifecycle := s.lifecycle.Add((t, VerifyKey(s.env.now)), VerifyOtp(s.env.directory.byUser[u], otp)))
              else s
  {
    OneWriteEffect(s, t, Request.SubmitOtp(u, otp));
    DriverCallsAdmitted(s, t, u, otp);
    hide CallOps;
    hide DoAll;
    hide StoreAdmit;
  }

  lemma CancelCallEffect(s: Store, t: TripId, u: UserId)
    ensures DoAll(s, t, CallOps(s, t, Request.CancelRide(u))) ==
              if MayCancelRow(s, t, u) then s.(lifecycle := s.lifecycle.Add((t, CancelKey), Cancel(RiderCancelled)))
              else s
  {
    OneWriteEffect(s, t, Request.CancelRide(u));
    CancelCallAdmitted(s, t, u);
    hide CallOps;
    hide DoAll;
    hide StoreAdmit;
  }

  lemma DriverCancelCallEffect(s: Store, t: TripId, u: UserId)
    ensures DoAll(s, t, CallOps(s, t, Request.DriverCancelRide(u))) ==
              if DrivesRow(s, t, u, Accepted)
              then s.(lifecycle := s.lifecycle.Add((t, DriverCancelKey), Cancel(DriverCancelled(s.env.directory.byUser[u]))))
              else s
  {
    OneWriteEffect(s, t, Request.DriverCancelRide(u));
    DriverCallsAdmitted(s, t, u, "");
    hide CallOps;
    hide DoAll;
    hide StoreAdmit;
  }

  lemma CompleteCallEffect(s: Store, t: TripId, u: UserId)
    ensures DoAll(s, t, CallOps(s, t, Request.CompleteRide(u))) ==
              if DrivesRow(s, t, u, Started)
              then s.(lifecycle := s.lifecycle.Add((t, CompleteKey), Complete(s.env.directory.byUser[u])))
              else s
  {
    OneWriteEffect(s, t, Request.CompleteRide(u));
    DriverCallsAdmitted(s, t, u, "");
    hide CallOps;
    hide DoAll;
    hide StoreAdmit;
  }

  /** A reject ends with a restart of the chain at attempt 1 that skips the rejecter; an acceptance with its ACCEPT. */
  lemma LastOfferWrites(s: Store, t: TripId, u: UserId, d: DriverId, o: OfferId)
    ensures Do(s, t, LastWrite(s.env.now, Rejecting(u, o)))
         == s.(matching := s.matching.Add((t, RejectOf(o)), MatchJob(CascadeReject, Some(1), Some([u]), None)))
    ensures Do(s, t, LastWrite(s.env.now, AcceptLocked(d, o)))
         == s.(lifecycle := s.lifecycle.Add((t, AcceptKey), Accept(d, o)))
    ensures Do(s, t, LastWrite(s.env.now, Creating)) == s.(requests := s.requests.Add((t, RideRequest), NewRide))
  {
  }

  lemma LastRideWrites(s: Store, t: TripId, d: DriverId, otp: string)
    ensures Do(s, t, LastWrite(s.env.now, VerifyChecked(d, otp)))
         == s.(lifecycle := s.lifecycle.Add((t, VerifyKey(s.env.now)), VerifyOtp(d, otp)))
    ensures Do(s, t, LastWrite(s.env.now, RiderCancelChecked))
         == s.(lifecycle := s.lifecycle.Add((t, CancelKey), Cancel(RiderCancelled)))
    ensures Do(s, t, LastWrite(s.env.now, DriverCancelChecked(d)))
         == s.(lifecycle := s.lifecycle.Add((t, DriverCancelKey), Cancel(DriverCancelled(d))))
    ensures Do(s, t, LastWrite(s.env.now, CompleteChecked(d)))
         == s.(lifecycle := s.lifecycle.Add((t, CompleteKey), Complete(d)))
  {
  }

  /** What the end of a call writes: its one job, and the call is over. One that has not tried the lock yet goes
      on. */
  ghost predicate ConcludedRightly(s: Store, s': Store, t: TripId, c: CallId, call: Call) {
    var s1 := s.(calls := s.calls - {(t, c)});
    match call
    case Creating => s' == s1.(requests := s.requests.Add((t, RideRequest), NewRide))
    case AcceptChecked(_, _) => s' == s
    case AcceptLocked(d, o) => s' == s1.(lifecycle := s.lifecycle.Add((t, AcceptKey), Accept(d, o)))
    case Rejecting(u, o) =>
      s' == s1.(matching := s.matching.Add((t, RejectOf(o)), MatchJob(CascadeReject, Some(1), Some([u]), None)))
    case VerifyChecked(d, otp) =>
      s' == s1.(lifecycle := s.lifecycle.Add((t, VerifyKey(s.env.now)), VerifyOtp(d, otp)))
    case RiderCancelChecked => s' == s1.(lifecycle := s.lifecycle.Add((t, CancelKey), Cancel(RiderCancelled)))
    case DriverCancelChecked(d) =>
      s' == s1.(lifecycle := s.lifecycle.Add((t, DriverCancelKey), Cancel(DriverCancelled(d))))
    case CompleteChecked(d) => s' == s1.(lifecycle := s.lifecycle.Add((t, CompleteKey), Complete(d)))
  }

  lemma EndEffect(s: Store, t: TripId, c: CallId)
    ensures Do(s, t, EndCall(c)) == s.(calls := s.calls - {(t, c)})
  {
  }

  lemma OfferCallEnds(s: Store, t: TripId, c: CallId, call: Call)
    requires call.Creating? || call.AcceptLocked? || call.Rejecting?
    ensures ConcludedRightly(s, Do(Do(s, t, LastWrite(s.env.now, call)), t, EndCall(c)), t, c, call)
  {
    EndEffect(Do(s, t, LastWrite(s.env.now, call)), t, c);
    hide Do;
    hide LastWrite;
    match call
    case Creating => LastOfferWrites(s, t, "", "", "");
    case AcceptLocked(d, o) => LastOfferWrites(s, t, "", d, o);
    case Rejecting(u, o) => LastOfferWrites(s, t, u, "", o);
  }

  lemma RideCallEnds(s: Store, t: TripId, c: CallId, call: Call)
    requires call.VerifyChecked? || call.RiderCancelChecked? || call.DriverCancelChecked? || call.CompleteChecked?
    ensures ConcludedRightly(s, Do(Do(s, t, LastWrite(s.env.now, call)), t, EndCall(c)), t, c, call)
  {
    EndEffect(Do(s, t, LastWrite(s.env.now, call)), t, c);
    hide Do;
    hide LastWrite;
    match call
    case VerifyChecked(d, otp) => LastRideWrites(s, t, d, otp);
    case RiderCancelChecked => LastRideWrites(s, t, "", "");
    case DriverCancelChecked(d) => LastRideWrites(s, t, d, "");
    case CompleteChecked(d) => LastRideWrites(s, t, d, "");
  }

  lemma ConcludeEffect(s: Store, t: TripId, c: CallId)
    requires (t, c) in s.calls
    ensures ConcludedRightly(s, DoAll(s, t, ConcludeOps(s, t, c)), t, c, s.calls[(t, c)])
  {
    var call := s.calls[(t, c)];
    if !call.AcceptChecked? {
      DoTwo(s, t, LastWrite(s.env.now, call), EndCall(c));
      hide Do;
      hide DoAll;
      hide LastWrite;
      hide ConcludedRightly;
      if call.Creating? || call.AcceptLocked? || call.Rejecting? {
        OfferCallEnds(s, t, c, call);
      } else {
        RideCallEnds(s, t, c, call);
      }
    }
  }

  // ---- The request worker and the matching worker -----------------------------------------

  lemma RequestEffect(s: Store, t: TripId)
    ensures DoAll(s, t, REQUEST_OPS)
         == s.(requests := s.requests.Finish((t, RideRequest)),
               matching := s.matching.Add((t, First), MatchJob(MatchDriver, None, None, None)))
  {
    DoTwo(s, t, REQUEST_OPS[0], REQUEST_OPS[1]);
    assert REQUEST_OPS == [REQUEST_OPS[0], REQUEST_OPS[1]];
  }

  lemma QueueLifecycleEffect(s: Store, t: TripId, k: LifeKey, job: LifeJob)
    ensures DoAll(s, t, [AddLifecycle(k, job)]) == s.(lifecycle := s.lifecycle.Add((t, k), job))
  {
    DoOne(s, t, AddLifecycle(k, job));
  }

  lemma QueueMatchingEffect(s: Store, t: TripId, k: MatchKey, job: MatchJob)
    ensures DoAll(s, t, [AddMatching(k, job)]) == s.(matching := s.matching.Add((t, k), job))
  {
    DoOne(s, t, AddMatching(k, job));
  }

  lemma OfferEffect(s: Store, t: TripId, o: OfferId, offer: Offer, job: MatchJob)
    ensures DoAll(s, t, [InsertOffer(o, offer), AddMatching(TimeoutOf(o), job)])
         == s.(offers := s.offers[o := OfferRow(t, offer)], matching := s.matching.Add((t, TimeoutOf(o)), job))
  {
    DoTwo(s, t, InsertOffer(o, offer), AddMatching(TimeoutOf(o), job));
  }

  lemma CascadeEffect(s: Store, t: TripId, attempt: nat, skipped: seq<UserId>, geo: Geo, newId: OfferId)
    ensures DoAll(s, t, CascadeOps(s, attempt, skipped, geo, newId)) ==
              match Decide(s.env, attempt, skipped, geo)
              case GiveUp => s.(lifecycle := s.lifecycle.Add((t, CancelKey), Cancel(NoDrivers)))
              case Continue(name, skip) =>
                s.(matching := s.matching.Add((t, Next(attempt + 1)),
                                              MatchJob(name, Some(attempt + 1), Some(skip), None)))
              case MakeOffer(user, driver) =>
                var due := s.env.now + 30_000;
                s.(offers := s.offers[newId := OfferRow(t, Offer(driver, Pending, due))],
                   matching := s.matching.Add((t, TimeoutOf(newId)),
                     MatchJob(OfferTimeout(newId), Some(attempt + 1), Some(skipped + [user]), Some(due))))
  {
    hide DoAll;
    hide Decide;
    match Decide(s.env, attempt, skipped, geo)
    case GiveUp => QueueLifecycleEffect(s, t, CancelKey, Cancel(NoDrivers));
    case Continue(name, skip) =>
      QueueMatchingEffect(s, t, Next(attempt + 1), MatchJob(name, Some(attempt + 1), Some(skip), None));
    case MakeOffer(user, driver) =>
      var due := s.env.now + 30_000;
      OfferEffect(s, t, newId, Offer(driver, Pending, due),
                  MatchJob(OfferTimeout(newId), Some(attempt + 1), Some(skipped + [user]), Some(due)));
  }

  // ---- The lifecycle worker ---------------------------------------------------------------

  /** The user of the trip's driver, if both are known. */
  function DriversUser(s: Store, driver: Option<DriverId>): set<UserId> {
    if driver.Some? && driver.value in s.env.directory.byId then {s.env.directory.byId[driver.value]} else {}
  }

  /** The offer table with the PENDING offers of trip `t` EXPIRED, and all others as they were. */
  ghost predicate PendingExpired(offers: map<OfferId, OfferRow>, offers': map<OfferId, OfferRow>, t: TripId) {
    && offers'.Keys == offers.Keys
    && forall o :: o in offers ==>
         offers'[o] == if offers[o].trip == t && offers[o].offer.status == Pending
                       then OfferRow(t, offers[o].offer.(status := Expired)) else offers[o]
  }

  lemma ReleaseEffect(s: Store, s1: Store, t: TripId)
    requires t in s.trips
    ensures DoAll(s1, t, ReleaseOps(s, t)) == s1.(env := s1.env.(busy := s1.env.busy - DriversUser(s, s.trips[t].driver)))
  {
    if ReleaseOps(s, t) == [] {
      assert s1.env.busy - {} == s1.env.busy;
    } else {
      DoOne(s1, t, ReleaseOps(s, t)[0]);
      assert ReleaseOps(s, t) == [ReleaseOps(s, t)[0]];
    }
  }

  lemma ExpireEffect(s: Store, t: TripId)
    ensures PendingExpired(s.offers, Do(s, t, ExpireOffers(None)).offers, t)
    ensures Do(s, t, ExpireOffers(None)) == s.(offers := Do(s, t, ExpireOffers(None)).offers)
  {
  }

  lemma CancelTail(s: Store, t: TripId)
    ensures var s' := DoAll(s, t, [DeleteOtp, DeleteAttempts, DeleteLock, ExpireOffers(None)]);
            && PendingExpired(s.offers, s'.offers, t)
            && s' == s.(otps := s.otps - {t}, attempts := s.attempts - {t}, locks := s.locks - {t}, offers := s'.offers)
  {
    DoThree(s, t, DeleteOtp, DeleteAttempts, DeleteLock);
    DoThen(s, t, [DeleteOtp, DeleteAttempts, DeleteLock], ExpireOffers(None));
    assert [DeleteOtp, DeleteAttempts, DeleteLock] + [ExpireOffers(None)]
        == [DeleteOtp, DeleteAttempts, DeleteLock, ExpireOffers(None)];
    ExpireEffect(Do(Do(Do(s, t, DeleteOtp), t, DeleteAttempts), t, DeleteLock), t);
  }

  /** A cancellation of a REQUESTED or ACCEPTED trip writes its status, lets its driver go, deletes its three keys
      and expires its PENDING offers; of any other trip, nothing. */
  lemma CancelEffect(s: Store, t: TripId)
    ensures var s' := DoAll(s, t, CancelOps(s, t));
            if t in s.trips && (s.trips[t].status == Requested || s.trips[t].status == Accepted) then
              && PendingExpired(s.offers, s'.offers, t)
              && s' == s.(trips := s.trips[t := s.trips[t].(status := Cancelled)],
                          env := s.env.(busy := s.env.busy - DriversUser(s, s.trips[t].driver)),
                          otps := s.otps - {t}, attempts := s.attempts - {t}, locks := s.locks - {t},
                          offers := s'.offers)
            else s' == s
  {
    if t in s.trips && (s.trips[t].status == Requested || s.trips[t].status == Accepted) {
      var save := SaveTrip(s.trips[t].(status := Cancelled));
      var tail := [DeleteOtp, DeleteAttempts, DeleteLock, ExpireOffers(None)];
      assert CancelOps(s, t) == [save] + ReleaseOps(s, t) + tail;
      hide CancelOps;
      hide ReleaseOps;
      hide DriversUser;
      DoOne(s, t, save);
      var s1 := Do(s, t, save);
      ReleaseEffect(s, s1, t);
      var s2 := DoAll(s1, t, ReleaseOps(s, t));
      DoAppend(s, t, [save], ReleaseOps(s, t));
      DoAppend(s, t, [save] + ReleaseOps(s, t), tail);
      hide DoAll;
      CancelTail(s2, t);
    }
  }

  lemma StartEffect(s: Store, t: TripId, row: Trip)
    ensures DoAll(s, t, [SaveTrip(row), DeleteOtp, DeleteAttempts])
         == s.(trips := s.trips[t := row], otps := s.otps - {t}, attempts := s.attempts - {t})
  {
    DoThree(s, t, SaveTrip(row), DeleteOtp, DeleteAttempts);
  }

  ghost predicate OtpIsLive(s: Store, t: TripId) {
    t in s.otps && s.otps[t].Present? && s.env.now < s.otps[t].expiry
  }

  /** Which guess the next one is: the count starts again once its key has expired. */
  ghost function GuessNumber(s: Store, t: TripId): nat {
    if t in s.attempts && s.attempts[t].Present? && s.env.now < s.attempts[t].expiry then s.attempts[t].value + 1 else 1
  }

  lemma VerifyOpsAre(s: Store, t: TripId, guess: string)
    ensures VerifyOtpOps(s, t, guess) ==
              if !OtpIsLive(s, t) then []
              else [SetAttempts(GuessNumber(s, t), s.env.now + 900_000)]
                   + GuessOps(s, t, guess == s.otps[t].value, GuessNumber(s, t))
  {
    hide GuessOps;
  }

  lemma GuessEffect(s: Store, counted: Store, t: TripId, right: bool, n: nat)
    requires counted == s.(attempts := counted.attempts)
    ensures var s' := DoAll(counted, t, GuessOps(s, t, right, n));
            if right then
              s' == if t in s.trips && s.trips[t].status == Accepted
                    then counted.(trips := s.trips[t := s.trips[t].(status := Started)],
                                  otps := s.otps - {t}, attempts := counted.attempts - {t})
                    else counted
            else if n >= 3 then s' == DoAll(counted, t, CancelOps(counted, t))
            else s' == counted
  {
    if right && t in s.trips && s.trips[t].status == Accepted {
      StartEffect(counted, t, s.trips[t].(status := Started));
    } else if !right && n >= 3 {
      assert CancelOps(s, t) == CancelOps(counted, t);
    }
  }

  /** A guess. Without a live OTP it changes nothing. Otherwise the attempt is counted, for another 15 minutes; a
      right guess starts an ACCEPTED trip and deletes OTP and count; the third wrong one, and any later,
      cancels as `CancelEffect` says; and any other leaves the rest as it was. */
  lemma VerifyEffect(s: Store, t: TripId, guess: string)
    ensures var s' := DoAll(s, t, VerifyOtpOps(s, t, guess));
            if !OtpIsLive(s, t) then s' == s
            else
              var n := GuessNumber(s, t);
              var counted := s.(attempts := s.attempts[t := Present(n, s.env.now + 900_000)]);
              if guess == s.otps[t].value then
                s' == if t in s.trips && s.trips[t].status == Accepted
                      then counted.(trips := s.trips[t := s.trips[t].(status := Started)],
                                    otps := s.otps - {t}, attempts := s.attempts - {t})
                      else counted
              else if n >= 3 then s' == DoAll(counted, t, CancelOps(counted, t))
              else s' == counted
  {
    VerifyOpsAre(s, t, guess);
    hide VerifyOtpOps;
    hide GuessNumber;
    hide CancelOps;
    if OtpIsLive(s, t) {
      hide OtpIsLive;
      var n := GuessNumber(s, t);
      var count, rest := SetAttempts(n, s.env.now + 900_000), GuessOps(s, t, guess == s.otps[t].value, n);
      DoOne(s, t, count);
      DoAppend(s, t, [count], rest);
      var counted := Do(s, t, count);
      assert counted.attempts - {t} == s.attempts - {t};
      hide Do;
      hide DoAll;
      hide GuessOps;
      GuessEffect(s, counted, t, guess == s.otps[t].value, n);
    }
  }

  lemma CompleteTail(s: Store, t: TripId)
    ensures DoAll(s, t, [DeleteLock, DeleteOtp, DeleteAttempts])
         == s.(locks := s.locks - {t}, otps := s.otps - {t}, attempts := s.attempts - {t})
  {
    DoThree(s, t, DeleteLock, DeleteOtp, DeleteAttempts);
  }

  /** Row `after` is `before` completed at `now`: the fare is 50 and 12 a kilometre to the cent, the distance is in
      hundredths of a kilometre, halves rounded up, and a time that was there stays. */
  ghost predicate IsCompletion(before: Trip, after: Trip, now: nat) {
    && after.fare.Some? && after.distance.Some?
    && after == before.(status := Completed, fare := after.fare, distance := after.distance,
                        completedAt := if before.completedAt.Some? then before.completedAt else Some(now))
    && Fare.IsWhole(after.fare.value, 100) && Fare.IsWhole(after.distance.value, 100)
    && -0.005 < after.fare.value - (50.0 + 12.0 * (before.meters / 1000.0)) <= 0.005
    && -0.005 < after.distance.value - before.meters / 1000.0 <= 0.005
  }

  lemma CompletedTripIs(before: Trip, now: nat)
    requires before.status != Completed
    ensures IsCompletion(before, CompletedTrip(before, now), now)
  {
    Fare.FareIsTariff(before.meters);
    hide Fare.FareOf;
    hide Fare.StoredKm;
  }

  /** A completion of a STARTED trip writes its row; of a COMPLETED one, no row. Both let the driver go and delete
      the three keys. Of any other trip, nothing. */
  lemma CompleteEffect(s: Store, t: TripId)
    ensures var s' := DoAll(s, t, CompleteOps(s, t));
            if t in s.trips && (s.trips[t].status == Started || s.trips[t].status == Completed) then
              && t in s'.trips
              && (if s.trips[t].status == Completed then s'.trips[t] == s.trips[t]
                  else IsCompletion(s.trips[t], s'.trips[t], s.env.now))
              && s' == s.(trips := s.trips[t := s'.trips[t]],
                          env := s.env.(busy := s.env.busy - DriversUser(s, s.trips[t].driver)),
                          locks := s.locks - {t}, otps := s.otps - {t}, attempts := s.attempts - {t})
            else s' == s
  {
    if t in s.trips && (s.trips[t].status == Started || s.trips[t].status == Completed) {
      var trip := s.trips[t];
      var row := CompletedTrip(trip, s.env.now);
      var tail := [DeleteLock, DeleteOtp, DeleteAttempts];
      var save := if trip.status == Completed then [] else [SaveTrip(row)];
      assert CompleteOps(s, t) == save + ReleaseOps(s, t) + tail;
      if trip.status == Completed {
        assert s.trips[t := trip] == s.trips;
      } else {
        DoOne(s, t, save[0]);
        CompletedTripIs(trip, s.env.now);
      }
      var s1 := s.(trips := s.trips[t := row]);
      assert DoAll(s, t, save) == s1;
      hide CompleteOps;
      hide ReleaseOps;
      hide DriversUser;
      hide CompletedTrip;
      hide IsCompletion;
      hide Do;
      hide DoAll;
      DoParts(s, t, save, ReleaseOps(s, t), tail);
      ReleaseEffect(s, s1, t);
      CompleteTail(DoAll(s1, t, ReleaseOps(s, t)), t);
    }
  }

  /** The offer table after an acceptance with offer `o`. */
  ghost predicate ClosedFor(offers: map<OfferId, OfferRow>, offers': map<OfferId, OfferRow>, t: TripId, o: OfferId) {
    && offers'.Keys == offers.Keys
    && forall x :: x in offers ==>
         offers'[x] == if x == o then offers[x].(offer := offers[x].offer.(status := OfferAccepted))
                       else if offers[x].trip == t && offers[x].offer.status == Pending
                       then OfferRow(t, offers[x].offer.(status := Expired))
                       else offers[x]
  }

  /** The matching queue without the delayed offer timeouts of trip `t`, whose ids are forgotten. */
  ghost predicate TimeoutsRemoved(q: Queue<JobId<MatchKey>, MatchJob>, q': Queue<JobId<MatchKey>, MatchJob>, t: TripId) {
    && q'.jobs.Keys <= q.jobs.Keys && q'.seen <= q.seen
    && (forall id :: id in q'.jobs ==> q'.jobs[id] == q.jobs[id])
    && (forall id :: id in q.jobs ==>
          (id !in q'.jobs <==> id.0 == t && q.jobs[id].name.OfferTimeout? && q.jobs[id].delayedUntil.Some?))
    && (forall id :: id in q.seen && id !in q'.seen <==>
          id in q.seen && id in q.jobs && id.0 == t && q.jobs[id].name.OfferTimeout? && q.jobs[id].delayedUntil.Some?)
  }

  lemma RemoveEffect(s: Store, t: TripId)
    ensures var s' := Do(s, t, RemoveTimeouts);
            TimeoutsRemoved(s.matching, s'.matching, t) && s' == s.(matching := s'.matching)
  {
  }

  lemma MarkExpireEffect(s: Store, t: TripId, o: OfferId)
    requires o in s.offers
    ensures var s' := Do(Do(s, t, MarkOffer(o, OfferAccepted)), t, ExpireOffers(Some(o)));
            ClosedFor(s.offers, s'.offers, t, o) && s' == s.(offers := s'.offers)
  {
  }

  lemma CloseEffect(s: Store, t: TripId, o: OfferId)
    requires o in s.offers
    ensures var s' := DoAll(s, t, [MarkOffer(o, OfferAccepted), ExpireOffers(Some(o)), RemoveTimeouts]);
            && ClosedFor(s.offers, s'.offers, t, o) && TimeoutsRemoved(s.matching, s'.matching, t)
            && s' == s.(offers := s'.offers, matching := s'.matching)
  {
    hide Do;
    hide ClosedFor;
    hide TimeoutsRemoved;
    DoThree(s, t, MarkOffer(o, OfferAccepted), ExpireOffers(Some(o)), RemoveTimeouts);
    MarkExpireEffect(s, t, o);
    RemoveEffect(Do(Do(s, t, MarkOffer(o, OfferAccepted)), t, ExpireOffers(Some(o))), t);
    hide DoAll;
  }

  lemma MarkEffect(s: Store, s1: Store, t: TripId, d: DriverId)
    ensures DoAll(s1, t, MarkBusyOps(s, d)) == s1.(env := s1.env.(busy := s1.env.busy + DriversUser(s, Some(d))))
  {
    if MarkBusyOps(s, d) == [] {
      assert s1.env.busy + {} == s1.env.busy;
    } else {
      DoOne(s1, t, MarkBusyOps(s, d)[0]);
      assert MarkBusyOps(s, d) == [MarkBusyOps(s, d)[0]];
    }
  }

  lemma SaveOtpEffect(s: Store, t: TripId, otp: string, row: Trip)
    ensures DoAll(s, t, [SetOtp(otp, s.env.now + 900_000), SaveTrip(row)])
         == s.(otps := s.otps[t := Present(otp, s.env.now + 900_000)], trips := s.trips[t := row])
  {
    DoTwo(s, t, SetOtp(otp, s.env.now + 900_000), SaveTrip(row));
  }

  lemma SaveEffect(s: Store, t: TripId, row: Trip)
    ensures DoAll(s, t, [SaveTrip(row)]) == s.(trips := s.trips[t := row])
  {
    DoOne(s, t, SaveTrip(row));
  }

  lemma AssignParts(s: Store, t: TripId, d: DriverId, otp: string)
    requires t in s.trips
    ensures var row := s.trips[t].(driver := Some(d), status := Accepted);
            AssignOps(s, t, d, otp)
            == [SaveTrip(row)] + MarkBusyOps(s, d) + [SetOtp(otp, s.env.now + 900_000), SaveTrip(row.(otp := Some(otp)))]
  {
  }

  lemma SavedTwice(trips: map<TripId, Trip>, t: TripId, row: Trip, row': Trip)
    ensures trips[t := row][t := row'] == trips[t := row']
  {
  }

  /** Saving the row, marking the driver busy and saving the OTP, one after the other. */
  lemma AssignsAct(s: Store, s1: Store, t: TripId, d: DriverId, otp: string, row: Trip, row': Trip)
    requires s1.env == s.env
    ensures DoAll(s1, t, [SaveTrip(row)] + MarkBusyOps(s, d) + [SetOtp(otp, s.env.now + 900_000), SaveTrip(row')])
         == s1.(trips := s1.trips[t := row'],
                env := s.env.(busy := s.env.busy + DriversUser(s, Some(d))),
                otps := s1.otps[t := Present(otp, s.env.now + 900_000)])
  {
    hide Do;
    hide DoAll;
    hide MarkBusyOps;
    hide DriversUser;
    DoParts(s1, t, [SaveTrip(row)], MarkBusyOps(s, d), [SetOtp(otp, s.env.now + 900_000), SaveTrip(row')]);
    SaveEffect(s1, t, row);
    var s2 := s1.(trips := s1.trips[t := row]);
    MarkEffect(s, s2, t, d);
    var s3 := s2.(env := s2.env.(busy := s2.env.busy + DriversUser(s, Some(d))));
    SaveOtpEffect(s3, t, otp, row');
    SavedTwice(s1.trips, t, row, row');
  }

  lemma AssignEffect(s: Store, s1: Store, t: TripId, d: DriverId, otp: string)
    requires t in s.trips && s1.trips == s.trips && s1.env == s.env
    ensures DoAll(s1, t, AssignOps(s, t, d, otp))
         == s1.(trips := s.trips[t := s.trips[t].(driver := Some(d), status := Accepted, otp := Some(otp))],
                env := s.env.(busy := s.env.busy + DriversUser(s, Some(d))),
                otps := s1.otps[t := Present(otp, s.env.now + 900_000)])
  {
    var row := s.trips[t].(driver := Some(d), status := Accepted);
    AssignParts(s, t, d, otp);
    hide AssignOps;
    hide DoAll;
    hide MarkBusyOps;
    hide DriversUser;
    AssignsAct(s, s1, t, d, otp, row, row.(otp := Some(otp)));
  }

  /** An acceptance of a REQUESTED trip with an existing offer writes driver, status and OTP, the OTP key for 15
      minutes, marks the driver busy, closes the offers and removes the delayed timeouts; otherwise,
      nothing. */
  lemma AcceptEffect(s: Store, t: TripId, d: DriverId, o: OfferId, otp: string)
    ensures var s' := DoAll(s, t, AcceptOps(s, t, d, o, otp));
            if t in s.trips && s.trips[t].status == Requested && o in s.offers then
              && ClosedFor(s.offers, s'.offers, t, o) && TimeoutsRemoved(s.matching, s'.matching, t)
              && s' == s.(trips := s.trips[t := s.trips[t].(driver := Some(d), status := Accepted, otp := Some(otp))],
                          env := s.env.(busy := s.env.busy + DriversUser(s, Some(d))),
                          otps := s.otps[t := Present(otp, s.env.now + 900_000)],
                          offers := s'.offers, matching := s'.matching)
            else s' == s
  {
    if t in s.trips && s.trips[t].status == Requested && o in s.offers {
      var close := [MarkOffer(o, OfferAccepted), ExpireOffers(Some(o)), RemoveTimeouts];
      assert AcceptOps(s, t, d, o, otp) == close + AssignOps(s, t, d, otp);
      DoAppend(s, t, close, AssignOps(s, t, d, otp));
      CloseEffect(s, t, o);
      AssignEffect(s, DoAll(s, t, close), t, d, otp);
      hide DoAll;
      hide AssignOps;
      hide AcceptOps;
      hide ClosedFor;
      hide TimeoutsRemoved;
      hide DriversUser;
    }
  }
}
