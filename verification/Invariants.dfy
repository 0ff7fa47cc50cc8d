/** What every reachable state satisfies, whatever clients, clock and workers do: the shape of the
    trip row, the agreement of Redis keys with the status, and that what the gateway checked
    before queueing a job is still true when the job is processed. */
module Invariants {
  import opened Base
  import opened Fare
  import opened StateMachine
  import opened Rides
  import opened Gateway
  import opened Cascade
  import opened Lifecycle
  import opened Dispatch

  ghost predicate RowInv(dir: Directory, trip: Trip) {
    && (trip.driver.Some? ==> trip.driver.value in dir.byId)
    && (trip.status.Requested? ==> trip.driver.None?)
    && (trip.driver.None? <==> trip.otp.None?)
    && (trip.status in {Accepted, Started, Completed} ==> trip.driver.Some?)
    && (trip.status.Completed? ==>
          trip.fare == Some(FareOf(trip.meters)) && trip.distance == Some(StoredKm(trip.meters)) && trip.completedAt.Some?)
    && (!trip.status.Completed? ==> trip.fare.None? && trip.distance.None? && trip.completedAt.None?)
  }

  /** The OTP key is there exactly while the ride is ACCEPTED, and an attempts key never expires
      before it: each guess refreshes the attempts key with the TTL the OTP got at acceptance. */
  ghost predicate KeyInv(now: nat, r: Ride) {
    && (r.otpKey.Present? <==> r.trip.status.Accepted?)
    && (r.otpKey.Present? ==> r.trip.otp == Some(r.otpKey.value))
    && (r.otpKey.Present? ==> r.otpKey.expiry <= now + Constants.OTP_TTL_MS)
    && (r.attempts.Present? ==>
          && r.otpKey.Present?
          && r.otpKey.expiry <= r.attempts.expiry
          && 1 <= r.attempts.value <= 2)
  }

  ghost predicate OfferOf(dir: Directory, r: Ride, d: DriverId, o: OfferId) {
    o in r.offers && r.offers[o].driver == d && d in dir.byId
  }

  ghost predicate LifeJobInv(dir: Directory, r: Ride, k: LifeKey, job: LifeJob) {
    match k
    case AcceptKey => job.Accept? && OfferOf(dir, r, job.driver, job.offer)
    case VerifyKey(_) => job.VerifyOtp? && r.trip.driver == Some(job.driver)
    case CancelKey => job.Cancel? && !job.reason.DriverCancelled?
    case DriverCancelKey => job.Cancel? && job.reason.DriverCancelled? && r.trip.driver == Some(job.reason.driver)
    case CompleteKey => job.Complete? && r.trip.driver == Some(job.driver) && r.trip.status.Started?
  }

  ghost predicate LifeInv(dir: Directory, r: Ride) {
    && r.lifecycle.WellFormed()
    && (forall k :: k in r.lifecycle.jobs ==> LifeJobInv(dir, r, k, r.lifecycle.jobs[k]))
    && (r.trip.status.Requested? ==> forall k: LifeKey :: k in r.lifecycle.seen ==> k in r.lifecycle.jobs)
    && (r.trip.status.Completed? ==> CompleteKey in r.lifecycle.seen)
    && (r.trip.driver.Some? ==> AcceptKey in r.lifecycle.seen && AcceptKey !in r.lifecycle.jobs)
  }

  ghost predicate CallInv(dir: Directory, r: Ride, call: Call) {
    match call
    case Creating => true
    case AcceptChecked(d, o) => OfferOf(dir, r, d, o)
    case AcceptLocked(d, o) => OfferOf(dir, r, d, o)
    case Rejecting(_, o) => o in r.offers && !r.offers[o].status.Pending?
    case VerifyChecked(d, _) => r.trip.driver == Some(d)
    case RiderCancelChecked => true
    case DriverCancelChecked(d) => r.trip.driver == Some(d)
    case CompleteChecked(d) => r.trip.driver == Some(d) && r.trip.status in {Started, Completed}
  }

  ghost predicate MatchJobInv(r: Ride, k: MatchKey, job: MatchJob) {
    match k
    case First => job.name == MatchDriver && job.attempt.None? && job.skipped.None?
    case Next(n) => job.name in {CascadeExpanded, CascadeSkip} && job.attempt == Some(n)
    case TimeoutOf(o) => job.name == OfferTimeout(o) && o in r.offers
    case RejectOf(o) => job.name == CascadeReject && job.attempt == Some(1)
  }

  ghost predicate MatchInv(r: Ride) {
    && r.matching.WellFormed()
    && r.requests.WellFormed()
    && (forall k :: k in r.matching.jobs ==> MatchJobInv(r, k, r.matching.jobs[k]))
    && (forall k: MatchKey :: k in r.matching.seen && k.TimeoutOf? ==> k.offer in r.offers)
    && (forall k: MatchKey :: k in r.matching.seen && k.RejectOf? ==> k.offer in r.offers && !r.offers[k.offer].status.Pending?)
    && (forall o :: o in r.offers && r.offers[o].status.Pending? ==> TimeoutOf(o) in r.matching.jobs)
  }

  ghost predicate RideInv(now: nat, dir: Directory, r: Ride) {
    && RowInv(dir, r.trip)
    && KeyInv(now, r)
    && LifeInv(dir, r)
    && MatchInv(r)
    && (forall c :: c in r.calls ==> CallInv(dir, r, r.calls[c]))
  }

  ghost predicate WorldInv(w: World) {
    && w.env.directory.Consistent()
    && (forall t :: t in w.rides ==> RideInv(w.env.now, w.env.directory, w.rides[t]))
  }

  lemma CallsKeepInv(env: Env, r: Ride, lock: Key<DriverId>, calls: map<CallId, Call>)
    requires RideInv(env.now, env.directory, r)
    requires forall c :: c in calls ==> CallInv(env.directory, r, calls[c])
    ensures RideInv(env.now, env.directory, r.(lock := lock, calls := calls))
  {
    var r' := r.(lock := lock, calls := calls);
    forall c | c in calls ensures CallInv(env.directory, r', calls[c]) {
      assert CallInv(env.directory, r, calls[c]);
    }
  }

  lemma RejectKeepsInv(env: Env, r: Ride, c: CallId, req: Request)
    requires env.directory.Consistent() && RideInv(env.now, env.directory, r) && req.RejectRide?
    ensures RideInv(env.now, env.directory, Gateway.Begin(env, r, c, req))
  {
  }

  lemma AdmittedFits(env: Env, r: Ride, req: Request)
    requires env.directory.Consistent() && RideInv(env.now, env.directory, r) && !req.RejectRide?
    ensures Admit(env, r, req).Some? ==> CallInv(env.directory, r, Admit(env, r, req).value)
  {
    hide KeyInv;
    hide LifeInv;
    hide MatchInv;
  }

  lemma BeginKeepsInv(env: Env, r: Ride, c: CallId, req: Request)
    requires env.directory.Consistent() && RideInv(env.now, env.directory, r)
    ensures RideInv(env.now, env.directory, Gateway.Begin(env, r, c, req))
  {
    if req.RejectRide? {
      RejectKeepsInv(env, r, c, req);
    } else {
      var r' := Gateway.Begin(env, r, c, req);
      AdmittedFits(env, r, req);
      hide RowInv;
      hide KeyInv;
      hide LifeInv;
      hide MatchInv;
      hide Admit;
      CallsKeepInv(env, r, r'.lock, r'.calls);
    }
  }

  lemma TryLockKeepsInv(env: Env, r: Ride, c: CallId)
    requires RideInv(env.now, env.directory, r)
    ensures RideInv(env.now, env.directory, Gateway.TryLock(env, r, c))
  {
    hide RowInv;
    hide KeyInv;
    hide LifeInv;
    hide MatchInv;
    var r' := Gateway.TryLock(env, r, c);
    if c in r.calls {
      assert CallInv(env.directory, r, r.calls[c]);
    }
    CallsKeepInv(env, r, r'.lock, r'.calls);
  }

  /** Queueing a lifecycle job that fits the ride keeps the invariant. */
  lemma AddLifeJobKeepsInv(env: Env, r: Ride, k: LifeKey, job: LifeJob)
    requires RideInv(env.now, env.directory, r)
    requires k !in r.lifecycle.seen ==> LifeJobInv(env.directory, r, k, job)
    ensures RideInv(env.now, env.directory, r.(lifecycle := r.lifecycle.Add(k, job)))
  {
  }

  /** The same for a matching job other than a timeout. */
  lemma AddMatchJobKeepsInv(env: Env, r: Ride, k: MatchKey, job: MatchJob)
    requires RideInv(env.now, env.directory, r)
    requires !k.TimeoutOf? && MatchJobInv(r, k, job)
    requires k.RejectOf? ==> k.offer in r.offers && !r.offers[k.offer].status.Pending?
    ensures RideInv(env.now, env.directory, r.(matching := r.matching.Add(k, job)))
  {
  }

  lemma ConcludeKeepsInv(env: Env, r: Ride, c: CallId)
    requires RideInv(env.now, env.directory, r)
    ensures RideInv(env.now, env.directory, Gateway.Conclude(env, r, c))
  {
    if c in r.calls {
      var r1 := r.(calls := r.calls - {c});
      assert CallInv(env.directory, r1, r.calls[c]) && RideInv(env.now, env.directory, r1);
      match r.calls[c]
      case Creating =>
      case AcceptChecked(d, o) =>
      case AcceptLocked(d, o) => AddLifeJobKeepsInv(env, r1, AcceptKey, Accept(d, o));
      case Rejecting(u, o) =>
        AddMatchJobKeepsInv(env, r1, RejectOf(o), MatchJob(CascadeReject, Some(1), Some([u]), None));
      case VerifyChecked(d, otp) => AddLifeJobKeepsInv(env, r1, VerifyKey(env.now), VerifyOtp(d, otp));
      case RiderCancelChecked => AddLifeJobKeepsInv(env, r1, CancelKey, Cancel(RiderCancelled));
      case DriverCancelChecked(d) => AddLifeJobKeepsInv(env, r1, DriverCancelKey, Cancel(DriverCancelled(d)));
      case CompleteChecked(d) => AddLifeJobKeepsInv(env, r1, CompleteKey, Complete(d));
    }
  }

  lemma FinishRequestKeepsInv(env: Env, r: Ride)
    requires RideInv(env.now, env.directory, r)
    ensures RideInv(env.now, env.directory, r.(requests := r.requests.Finish(RideRequest)))
  {
    var r1 := r.(requests := r.requests.Finish(RideRequest));
    forall c | c in r1.calls ensures CallInv(env.directory, r1, r1.calls[c]) {
      assert CallInv(env.directory, r, r.calls[c]);
    }
    hide RowInv;
    hide KeyInv;
  }

  lemma RunRequestKeepsInv(env: Env, r: Ride)
    requires RideInv(env.now, env.directory, r)
    ensures RideInv(env.now, env.directory, Cascade.RunRequest(r))
  {
    if RideRequest in r.requests.jobs {
      var r1 := r.(requests := r.requests.Finish(RideRequest));
      FinishRequestKeepsInv(env, r);
      hide RideInv;
      AddMatchJobKeepsInv(env, r1, First, FIRST_JOB);
    }
  }

  lemma PromoteKeepsInv(env: Env, r: Ride, k: MatchKey)
    requires RideInv(env.now, env.directory, r)
    ensures RideInv(env.now, env.directory, Cascade.Promote(env, r, k))
  {
  }

  lemma BeforeCascadeKeepsInv(env: Env, r: Ride, k: MatchKey)
    requires RideInv(env.now, env.directory, r) && k in r.matching.jobs && !Inert(r, r.matching.jobs[k])
    ensures RideInv(env.now, env.directory, BeforeCascade(r, k))
  {
    hide RowInv;
    var r1 := BeforeCascade(r, k);
    assert MatchJobInv(r, k, r.matching.jobs[k]);
    forall c | c in r1.calls ensures CallInv(env.directory, r1, r1.calls[c]) {
      assert CallInv(env.directory, r, r.calls[c]);
    }
    assert MatchInv(r1);
    assert LifeInv(env.directory, r1);
  }

  lemma InertKeepsInv(env: Env, r: Ride, k: MatchKey)
    requires RideInv(env.now, env.directory, r) && k in r.matching.jobs && Inert(r, r.matching.jobs[k])
    ensures RideInv(env.now, env.directory, r.(matching := r.matching.Finish(k)))
  {
    assert MatchJobInv(r, k, r.matching.jobs[k]);
  }

  lemma MakeOfferKeepsInv(env: Env, r: Ride, o: OfferId, offer: Offer, job: MatchJob)
    requires RideInv(env.now, env.directory, r) && o !in r.offers && job.name == OfferTimeout(o)
    ensures RideInv(env.now, env.directory,
              r.(offers := r.offers[o := offer], matching := r.matching.Add(TimeoutOf(o), job)))
  {
    assert TimeoutOf(o) !in r.matching.seen && RejectOf(o) !in r.matching.seen;
    var s := r.(offers := r.offers[o := offer], matching := r.matching.Add(TimeoutOf(o), job));
    assert MatchInv(s);
    assert LifeInv(env.directory, s);
  }

  lemma RunCascadeKeepsInv(env: Env, r: Ride, attempt: nat, skipped: seq<UserId>, geo: Geo, newId: OfferId)
    requires env.directory.Consistent() && RideInv(env.now, env.directory, r) && newId !in r.offers
    ensures RideInv(env.now, env.directory, RunCascade(env, r, attempt, skipped, geo, newId))
  {
    hide RideInv;
    match Decide(env, attempt, skipped, geo)
    case GiveUp =>
      AddLifeJobKeepsInv(env, r, CancelKey, Cancel(NoDrivers));
    case Continue(name, skip) =>
      AddMatchJobKeepsInv(env, r, Next(attempt + 1), MatchJob(name, Some(attempt + 1), Some(skip), None));
    case MakeOffer(user, driver) =>
      MakeOfferKeepsInv(env, r, newId, Offer(driver, Pending, env.now + Constants.OFFER_TIMEOUT_MS),
        MatchJob(OfferTimeout(newId), Some(attempt + 1), Some(skipped + [user]), Some(env.now + Constants.OFFER_TIMEOUT_MS)));
  }

  lemma RunMatchingKeepsInv(env: Env, r: Ride, k: MatchKey, geo: Geo, newId: OfferId)
    requires env.directory.Consistent() && RideInv(env.now, env.directory, r)
    ensures RideInv(env.now, env.directory, Cascade.RunMatching(env, r, k, geo, newId))
  {
    if Ready(r, k, newId) {
      if Inert(r, r.matching.jobs[k]) {
        InertKeepsInv(env, r, k);
      } else {
        BeforeCascadeKeepsInv(env, r, k);
        RunCascadeKeepsInv(env, BeforeCascade(r, k), r.matching.jobs[k].Attempt(), r.matching.jobs[k].Skipped(), geo, newId);
      }
    }
  }

  /** The handlers see the ride with their own job finished. While a ride is REQUESTED that job can
      only be an ACCEPT or a CANCEL, and both move the ride on. */
  ghost predicate Handling(now: nat, dir: Directory, r: Ride, k: LifeKey, job: LifeJob) {
    && RowInv(dir, r.trip)
    && KeyInv(now, r)
    && MatchInv(r)
    && (forall c :: c in r.calls ==> CallInv(dir, r, r.calls[c]))
    && r.lifecycle.WellFormed()
    && (forall key :: key in r.lifecycle.jobs ==> LifeJobInv(dir, r, key, r.lifecycle.jobs[key]))
    && LifeJobInv(dir, r, k, job) && k in r.lifecycle.seen && k !in r.lifecycle.jobs
    && (r.trip.status.Requested? ==> forall key: LifeKey :: key in r.lifecycle.seen && key != k ==> key in r.lifecycle.jobs)
    && (r.trip.status.Completed? ==> CompleteKey in r.lifecycle.seen)
    && (r.trip.driver.Some? ==> AcceptKey in r.lifecycle.seen && AcceptKey !in r.lifecycle.jobs)
  }

  lemma HandleAcceptKeepsInv(env: Env, r: Ride, k: LifeKey, d: DriverId, o: OfferId, otp: string)
    requires Handling(env.now, env.directory, r, k, Accept(d, o))
    ensures RideInv(env.now, env.directory, HandleAccept(env, r, d, o, otp).ride)
  {
    if r.trip.status.Requested? {
      var s := HandleAccept(env, r, d, o, otp).ride;
      forall c | c in s.calls ensures CallInv(env.directory, s, s.calls[c]) {
        assert CallInv(env.directory, r, r.calls[c]);
      }
      assert MatchInv(s);
      assert LifeInv(env.directory, s);
    }
  }

  /** Cancelling does not look at the OTP keys, so it also repairs a third failed attempt. */
  lemma HandleCancelKeepsInv(env: Env, r: Ride, k: LifeKey, job: LifeJob, attempts: Key<nat>)
    requires Handling(env.now, env.directory, r, k, job) && (job.Cancel? || r.trip.status.Accepted?)
    requires attempts == r.attempts || r.trip.status.Accepted?
    ensures RideInv(env.now, env.directory, HandleCancel(env, r.(attempts := attempts)).ride)
  {
    var s := HandleCancel(env, r.(attempts := attempts)).ride;
    forall c | c in s.calls ensures CallInv(env.directory, s, s.calls[c]) {
      assert CallInv(env.directory, r, r.calls[c]);
    }
    assert MatchInv(s);
    assert LifeInv(env.directory, s);
  }

  lemma RightGuessKeepsInv(env: Env, r: Ride, k: LifeKey, d: DriverId, guess: string)
    requires Handling(env.now, env.directory, r, k, VerifyOtp(d, guess)) && r.otpKey.Get(env.now) == Some(guess)
    ensures RideInv(env.now, env.directory, HandleVerifyOtp(env, r, guess).ride)
  {
  }

  lemma HandleVerifyOtpKeepsInv(env: Env, r: Ride, k: LifeKey, d: DriverId, guess: string)
    requires Handling(env.now, env.directory, r, k, VerifyOtp(d, guess))
    ensures RideInv(env.now, env.directory, HandleVerifyOtp(env, r, guess).ride)
  {
    var stored := r.otpKey.Get(env.now);
    if stored.Some? && guess == stored.value {
      RightGuessKeepsInv(env, r, k, d, guess);
    } else if stored.Some? {
      var attempts := Present(r.attempts.Get(env.now).GetOr(0) + 1, env.now + Constants.OTP_TTL_MS);
      HandleCancelKeepsInv(env, r, k, VerifyOtp(d, guess), attempts);
    }
  }

  lemma HandleCompleteKeepsInv(env: Env, r: Ride, k: LifeKey, d: DriverId)
    requires Handling(env.now, env.directory, r, k, Complete(d))
    ensures RideInv(env.now, env.directory, HandleComplete(env, r).ride)
  {
  }

  lemma RunLifecycleKeepsInv(env: Env, r: Ride, k: LifeKey, otp: string)
    requires RideInv(env.now, env.directory, r)
    ensures RideInv(env.now, env.directory, Lifecycle.RunLifecycle(env, r, k, otp).ride)
  {
    if k in r.lifecycle.jobs {
      var job := r.lifecycle.jobs[k];
      var r1 := r.(lifecycle := r.lifecycle.Finish(k));
      assert LifeJobInv(env.directory, r, k, job);
      assert Handling(env.now, env.directory, r1, k, job);
      match job
      case Accept(d, o) => HandleAcceptKeepsInv(env, r1, k, d, o, otp);
      case VerifyOtp(d, guess) => HandleVerifyOtpKeepsInv(env, r1, k, d, guess);
      case Cancel(_) => HandleCancelKeepsInv(env, r1, k, job, r1.attempts);
      case Complete(d) => HandleCompleteKeepsInv(env, r1, k, d);
    }
  }
}
