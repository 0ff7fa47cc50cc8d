/** What a cancellation leaves of the ride's matching, by CANCEL job or by the third wrong guess: on the ride,
    and on the shared stores. */
module CancelCloses {
  import opened Base
  import opened StateMachine
  import opened Rides
  import opened Gateway
  import opened Cascade
  import opened Lifecycle
  import opened Invariants
  import opened Storage
  import opened StoreOps
  import opened StoreEffects

  /** Job `k`, if run now, cancels ride `r`: a CANCEL before the start, or a wrong guess after two others. */
  ghost predicate CancelsNow(env: Env, r: Ride, k: LifeKey) {
    && k in r.lifecycle.jobs
    && var job := r.lifecycle.jobs[k];
       || (job.Cancel? && (r.trip.status == Requested || r.trip.status == Accepted))
       || (job.VerifyOtp? && r.otpKey.Present? && env.now < r.otpKey.expiry && job.otp != r.otpKey.value
           && r.attempts.Present? && r.attempts.value == 2)
  }

  /** A ride becomes CANCELLED by exactly these jobs. */
  lemma CancelsIff(env: Env, r: Ride, k: LifeKey, otp: string)
    requires RideInv(env.now, env.directory, r)
    ensures var r' := Lifecycle.RunLifecycle(env, r, k, otp).ride;
            r.trip.status != Cancelled && r'.trip.status == Cancelled <==> CancelsNow(env, r, k)
  {
    if k in r.lifecycle.jobs {
      assert LifeJobInv(env.directory, r, k, r.lifecycle.jobs[k]);
    }
  }

  lemma CancelStep(env: Env, r: Ride, k: LifeKey, otp: string)
    requires RideInv(env.now, env.directory, r) && CancelsNow(env, r, k)
    ensures var r1 := r.(lifecycle := r.lifecycle.Finish(k), attempts := Absent);
            var s, s1 := Lifecycle.RunLifecycle(env, r, k, otp), HandleCancel(env, r1);
            s == s1 && s1.outcome == Done
  {
    assert LifeJobInv(env.directory, r, k, r.lifecycle.jobs[k]);
  }

  /** After a cancellation the row differs in its status only; lock, OTP and attempts keys are gone; exactly the
      offers that were PENDING are EXPIRED and the others as they were; the driver is no longer busy; calls and
      the other jobs stay. But a timeout only finishes, whenever it runs, and an acceptance of any of the
      offers is refused, whoever asks and whenever. */
  lemma CancelClosesMatching(env: Env, r: Ride, k: LifeKey, otp: string)
    requires RideInv(env.now, env.directory, r) && CancelsNow(env, r, k)
    ensures var step := Lifecycle.RunLifecycle(env, r, k, otp);
            var r' := step.ride;
            && step.outcome == Done
            && r'.trip == r.trip.(status := Cancelled)
            && r'.lock == Absent && r'.otpKey == Absent && r'.attempts == Absent
            && r'.offers.Keys == r.offers.Keys
            && (forall o :: o in r.offers ==>
                  r'.offers[o] == if r.offers[o].status == Pending then r.offers[o].(status := Expired) else r.offers[o])
            && r'.requests == r.requests && r'.matching == r.matching && r'.calls == r.calls
            && r'.lifecycle.jobs == r.lifecycle.jobs - {k} && r'.lifecycle.seen == r.lifecycle.seen
            && (forall busy :: step.effect.On(busy) ==
                  if r.trip.driver.Some? && r.trip.driver.value in env.directory.byId
                  then busy - {env.directory.byId[r.trip.driver.value]} else busy)
            && (forall later, key, geo, newId :: Ready(r', key, newId) && r'.matching.jobs[key].name.OfferTimeout? ==>
                  Cascade.RunMatching(later, r', key, geo, newId) == r'.(matching := r'.matching.Finish(key)))
            && (forall later, u, o :: Admit(later, r', AcceptRide(u, o)) == None)
  {
    CancelStep(env, r, k, otp);
    hide RideInv;
    hide CancelsNow;
    hide Lifecycle.RunLifecycle;
  }

  // ---- The same on the stores -------------------------------------------------------------

  /** Job `job` of trip `t`, if run now, cancels it. */
  ghost predicate StoreCancels(s: Store, t: TripId, job: LifeJob) {
    && t in s.trips && (s.trips[t].status == Requested || s.trips[t].status == Accepted)
    && (job.Cancel? || (job.VerifyOtp? && OtpIsLive(s, t) && job.otp != s.otps[t].value && GuessNumber(s, t) >= 3))
  }

  lemma CancelWrites(s: Store, t: TripId, job: LifeJob, otp: string)
    requires StoreCancels(s, t, job)
    ensures var s' := DoAll(s, t, HandlerOps(s, t, job, otp));
            && PendingExpired(s.offers, s'.offers, t)
            && s' == s.(trips := s.trips[t := s.trips[t].(status := Cancelled)],
                        env := s.env.(busy := s.env.busy - DriversUser(s, s.trips[t].driver)),
                        otps := s.otps - {t}, attempts := s.attempts - {t}, locks := s.locks - {t}, offers := s'.offers)
  {
    if job.Cancel? {
      CancelEffect(s, t);
    } else {
      var counted := s.(attempts := s.attempts[t := Present(GuessNumber(s, t), s.env.now + 900_000)]);
      VerifyEffect(s, t, job.otp);
      CancelEffect(counted, t);
      assert counted.attempts - {t} == s.attempts - {t};
      assert DriversUser(counted, s.trips[t].driver) == DriversUser(s, s.trips[t].driver);
    }
    hide DoAll;
    hide CancelOps;
    hide VerifyOtpOps;
    hide PendingExpired;
    hide DriversUser;
  }

  lemma ExpiredAreClosed(s: Store, offers: map<OfferId, OfferRow>, t: TripId, at: TripId, u: UserId, o: OfferId,
                         job: MatchJob, geo: Geo, newId: OfferId)
    requires PendingExpired(offers, s.offers, t) && o in s.offers && s.offers[o].trip == t
    ensures StoreAdmit(s, at, Request.AcceptRide(u, o)) == None
    ensures job.name == OfferTimeout(o) ==> MatchingJobOps(s, job, geo, newId) == []
  {
  }

  /** A cancellation on the stores: the row's status, the driver's busy mark, the three keys and the trip's PENDING
      offers change, and nothing else. Then no offer of the trip can be accepted, for whichever trip it is
      named, and the timeout of none of them writes anything. */
  lemma CancelClosesOnStores(s: Store, t: TripId, job: LifeJob, otp: string)
    requires StoreCancels(s, t, job)
    ensures var s' := DoAll(s, t, HandlerOps(s, t, job, otp));
            && PendingExpired(s.offers, s'.offers, t)
            && s' == s.(trips := s.trips[t := s.trips[t].(status := Cancelled)],
                        env := s.env.(busy := s.env.busy - DriversUser(s, s.trips[t].driver)),
                        otps := s.otps - {t}, attempts := s.attempts - {t}, locks := s.locks - {t}, offers := s'.offers)
            && (forall at, u, o :: o in s'.offers && s'.offers[o].trip == t ==>
                  StoreAdmit(s', at, Request.AcceptRide(u, o)) == None)
            && (forall o, timeout: MatchJob, geo, newId ::
                  o in s'.offers && s'.offers[o].trip == t && timeout.name == OfferTimeout(o) ==>
                  MatchingJobOps(s', timeout, geo, newId) == [])
  {
    CancelWrites(s, t, job, otp);
    var s' := DoAll(s, t, HandlerOps(s, t, job, otp));
    hide DoAll;
    hide HandlerOps;
    hide PendingExpired;
    forall at, u, o | o in s'.offers && s'.offers[o].trip == t
      ensures StoreAdmit(s', at, Request.AcceptRide(u, o)) == None
    {
      ExpiredAreClosed(s', s.offers, t, at, u, o, FIRST_JOB, Geo([], map[], {}), o);
    }
    forall o, timeout: MatchJob, geo, newId |
      o in s'.offers && s'.offers[o].trip == t && timeout.name == OfferTimeout(o)
      ensures MatchingJobOps(s', timeout, geo, newId) == []
    {
      ExpiredAreClosed(s', s.offers, t, t, "", o, timeout, geo, newId);
    }
  }
}
