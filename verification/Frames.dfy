/** What each kind of ride event leaves alone; the proofs about runs use these facts instead of
    unfolding every handler. */
module Frames {
  import opened Base
  import opened Rides
  import opened Gateway
  import opened Cascade
  import opened Lifecycle
  import opened Dispatch

  predicate IsGatewayEvent(e: RideEvent) {
    e.Begin? || e.TryLock? || e.Conclude?
  }

  /** `q` becomes `q'` by at most one `add`. */
  ghost predicate AddsAtMostOne<K(!new), J(!new)>(q: Queue<K, J>, q': Queue<K, J>) {
    q' == q || exists k, j :: k !in q.seen && q' == q.Add(k, j)
  }

  lemma GatewayFrame(env: Env, r: Ride, e: RideEvent)
    requires IsGatewayEvent(e)
    ensures var r' := RideStep(env, r, e).ride;
            && r'.trip == r.trip && r'.otpKey == r.otpKey && r'.attempts == r.attempts
            && AddsAtMostOne(r.lifecycle, r'.lifecycle)
            && RideStep(env, r, e).effect == Keep
  {
    if e.Conclude? && e.call in r.calls {
      match r.calls[e.call]
      case AcceptLocked(d, o) => assert RideStep(env, r, e).ride.lifecycle == r.lifecycle.Add(AcceptKey, Accept(d, o));
      case VerifyChecked(d, otp) =>
        assert RideStep(env, r, e).ride.lifecycle == r.lifecycle.Add(VerifyKey(env.now), VerifyOtp(d, otp));
      case RiderCancelChecked => assert RideStep(env, r, e).ride.lifecycle == r.lifecycle.Add(CancelKey, Cancel(RiderCancelled));
      case DriverCancelChecked(d) =>
        assert RideStep(env, r, e).ride.lifecycle == r.lifecycle.Add(DriverCancelKey, Cancel(DriverCancelled(d)));
      case CompleteChecked(d) => assert RideStep(env, r, e).ride.lifecycle == r.lifecycle.Add(CompleteKey, Complete(d));
      case _ =>
    }
  }

  /** The only way to queue an ACCEPT is to conclude a call that holds the lock. */
  lemma ConcludeFrame(env: Env, r: Ride, c: CallId)
    ensures var r' := Gateway.Conclude(env, r, c);
            && (forall c' :: c' in r'.calls ==> c' in r.calls && r'.calls[c'] == r.calls[c'])
            && (AcceptKey in r'.lifecycle.jobs ==>
                  || (AcceptKey in r.lifecycle.jobs && r'.lifecycle.jobs[AcceptKey] == r.lifecycle.jobs[AcceptKey])
                  || (c in r.calls && r.calls[c].AcceptLocked?
                      && r'.lifecycle.jobs[AcceptKey] == Accept(r.calls[c].driver, r.calls[c].offer)))
  {
  }

  lemma RunCascadeFrame(env: Env, r: Ride, attempt: nat, skipped: seq<UserId>, geo: Geo, newId: OfferId)
    ensures var r' := RunCascade(env, r, attempt, skipped, geo, newId);
            && r'.trip == r.trip && r'.otpKey == r.otpKey && r'.attempts == r.attempts
            && r'.lock == r.lock && r'.calls == r.calls
            && (r'.lifecycle == r.lifecycle || r' == CancelNoDrivers(r'.(lifecycle := r.lifecycle)))
  {
  }

  lemma MatchingFrame(env: Env, r: Ride, e: RideEvent)
    requires e.RunRequest? || e.Promote? || e.RunMatching?
    ensures var r' := RideStep(env, r, e).ride;
            && r'.trip == r.trip && r'.otpKey == r.otpKey && r'.attempts == r.attempts
            && r'.lock == r.lock && r'.calls == r.calls
            && (r'.lifecycle == r.lifecycle || r' == CancelNoDrivers(r'.(lifecycle := r.lifecycle)))
            && AddsAtMostOne(r.lifecycle, r'.lifecycle)
            && RideStep(env, r, e).effect == Keep
  {
    hide Lifecycle.RunLifecycle;
    hide Gateway.Conclude;
    hide RunCascade;
    if e.RunMatching? && Ready(r, e.key, e.newId) && !Inert(r, r.matching.jobs[e.key]) {
      var job := r.matching.jobs[e.key];
      RunCascadeFrame(env, BeforeCascade(r, e.key), job.Attempt(), job.Skipped(), e.geo, e.newId);
    }
    hide Inert;
    var r' := RideStep(env, r, e).ride;
    if r'.lifecycle != r.lifecycle {
      assert r'.lifecycle == r.lifecycle.Add(CancelKey, Cancel(NoDrivers));
    }
  }

  lemma LifecycleFrame(env: Env, r: Ride, k: LifeKey, otp: string)
    ensures var r' := Lifecycle.RunLifecycle(env, r, k, otp).ride;
            && r'.calls == r.calls && r'.requests == r.requests
            && r'.lifecycle == (if k in r.lifecycle.jobs then r.lifecycle.Finish(k) else r.lifecycle)
            && r'.offers.Keys == r.offers.Keys
  {
  }

  /** The driver of a trip changes only when its ACCEPT job succeeds. */
  lemma DriverFrame(env: Env, r: Ride, k: LifeKey, otp: string)
    ensures var r' := Lifecycle.RunLifecycle(env, r, k, otp).ride;
            r'.trip.driver != r.trip.driver ==>
              && k in r.lifecycle.jobs && r.lifecycle.jobs[k].Accept?
              && r.trip.status.Requested?
              && r'.trip.driver == Some(r.lifecycle.jobs[k].driver)
  {
  }
}
