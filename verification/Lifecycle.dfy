/** The lifecycle worker's handlers, each as one step of its ride. */
module Lifecycle {
  import opened Base
  import opened Constants
  import opened Fare
  import opened StateMachine
  import opened Rides

  /** What a step does to the shared `drivers:busy` set. */
  datatype BusyEffect = Keep | MarkBusy(user: UserId) | MarkFree(user: UserId) {
    function On(busy: set<UserId>): set<UserId> {
      match this
      case Keep => busy
      case MarkBusy(u) => busy + {u}
      case MarkFree(u) => busy - {u}
    }
  }

  datatype Error = InvalidTransition(from: Status, to: Status) | OfferNotFound | OtpNotFound | TripNotFound

  datatype Outcome = Done | Threw(error: Error)

  datatype Step = Step(ride: Ride, effect: BusyEffect, outcome: Outcome)

  function ThrowTransition(r: Ride, to: Status): Step {
    Step(r, Keep, Threw(InvalidTransition(r.trip.status, to)))
  }

  /** The delayed offer timeouts, which `handleAccept` removes. */
  function DelayedTimeouts(q: Queue<MatchKey, MatchJob>): set<MatchKey> {
    set k | k in q.jobs && q.jobs[k].name.OfferTimeout? && q.jobs[k].delayedUntil.Some?
  }

  function HandleAccept(env: Env, r: Ride, d: DriverId, o: OfferId, otp: string): Step {
    if !IsValidTransition(r.trip.status, Accepted) then ThrowTransition(r, Accepted)
    else if o !in r.offers then Step(r, Keep, Threw(OfferNotFound))
    else
      Step(r.(offers := ExpirePending(SetStatus(r.offers, o, OfferAccepted)),
              matching := r.matching.Remove(DelayedTimeouts(r.matching)),
              trip := r.trip.(driver := Some(d), status := Accepted, otp := Some(otp)),
              otpKey := Present(otp, env.now + OTP_TTL_MS)),
           if d in env.directory.byId then MarkBusy(env.directory.byId[d]) else Keep,
           Done)
  }

  /** The driver a finished or cancelled ride lets go. */
  function Release(env: Env, r: Ride): BusyEffect {
    if r.trip.driver.Some? && r.trip.driver.value in env.directory.byId
    then MarkFree(env.directory.byId[r.trip.driver.value]) else Keep
  }

  function HandleCancel(env: Env, r: Ride): Step {
    if !IsValidTransition(r.trip.status, Cancelled) then ThrowTransition(r, Cancelled)
    else
      Step(r.(trip := r.trip.(status := Cancelled), otpKey := Absent, attempts := Absent, lock := Absent,
              offers := ExpirePending(r.offers)),
           Release(env, r), Done)
  }

  function HandleVerifyOtp(env: Env, r: Ride, guess: string): Step {
    var stored := r.otpKey.Get(env.now);
    if stored.None? then Step(r, Keep, Threw(OtpNotFound))
    else
      var attempts := r.attempts.Get(env.now).GetOr(0) + 1;
      var r1 := r.(attempts := Present(attempts, env.now + OTP_TTL_MS));
      if guess == stored.value then
        if !IsValidTransition(r.trip.status, Started) then ThrowTransition(r1, Started)
        else Step(r1.(trip := r.trip.(status := Started), otpKey := Absent, attempts := Absent), Keep, Done)
      else if MAX_OTP_ATTEMPTS - attempts <= 0 then HandleCancel(env, r1)
      else Step(r1, Keep, Done)
  }

  /** The row of a completed trip; a completed row is left alone. */
  function CompletedTrip(trip: Trip, now: nat): Trip {
    if trip.status.Completed? then trip
    else trip.(status := Completed, fare := Some(FareOf(trip.meters)), distance := Some(StoredKm(trip.meters)),
               completedAt := Some(trip.completedAt.GetOr(now)))
  }

  function HandleComplete(env: Env, r: Ride): Step {
    if r.trip.status != Completed && !IsValidTransition(r.trip.status, Completed) then ThrowTransition(r, Completed)
    else
      Step(r.(trip := CompletedTrip(r.trip, env.now), lock := Absent, otpKey := Absent, attempts := Absent),
           Release(env, r), Done)
  }

  function Handle(env: Env, r: Ride, job: LifeJob, otp: string): Step {
    match job
    case Accept(d, o) => HandleAccept(env, r, d, o, otp)
    case VerifyOtp(_, guess) => HandleVerifyOtp(env, r, guess)
    case Cancel(_) => HandleCancel(env, r)
    case Complete(_) => HandleComplete(env, r)
  }

  /** `processRideLifecycle`; `otp` is the code `handleAccept` would generate. */
  function RunLifecycle(env: Env, r: Ride, k: LifeKey, otp: string): Step {
    if k !in r.lifecycle.jobs then Step(r, Keep, Done)
    else
      Handle(env, r.(lifecycle := r.lifecycle.Finish(k)), r.lifecycle.jobs[k], otp)
  }
}
