/** The OTP bound over timed runs. The attempts counter lives in a Redis key with its own TTL, so a
    counter that expired first would give a driver fresh guesses; it cannot, because every counted
    guess refreshes the counter's TTL while the OTP's was set once, at acceptance. */
module Otp {
  import opened Base
  import opened Rides
  import opened Lifecycle
  import opened Dispatch
  import opened Frames
  import opened Invariants
  import opened Runs

  /** `e` makes the worker compare a guess with a live OTP of ride `t`. */
  predicate IsGuess(w: World, e: Event, t: TripId) {
    && e.On? && e.trip == t && e.event.RunLifecycle?
    && t in w.rides && e.event.job in w.rides[t].lifecycle.jobs
    && w.rides[t].lifecycle.jobs[e.event.job].VerifyOtp?
    && w.rides[t].otpKey.Get(w.env.now).Some?
  }

  predicate IsRight(w: World, e: Event, t: TripId) {
    IsGuess(w, e, t) && w.rides[t].trip.otp == Some(w.rides[t].lifecycle.jobs[e.event.job].otp)
  }

  predicate IsWrong(w: World, e: Event, t: TripId) {
    IsGuess(w, e, t) && !IsRight(w, e, t)
  }

  function WrongGuesses(es: seq<Event>, t: TripId): nat {
    if es == [] then 0
    else
      var before := es[..|es|-1];
      WrongGuesses(before, t) + if IsWrong(Exec(before), es[|es|-1], t) then 1 else 0
  }

  function RightGuesses(es: seq<Event>, t: TripId): nat {
    if es == [] then 0
    else
      var before := es[..|es|-1];
      RightGuesses(before, t) + if IsRight(Exec(before), es[|es|-1], t) then 1 else 0
  }

  /** How the guesses counted over a run show in the ride. */
  ghost predicate Account(r: Ride, wrong: nat, right: nat) {
    match r.trip.status
    case Requested => wrong == 0 && right == 0
    case Accepted =>
      && right == 0 && wrong <= 2
      && (wrong == 0 ==> r.attempts.Absent?)
      && (wrong > 0 ==> r.attempts.Present? && r.attempts.value == wrong)
    case Started => wrong <= 2 && right == 1
    case Completed => wrong <= 2 && right == 1
    case Cancelled => wrong <= 3 && right == 0
  }

  /** The counter outlives the OTP: as long as the OTP reads as present, so does the counter. */
  lemma CounterOutlivesOtp(now: nat, dir: Directory, r: Ride)
    requires RideInv(now, dir, r) && r.otpKey.Get(now).Some?
    ensures r.attempts.Get(now) == if r.attempts.Present? then Some(r.attempts.value) else None
  {
  }

  lemma GuessIsAccounted(env: Env, r: Ride, k: LifeKey, otp: string, wrong: nat, right: nat)
    requires RideInv(env.now, env.directory, r) && Account(r, wrong, right)
    requires k in r.lifecycle.jobs
    ensures var s := Lifecycle.RunLifecycle(env, r, k, otp).ride;
            var guess := r.lifecycle.jobs[k].VerifyOtp? && r.otpKey.Get(env.now).Some?;
            var hit := guess && r.trip.otp == Some(r.lifecycle.jobs[k].otp);
            && Account(s, wrong + (if guess && !hit then 1 else 0), right + if hit then 1 else 0)
            && (wrong == 2 && guess && !hit ==> s.trip.status.Cancelled?)
  {
    assert LifeJobInv(env.directory, r, k, r.lifecycle.jobs[k]);
    if r.otpKey.Get(env.now).Some? {
      CounterOutlivesOtp(env.now, env.directory, r);
    }
  }

  lemma OtherStepsAreAccounted(env: Env, r: Ride, e: RideEvent, wrong: nat, right: nat)
    requires !e.RunLifecycle? || e.job !in r.lifecycle.jobs
    requires Account(r, wrong, right)
    ensures Account(RideStep(env, r, e).ride, wrong, right)
  {
    if IsGatewayEvent(e) {
      GatewayFrame(env, r, e);
    } else if !e.RunLifecycle? {
      MatchingFrame(env, r, e);
    }
  }

  lemma RideStepIsAccounted(w: World, t: TripId, e: RideEvent, wrong: nat, right: nat)
    requires WorldInv(w) && t in w.rides && Account(w.rides[t], wrong, right)
    ensures var s := RideStep(w.env, w.rides[t], e).ride;
            && Account(s, wrong + (if IsWrong(w, On(t, e), t) then 1 else 0), right + if IsRight(w, On(t, e), t) then 1 else 0)
            && (IsWrong(w, On(t, e), t) && wrong == 2 ==> s.trip.status.Cancelled?)
  {
    if e.RunLifecycle? && e.job in w.rides[t].lifecycle.jobs {
      GuessIsAccounted(w.env, w.rides[t], e.job, e.otp, wrong, right);
    } else {
      OtherStepsAreAccounted(w.env, w.rides[t], e, wrong, right);
    }
  }

  lemma StepIsAccounted(w: World, e: Event, t: TripId, wrong: nat, right: nat)
    requires WorldInv(w) && t in w.rides && Account(w.rides[t], wrong, right)
    ensures Account(Apply(w, e).rides[t], wrong + (if IsWrong(w, e, t) then 1 else 0), right + if IsRight(w, e, t) then 1 else 0)
    ensures IsWrong(w, e, t) && wrong == 2 ==> Apply(w, e).rides[t].trip.status.Cancelled?
  {
    hide RideStep;
    hide RideInv;
    hide Account;
    if e.On? && e.trip == t {
      RideStepIsAccounted(w, t, e.event, wrong, right);
    }
  }

  /** Over any timed run: at most three wrong guesses are counted; the third one leaves the ride
      CANCELLED; and a ride that STARTED did so by exactly one matching guess after at most two
      wrong ones. */
  lemma {:induction false} OtpBound(es: seq<Event>, t: TripId)
    ensures WrongGuesses(es, t) <= 3 && RightGuesses(es, t) <= 1
    ensures t in Exec(es).rides ==> Account(Exec(es).rides[t], WrongGuesses(es, t), RightGuesses(es, t))
    ensures t !in Exec(es).rides ==> WrongGuesses(es, t) == RightGuesses(es, t) == 0
    ensures WrongGuesses(es, t) == 3 ==> t in Exec(es).rides && Exec(es).rides[t].trip.status.Cancelled?
  {
    if es != [] {
      var before, e := es[..|es|-1], es[|es|-1];
      OtpBound(before, t);
      ReachableInv(before);
      if t in Exec(before).rides {
        StepIsAccounted(Exec(before), e, t, WrongGuesses(before, t), RightGuesses(before, t));
        ApplyIsLater(Exec(before), e, t);
      }
    }
  }
}
