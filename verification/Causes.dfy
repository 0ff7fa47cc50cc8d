/** Why a trip is cancelled, started or completed: over whole runs, every such job and every such status goes back
    to a call of the person who may ask for it, to a search that found nobody, or to a third wrong guess. */
module Causes {
  import opened Base
  import opened StateMachine
  import opened Rides
  import opened Gateway
  import opened Cascade
  import opened Lifecycle
  import opened Dispatch
  import opened Frames
  import opened Invariants
  import opened Runs
  import opened Chain
  import opened Matching
  import opened CancelCloses

  datatype Cause =
    | RiderCancels
    | DriverCancels(driver: DriverId)
    | NobodyFound
    | ThirdWrongGuess
    | Submits(driver: DriverId, otp: string)
    | Completes(driver: DriverId)

  /** User `u` is driver `d`, and `d` drives a trip of that status. */
  ghost predicate DrivesAs(w: World, trip: Trip, u: UserId, d: DriverId, status: Status) {
    u in w.env.directory.byUser && w.env.directory.byUser[u] == d && trip.driver == Some(d) && trip.status == status
  }

  /** The run of `job` has nobody to ask: it comes after the tenth attempt, or it is not the first and within 10 km
      nobody may be asked. */
  ghost predicate FindsNobody(env: Env, job: MatchJob, geo: Geo) {
    geo.Valid() ==>
      AttemptOf(job) > 10 || (AttemptOf(job) != 1 && NobodyCanBeAsked(geo, 10.0, env.busy, SkippedOf(job)))
  }

  /** Event `e`, in state `w`, is this cause for trip `t`. A rider cancels his own trip, and a user without a rider
      record any, before it starts; its driver cancels, submits an OTP or completes in the status for it. */
  ghost predicate IsCause(w: World, e: Event, t: TripId, cause: Cause) {
    && e.On? && e.trip == t && t in w.rides
    && var r := w.rides[t];
       match cause
       case RiderCancels =>
         && e.event.Begin? && e.event.req.CancelRide?
         && (r.trip.status == Requested || r.trip.status == Accepted)
         && (e.event.req.user in w.env.riders ==> r.trip.rider == w.env.riders[e.event.req.user])
       case DriverCancels(d) =>
         e.event.Begin? && e.event.req.DriverCancelRide? && DrivesAs(w, r.trip, e.event.req.user, d, Accepted)
       case NobodyFound =>
         && e.event.RunMatching? && e.event.key in r.matching.jobs
         && FindsNobody(w.env, r.matching.jobs[e.event.key], e.event.geo)
       case ThirdWrongGuess =>
         && e.event.RunLifecycle? && e.event.job in r.lifecycle.jobs && r.lifecycle.jobs[e.event.job].VerifyOtp?
         && r.otpKey.Present? && w.env.now < r.otpKey.expiry && r.lifecycle.jobs[e.event.job].otp != r.otpKey.value
         && r.attempts.Present? && r.attempts.value == 2
       case Submits(d, otp) =>
         && e.event.Begin? && e.event.req.SubmitOtp? && e.event.req.otp == otp
         && DrivesAs(w, r.trip, e.event.req.user, d, Accepted)
       case Completes(d) =>
         e.event.Begin? && e.event.req.CompleteRide? && DrivesAs(w, r.trip, e.event.req.user, d, Started)
  }

  ghost predicate Happened(es: seq<Event>, t: TripId, cause: Cause) {
    exists j :: 0 <= j < |es| && IsCause(Exec(es[..j]), es[j], t, cause)
  }

  lemma HappenedEarlier(es: seq<Event>, n: nat, t: TripId, cause: Cause)
    requires n <= |es| && Happened(es[..n], t, cause)
    ensures Happened(es, t, cause)
  {
    hide IsCause;
    var j :| 0 <= j < n && IsCause(Exec(es[..n][..j]), es[..n][j], t, cause);
    assert es[..n][..j] == es[..j];
  }

  lemma HappensNow(es: seq<Event>, t: TripId, cause: Cause)
    requires es != [] && IsCause(Exec(es[..|es|-1]), es[|es|-1], t, cause)
    ensures Happened(es, t, cause)
  {
    hide IsCause;
  }

  /** What must have happened for a call to be there, for a job, and for a status. */
  function CauseOfCall(call: Call): Option<Cause> {
    match call
    case RiderCancelChecked => Some(RiderCancels)
    case DriverCancelChecked(d) => Some(DriverCancels(d))
    case VerifyChecked(d, otp) => Some(Submits(d, otp))
    case CompleteChecked(d) => Some(Completes(d))
    case _ => None
  }

  function CauseOfJob(job: LifeJob): Option<Cause> {
    match job
    case Accept(_, _) => None
    case Cancel(NoDrivers) => Some(NobodyFound)
    case Cancel(RiderCancelled) => Some(RiderCancels)
    case Cancel(DriverCancelled(d)) => Some(DriverCancels(d))
    case VerifyOtp(d, otp) => Some(Submits(d, otp))
    case Complete(d) => Some(Completes(d))
  }

  ghost predicate StatusExplained(es: seq<Event>, t: TripId, trip: Trip) {
    && (trip.status == Cancelled ==>
          || Happened(es, t, RiderCancels) || Happened(es, t, NobodyFound) || Happened(es, t, ThirdWrongGuess)
          || exists d :: trip.driver == Some(d) && Happened(es, t, DriverCancels(d)))
    && (trip.status == Started || trip.status == Completed ==>
          trip.driver.Some? && trip.otp.Some? && Happened(es, t, Submits(trip.driver.value, trip.otp.value)))
    && (trip.status == Completed ==> Happened(es, t, Completes(trip.driver.value)))
  }

  ghost predicate Caused(es: seq<Event>, t: TripId, r: Ride) {
    && (forall c :: c in r.calls && CauseOfCall(r.calls[c]).Some? ==> Happened(es, t, CauseOfCall(r.calls[c]).value))
    && (forall k :: k in r.lifecycle.jobs && CauseOfJob(r.lifecycle.jobs[k]).Some? ==>
          Happened(es, t, CauseOfJob(r.lifecycle.jobs[k]).value))
    && StatusExplained(es, t, r.trip)
  }

  lemma CausedEarlier(es: seq<Event>, n: nat, t: TripId, r: Ride)
    requires n <= |es| && Caused(es[..n], t, r)
    ensures Caused(es, t, r)
  {
    forall cause | Happened(es[..n], t, cause) ensures Happened(es, t, cause) {
      HappenedEarlier(es, n, t, cause);
    }
    hide Happened;
  }

  lemma FreshIsCaused(es: seq<Event>, t: TripId, rider: RiderId, meters: Fare.Meters, c: CallId)
    ensures Caused(es, t, FreshRide(rider, meters, map[c := Creating]))
  {
  }

  /** The guards let nobody else in. */
  lemma AdmittedIsCause(w: World, t: TripId, c: CallId, req: Request)
    requires t in w.rides
    requires var call := Admit(w.env, w.rides[t], req); call.Some? && CauseOfCall(call.value).Some?
    ensures IsCause(w, On(t, RideEvent.Begin(c, req)), t, CauseOfCall(Admit(w.env, w.rides[t], req).value).value)
  {
  }

  lemma BeginIsCaused(es: seq<Event>, t: TripId, r: Ride, c: CallId, req: Request)
    requires es != [] && es[|es|-1] == On(t, RideEvent.Begin(c, req))
    requires t in Exec(es[..|es|-1]).rides && Exec(es[..|es|-1]).rides[t] == r
    requires Caused(es, t, r)
    ensures Caused(es, t, Gateway.Begin(Exec(es[..|es|-1]).env, r, c, req))
  {
    hide Exec;
    hide Happened;
    hide IsCause;
    hide StatusExplained;
    var w := Exec(es[..|es|-1]);
    var call := Admit(w.env, r, req);
    if c !in r.calls && call.Some? && CauseOfCall(call.value).Some? {
      AdmittedIsCause(w, t, c, req);
      HappensNow(es, t, CauseOfCall(call.value).value);
    }
    hide Admit;
  }

  lemma ConcludeIsCaused(es: seq<Event>, t: TripId, env: Env, r: Ride, c: CallId)
    requires Caused(es, t, r)
    ensures Caused(es, t, Gateway.Conclude(env, r, c))
  {
    hide Happened;
    hide StatusExplained;
  }

  lemma TryLockIsCaused(es: seq<Event>, t: TripId, env: Env, r: Ride, c: CallId)
    requires Caused(es, t, r)
    ensures Caused(es, t, Gateway.TryLock(env, r, c))
  {
    hide Happened;
    hide StatusExplained;
  }

  lemma GivesUpIsCause(w: World, t: TripId, e: RideEvent)
    requires t in w.rides && RunsCascade(w.rides[t], e) && DecisionOf(w.env, w.rides[t], e).GiveUp?
    ensures IsCause(w, On(t, e), t, NobodyFound)
  {
    var job := w.rides[t].matching.jobs[e.key];
    if e.geo.Valid() {
      DecisionIsRight(w.env, job.Attempt(), job.Skipped(), e.geo);
    }
    hide NobodyCanBeAsked;
    hide Decide;
  }

  lemma GivesUpIff(env: Env, r: Ride, e: RideEvent)
    requires e.RunRequest? || e.Promote? || e.RunMatching?
    ensures RideStep(env, r, e).ride.lifecycle != r.lifecycle ==> RunsCascade(r, e) && DecisionOf(env, r, e).GiveUp?
  {
  }

  lemma MatchingIsCaused(es: seq<Event>, t: TripId, r: Ride, e: RideEvent)
    requires e.RunRequest? || e.Promote? || e.RunMatching?
    requires es != [] && es[|es|-1] == On(t, e)
    requires t in Exec(es[..|es|-1]).rides && Exec(es[..|es|-1]).rides[t] == r
    requires Caused(es, t, r)
    ensures Caused(es, t, RideStep(Exec(es[..|es|-1]).env, r, e).ride)
  {
    hide Exec;
    hide Happened;
    hide IsCause;
    hide StatusExplained;
    var w := Exec(es[..|es|-1]);
    MatchingFrame(w.env, r, e);
    GivesUpIff(w.env, r, e);
    hide RideStep;
    if RideStep(w.env, r, e).ride.lifecycle != r.lifecycle {
      GivesUpIsCause(w, t, e);
      HappensNow(es, t, NobodyFound);
    }
  }

  /** A job moves the status along one edge for its own reason. */
  lemma JobMoves(env: Env, r: Ride, k: LifeKey, otp: string)
    requires RideInv(env.now, env.directory, r) && k in r.lifecycle.jobs
    ensures var r', job := Lifecycle.RunLifecycle(env, r, k, otp).ride, r.lifecycle.jobs[k];
            && (r'.trip.status != r.trip.status && r'.trip.status == Started ==>
                  job.VerifyOtp? && r'.trip.driver == Some(job.driver) && r'.trip.otp == Some(job.otp))
            && (r'.trip.status != r.trip.status && r'.trip.status == Completed ==>
                  job.Complete? && r.trip.status == Started && r'.trip.driver == r.trip.driver == Some(job.driver)
                  && r'.trip.otp == r.trip.otp)
            && (job.Cancel? && job.reason.DriverCancelled? ==> r'.trip.driver == Some(job.reason.driver))
  {
    assert LifeJobInv(env.directory, r, k, r.lifecycle.jobs[k]);
  }

  lemma CancelledRow(env: Env, r: Ride, k: LifeKey, otp: string)
    requires RideInv(env.now, env.directory, r) && CancelsNow(env, r, k)
    ensures Lifecycle.RunLifecycle(env, r, k, otp).ride.trip == r.trip.(status := Cancelled)
  {
    CancelStep(env, r, k, otp);
    hide RideInv;
    hide CancelsNow;
    hide Lifecycle.RunLifecycle;
  }

  lemma CancelledIsExplained(es: seq<Event>, t: TripId, r: Ride, k: LifeKey, otp: string)
    requires es != [] && es[|es|-1] == On(t, RideEvent.RunLifecycle(k, otp))
    requires t in Exec(es[..|es|-1]).rides && Exec(es[..|es|-1]).rides[t] == r
    requires Caused(es, t, r)
    requires var env := Exec(es[..|es|-1]).env; RideInv(env.now, env.directory, r) && CancelsNow(env, r, k)
    ensures StatusExplained(es, t, Lifecycle.RunLifecycle(Exec(es[..|es|-1]).env, r, k, otp).ride.trip)
  {
    hide Exec;
    hide RideInv;
    hide Happened;
    var w := Exec(es[..|es|-1]);
    var job := r.lifecycle.jobs[k];
    JobMoves(w.env, r, k, otp);
    CancelsIff(w.env, r, k, otp);
    CancelledRow(w.env, r, k, otp);
    hide Lifecycle.RunLifecycle;
    if job.VerifyOtp? {
      assert IsCause(w, On(t, RideEvent.RunLifecycle(k, otp)), t, ThirdWrongGuess);
      HappensNow(es, t, ThirdWrongGuess);
    } else {
      assert CauseOfJob(job).Some?;
    }
    hide IsCause;
  }

  lemma StatusStaysExplained(es: seq<Event>, t: TripId, r: Ride, r': Ride)
    requires StatusExplained(es, t, r.trip) && Later(r, r')
    requires r'.trip.status == r.trip.status || r'.trip.status == Accepted
    ensures StatusExplained(es, t, r'.trip)
  {
    hide Happened;
  }

  lemma LifecycleIsExplained(es: seq<Event>, t: TripId, r: Ride, k: LifeKey, otp: string)
    requires es != [] && es[|es|-1] == On(t, RideEvent.RunLifecycle(k, otp))
    requires t in Exec(es[..|es|-1]).rides && Exec(es[..|es|-1]).rides[t] == r
    requires Caused(es, t, r)
    requires var env := Exec(es[..|es|-1]).env; RideInv(env.now, env.directory, r)
    ensures StatusExplained(es, t, Lifecycle.RunLifecycle(Exec(es[..|es|-1]).env, r, k, otp).ride.trip)
  {
    hide Exec;
    hide RideInv;
    hide Happened;
    hide Later;
    hide CancelsNow;
    var env := Exec(es[..|es|-1]).env;
    var r' := Lifecycle.RunLifecycle(env, r, k, otp).ride;
    LifecycleStepIsLater(env, r, k, otp);
    if k in r.lifecycle.jobs {
      JobMoves(env, r, k, otp);
    }
    CancelsIff(env, r, k, otp);
    if CancelsNow(env, r, k) {
      hide Lifecycle.RunLifecycle;
      CancelledIsExplained(es, t, r, k, otp);
    } else if r'.trip.status == r.trip.status || r'.trip.status == Accepted {
      StatusStaysExplained(es, t, r, r');
    } else {
      assert k in r.lifecycle.jobs;
      hide Lifecycle.RunLifecycle;
      assert r'.trip.status == Started || r'.trip.status == Completed;
      assert CauseOfJob(r.lifecycle.jobs[k]).Some?;
    }
  }

  lemma LifecycleIsCaused(es: seq<Event>, t: TripId, r: Ride, k: LifeKey, otp: string)
    requires es != [] && es[|es|-1] == On(t, RideEvent.RunLifecycle(k, otp))
    requires t in Exec(es[..|es|-1]).rides && Exec(es[..|es|-1]).rides[t] == r
    requires Caused(es, t, r)
    requires var env := Exec(es[..|es|-1]).env; RideInv(env.now, env.directory, r)
    ensures Caused(es, t, Lifecycle.RunLifecycle(Exec(es[..|es|-1]).env, r, k, otp).ride)
  {
    LifecycleIsExplained(es, t, r, k, otp);
    LifecycleFrame(Exec(es[..|es|-1]).env, r, k, otp);
    hide Exec;
    hide RideInv;
    hide Happened;
    hide StatusExplained;
    hide Lifecycle.RunLifecycle;
  }

  lemma StepIsCaused(es: seq<Event>, t: TripId, r: Ride)
    requires es != [] && es[|es|-1].On? && es[|es|-1].trip == t
    requires t in Exec(es[..|es|-1]).rides && Exec(es[..|es|-1]).rides[t] == r
    requires Caused(es, t, r)
    requires var env := Exec(es[..|es|-1]).env; RideInv(env.now, env.directory, r)
    ensures Caused(es, t, RideStep(Exec(es[..|es|-1]).env, r, es[|es|-1].event).ride)
  {
    hide Exec;
    hide RideInv;
    hide Caused;
    var env, e := Exec(es[..|es|-1]).env, es[|es|-1].event;
    match e
    case Begin(c, req) => BeginIsCaused(es, t, r, c, req);
    case TryLock(c) => TryLockIsCaused(es, t, env, r, c);
    case Conclude(c) => ConcludeIsCaused(es, t, env, r, c);
    case RunLifecycle(k, otp) => LifecycleIsCaused(es, t, r, k, otp);
    case _ => MatchingIsCaused(es, t, r, e);
  }

  /** In every state of every run: the calls of a trip that wait, its lifecycle jobs and its status have their
      causes. */
  lemma {:induction false} EverythingIsCaused(es: seq<Event>, t: TripId)
    requires t in Exec(es).rides
    ensures Caused(es, t, Exec(es).rides[t])
  {
    hide Caused;
    hide RideStep;
    hide RideInv;
    var n := |es| - 1;
    var before, e := es[..n], es[n];
    var w := Exec(before);
    if t in w.rides {
      EverythingIsCaused(before, t);
      ReachableInv(before);
      InvOf(w, t);
      RideAfter(w, e, t);
      CausedEarlier(es, n, t, w.rides[t]);
      hide Apply;
      if e.On? && e.trip == t {
        StepIsCaused(es, t, w.rides[t]);
      }
    } else {
      FreshIsCaused(es, t, w.env.riders[e.user], e.meters, e.call);
    }
  }

  /** In any run: a rider's CANCEL of a trip goes back to a call, made while it could be cancelled, of a user whose
      rider record is the trip's or who had none. */
  lemma RiderCancelIsTheRiders(es: seq<Event>, t: TripId, k: LifeKey) returns (j: nat)
    requires t in Exec(es).rides && k in Exec(es).rides[t].lifecycle.jobs
    requires Exec(es).rides[t].lifecycle.jobs[k] == Cancel(RiderCancelled)
    ensures j < |es| && es[j].On? && es[j].trip == t && es[j].event.Begin? && es[j].event.req.CancelRide?
    ensures var w, u := Exec(es[..j]), es[j].event.req.user;
            && t in w.rides && (w.rides[t].trip.status == Requested || w.rides[t].trip.status == Accepted)
            && (u in w.env.riders ==> Exec(es).rides[t].trip.rider == w.env.riders[u])
  {
    EverythingIsCaused(es, t);
    hide Exec;
    assert Happened(es, t, RiderCancels);
    j :| 0 <= j < |es| && IsCause(Exec(es[..j]), es[j], t, RiderCancels);
    RunIsLater(es, j, |es|, t);
    assert es[..|es|] == es;
  }
}
