/** Agreement between the shared busy set and the trips. The handlers only add the driver they assign
    and remove the driver they let go, so no one is busy without a ride; the converse, and that no
    driver has two rides at once, hold exactly as long as no ACCEPT names a busy driver. */
module Busy {
  import opened Base
  import opened StateMachine
  import opened Rides
  import opened Lifecycle
  import opened Dispatch
  import opened Frames
  import opened Invariants
  import opened Runs

  /** The user who is driving this ride now, if anyone is. */
  function ActiveUser(dir: Directory, r: Ride): Option<UserId> {
    if r.trip.status in {Accepted, Started} && r.trip.driver.Some? && r.trip.driver.value in dir.byId
    then Some(dir.byId[r.trip.driver.value]) else None
  }

  predicate Drives(w: World, u: UserId, t: TripId) {
    t in w.rides && ActiveUser(w.env.directory, w.rides[t]) == Some(u)
  }

  ghost predicate BusyHaveRides(w: World) {
    forall u :: u in w.env.busy ==> exists t :: Drives(w, u, t)
  }

  ghost predicate DriversAreBusy(w: World) {
    forall u, t :: Drives(w, u, t) ==> u in w.env.busy
  }

  ghost predicate OneRidePerDriver(w: World) {
    forall u, t, t' :: Drives(w, u, t) && Drives(w, u, t') ==> t == t'
  }

  /** The busy set is exactly the set of drivers of active rides, each with one ride. */
  ghost predicate BusyAgrees(w: World) {
    BusyHaveRides(w) && DriversAreBusy(w) && OneRidePerDriver(w)
  }

  /** Processed now, `job` makes user `u` busy: an ACCEPT of a REQUESTED trip. */
  predicate Marks(dir: Directory, trip: Trip, job: LifeJob, u: UserId) {
    job.Accept? && trip.status.Requested? && job.driver in dir.byId && dir.byId[job.driver] == u
  }

  predicate ThirdWrongGuess(now: nat, otp: Key<string>, attempts: Key<nat>, guess: string) {
    otp.Get(now).Some? && otp.Get(now).value != guess && attempts.Get(now).GetOr(0) + 1 >= 3
  }

  /** Processed now, `job` lets user `u` go, who drives the trip: a CANCEL or a third wrong guess before the
      start, a COMPLETE after it. */
  predicate Frees(dir: Directory, now: nat, trip: Trip, otp: Key<string>, attempts: Key<nat>, job: LifeJob, u: UserId) {
    && trip.driver.Some? && trip.driver.value in dir.byId && dir.byId[trip.driver.value] == u
    && match job
       case Accept(_, _) => false
       case Cancel(_) => trip.status.Accepted?
       case Complete(_) => trip.status.Started?
       case VerifyOtp(_, guess) => trip.status.Accepted? && ThirdWrongGuess(now, otp, attempts, guess)
  }

  /** `e` runs an ACCEPT job of a REQUESTED trip for a driver who is busy. */
  predicate AcceptsBusyDriver(w: World, e: Event) {
    && e.On? && e.trip in w.rides && e.event.RunLifecycle?
    && var r := w.rides[e.trip];
    && e.event.job in r.lifecycle.jobs
    && exists u :: u in w.env.busy && Marks(w.env.directory, r.trip, r.lifecycle.jobs[e.event.job], u)
  }

  /** What a job does to the busy set can be read off the trip, its keys and the job beforehand. */
  lemma EffectIsForeseen(env: Env, r: Ride, k: LifeKey, otp: string, u: UserId)
    requires RideInv(env.now, env.directory, r) && k in r.lifecycle.jobs
    ensures var effect, job := Lifecycle.RunLifecycle(env, r, k, otp).effect, r.lifecycle.jobs[k];
            && (effect == MarkBusy(u) <==> Marks(env.directory, r.trip, job, u))
            && (effect == MarkFree(u) <==> Frees(env.directory, env.now, r.trip, r.otpKey, r.attempts, job, u))
  {
    assert LifeJobInv(env.directory, r, k, r.lifecycle.jobs[k]);
  }

  /** A step's effect on the busy set is exactly the change in who drives its ride. */
  lemma EffectTracksActivity(env: Env, r: Ride, k: LifeKey, otp: string)
    requires RideInv(env.now, env.directory, r)
    ensures var s := Lifecycle.RunLifecycle(env, r, k, otp);
            var before, after := ActiveUser(env.directory, r), ActiveUser(env.directory, s.ride);
            match s.effect
            case Keep => after == before
            case MarkBusy(u) => before == None && after == Some(u)
            case MarkFree(u) => before == Some(u) && after == None
  {
    if k in r.lifecycle.jobs {
      assert LifeJobInv(env.directory, r, k, r.lifecycle.jobs[k]);
    }
  }

  lemma RideEffectTracksActivity(env: Env, r: Ride, e: RideEvent)
    requires RideInv(env.now, env.directory, r)
    ensures var s := RideStep(env, r, e);
            var before, after := ActiveUser(env.directory, r), ActiveUser(env.directory, s.ride);
            match s.effect
            case Keep => after == before
            case MarkBusy(u) => before == None && after == Some(u)
            case MarkFree(u) => before == Some(u) && after == None
  {
    if IsGatewayEvent(e) {
      GatewayFrame(env, r, e);
    } else if e.RunLifecycle? {
      EffectTracksActivity(env, r, e.job, e.otp);
    } else {
      MatchingFrame(env, r, e);
    }
  }

  /** How one event changes the busy set and who drives what. */
  ghost predicate BusyStep(w: World, w': World, t: TripId, effect: BusyEffect) {
    && w'.env.busy == effect.On(w.env.busy)
    && (forall u, t' :: t' != t ==> (Drives(w', u, t') <==> Drives(w, u, t')))
    && match effect
       case Keep => forall u :: Drives(w', u, t) <==> Drives(w, u, t)
       case MarkBusy(v) => (forall u :: !Drives(w, u, t)) && forall u :: Drives(w', u, t) <==> u == v
       case MarkFree(v) => (forall u :: Drives(w, u, t) <==> u == v) && forall u :: !Drives(w', u, t)
  }

  lemma RideEventIsBusyStep(w: World, t: TripId, e: RideEvent)
    requires WorldInv(w) && t in w.rides
    ensures BusyStep(w, Apply(w, On(t, e)), t, RideStep(w.env, w.rides[t], e).effect)
  {
    hide RideStep;
    hide RideInv;
    RideEffectTracksActivity(w.env, w.rides[t], e);
  }

  lemma RegisterIsBusyStep(w: World, u: UserId, d: DriverId)
    requires WorldInv(w)
    ensures BusyStep(w, Apply(w, RegisterDriver(u, d)), "", Keep)
  {
    var w' := Apply(w, RegisterDriver(u, d));
    forall u', t ensures Drives(w', u', t) <==> Drives(w, u', t) {
      if t in w.rides {
        assert RideInv(w.env.now, w.env.directory, w.rides[t]);
      }
    }
  }

  lemma ApplyIsBusyStep(w: World, e: Event) returns (t: TripId, effect: BusyEffect)
    requires WorldInv(w)
    ensures BusyStep(w, Apply(w, e), t, effect)
    ensures e.On? && e.trip in w.rides ==> t == e.trip && effect == RideStep(w.env, w.rides[e.trip], e.event).effect
    ensures !(e.On? && e.trip in w.rides) ==> effect == Keep
  {
    hide RideStep;
    hide RideInv;
    t, effect := "", Keep;
    match e
    case On(trip, event) =>
      if trip in w.rides {
        t, effect := trip, RideStep(w.env, w.rides[trip], event).effect;
        RideEventIsBusyStep(w, trip, event);
      }
    case CreateRide(_, trip, _, _) => t := trip;
    case RegisterDriver(u, d) => RegisterIsBusyStep(w, u, d);
    case _ =>
  }

  lemma StepKeepsBusyHaveRides(w: World, w': World, t: TripId, effect: BusyEffect)
    requires BusyStep(w, w', t, effect) && BusyHaveRides(w)
    ensures BusyHaveRides(w')
  {
    forall u | u in w'.env.busy ensures exists t' :: Drives(w', u, t') {
      if effect.MarkBusy? && u == effect.user {
        assert Drives(w', u, t);
      } else {
        var t' :| Drives(w, u, t');
        assert Drives(w', u, t');
      }
    }
  }

  lemma StepKeepsAgreement(w: World, w': World, t: TripId, effect: BusyEffect)
    requires BusyStep(w, w', t, effect) && BusyAgrees(w)
    ensures BusyAgrees(w') <==> !(effect.MarkBusy? && effect.user in w.env.busy)
  {
    StepKeepsBusyHaveRides(w, w', t, effect);
    if effect.MarkBusy? && effect.user in w.env.busy {
      var t' :| Drives(w, effect.user, t');
      assert Drives(w', effect.user, t') && Drives(w', effect.user, t) && t' != t;
    } else {
      forall u, t' | Drives(w', u, t') ensures u in w'.env.busy {
        if effect.MarkFree? {
          assert Drives(w, effect.user, t);
        }
        assert Drives(w, u, t') || t' == t;
      }
      forall u, t1, t2 | Drives(w', u, t1) && Drives(w', u, t2) ensures t1 == t2 {
        assert t1 != t ==> Drives(w, u, t1);
        assert t2 != t ==> Drives(w, u, t2);
      }
    }
  }

  /** In every reachable state, whoever is busy is driving an ACCEPTED or STARTED ride. */
  lemma {:induction false} NobodyBusyWithoutRide(es: seq<Event>)
    ensures BusyHaveRides(Exec(es))
  {
    if es != [] {
      var before := es[..|es|-1];
      NobodyBusyWithoutRide(before);
      ReachableInv(before);
      var t, effect := ApplyIsBusyStep(Exec(before), es[|es|-1]);
      StepKeepsBusyHaveRides(Exec(before), Exec(es), t, effect);
    }
  }

  /** The busy set agrees with the trips after every prefix of the run. */
  ghost predicate AgreesThroughout(es: seq<Event>) {
    BusyAgrees(Exec(es)) && (es != [] ==> AgreesThroughout(es[..|es|-1]))
  }

  predicate NoBusyAccept(es: seq<Event>) {
    es != [] ==> !AcceptsBusyDriver(Exec(es[..|es|-1]), es[|es|-1]) && NoBusyAccept(es[..|es|-1])
  }

  lemma MarksOnlyInLifecycle(env: Env, r: Ride, e: RideEvent)
    ensures RideStep(env, r, e).effect != Keep ==> e.RunLifecycle? && e.job in r.lifecycle.jobs
  {
  }

  lemma MarksBusyIff(w: World, t: TripId, e: RideEvent)
    requires WorldInv(w) && t in w.rides
    ensures var effect := RideStep(w.env, w.rides[t], e).effect;
            AcceptsBusyDriver(w, On(t, e)) <==> effect.MarkBusy? && effect.user in w.env.busy
  {
    if e.RunLifecycle? && e.job in w.rides[t].lifecycle.jobs {
      hide Lifecycle.RunLifecycle;
      hide RideInv;
      var effect := Lifecycle.RunLifecycle(w.env, w.rides[t], e.job, e.otp).effect;
      forall u ensures effect == MarkBusy(u) <==> Marks(w.env.directory, w.rides[t].trip, w.rides[t].lifecycle.jobs[e.job], u) {
        EffectIsForeseen(w.env, w.rides[t], e.job, e.otp, u);
      }
      if effect.MarkBusy? {
        assert Marks(w.env.directory, w.rides[t].trip, w.rides[t].lifecycle.jobs[e.job], effect.user);
      }
    } else {
      MarksOnlyInLifecycle(w.env, w.rides[t], e);
    }
  }

  lemma ApplyKeepsAgreement(w: World, e: Event)
    requires WorldInv(w) && BusyAgrees(w)
    ensures BusyAgrees(Apply(w, e)) <==> !AcceptsBusyDriver(w, e)
  {
    var t, effect := ApplyIsBusyStep(w, e);
    StepKeepsAgreement(w, Apply(w, e), t, effect);
    if e.On? && e.trip in w.rides {
      MarksBusyIff(w, e.trip, e.event);
    }
  }

  /** The busy set agrees with the trips all along a run exactly when no ACCEPT of the run succeeds for a
      driver who is busy at that moment; the code does not look again. */
  lemma {:induction false} AgreementIffNoBusyAccept(es: seq<Event>)
    ensures AgreesThroughout(es) <==> NoBusyAccept(es)
  {
    if es == [] {
      assert BusyAgrees(EMPTY_WORLD);
    } else {
      var before := es[..|es|-1];
      AgreementIffNoBusyAccept(before);
      ReachableInv(before);
      if AgreesThroughout(before) {
        ApplyKeepsAgreement(Exec(before), es[|es|-1]);
      }
    }
  }
}
