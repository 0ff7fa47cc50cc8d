/** Where the values of a trip come from, over whole runs: its journey from the call that created it, its offers
    from the cascade runs that made them, its OTP from its acceptance, its fare and completion time from its
    completion. */
module Origins {
  import opened Base
  import opened StateMachine
  import opened Rides
  import opened Cascade
  import opened Lifecycle
  import opened Dispatch
  import opened Frames
  import opened Invariants
  import opened Runs
  import opened Chain
  import opened Matching

  // ---- The journey ------------------------------------------------------------------------

  /** The `i`-th event creates trip `t`, for a user with a rider record. */
  ghost predicate CreatedAt(es: seq<Event>, i: nat, t: TripId) {
    && i < |es| && es[i].CreateRide? && es[i].trip == t
    && t !in Exec(es[..i]).rides && es[i].user in Exec(es[..i]).env.riders
  }

  /** What a trip is when it is created: REQUESTED by the rider of the call, over the distance of the call, and
      nothing else about it is known. */
  lemma CreatedTripIs(es: seq<Event>, i: nat, t: TripId)
    requires CreatedAt(es, i, t)
    ensures t in Exec(es[..i+1]).rides
    ensures var r := Exec(es[..i+1]).rides[t];
            && r.trip.rider == Exec(es[..i]).env.riders[es[i].user] && r.trip.meters == es[i].meters
            && r.trip.status == Requested && r.trip.driver == None && r.trip.otp == None
            && r.trip.fare == None && r.trip.distance == None && r.trip.completedAt == None
            && r.offers == map[] && r.lock == Absent && r.otpKey == Absent && r.attempts == Absent
  {
    assert es[..i+1][..i] == es[..i];
  }

  lemma CreatedIsThere(es: seq<Event>, i: nat, t: TripId)
    requires CreatedAt(es, i, t)
    ensures t in Exec(es).rides
    ensures Exec(es).rides[t].trip.rider == Exec(es[..i]).env.riders[es[i].user]
    ensures Exec(es).rides[t].trip.meters == es[i].meters
  {
    CreatedTripIs(es, i, t);
    hide Exec;
    RunIsLater(es, i + 1, |es|, t);
    assert es[..|es|] == es;
  }

  lemma CreatedOnce(es: seq<Event>, i: nat, j: nat, t: TripId)
    requires i < j && CreatedAt(es, i, t)
    ensures !CreatedAt(es, j, t)
  {
    if j < |es| {
      assert es[..j][..i] == es[..i] && es[..j][i] == es[i];
      hide Exec;
      CreatedIsThere(es[..j], i, t);
    }
  }

  /** Every trip was requested, once. */
  lemma {:induction false} EveryTripWasRequested(es: seq<Event>, t: TripId) returns (i: nat)
    requires t in Exec(es).rides
    ensures CreatedAt(es, i, t)
    ensures forall j: nat :: CreatedAt(es, j, t) ==> j == i
  {
    var n := |es| - 1;
    if t in Exec(es[..n]).rides {
      i := EveryTripWasRequested(es[..n], t);
      assert es[..n][..i] == es[..i];
    } else {
      i := n;
    }
    assert CreatedAt(es, i, t);
    hide Exec;
    hide CreatedAt;
    forall j: nat | CreatedAt(es, j, t) ensures j == i {
      if i < j {
        CreatedOnce(es, i, j, t);
      } else if j < i {
        CreatedOnce(es, j, i, t);
      }
    }
  }

  /** In every state of every run the rider and the distance of a trip are those of the call that created it, and
      once it is COMPLETED its fare is the tariff for that distance, to the cent: 50, and 12 a kilometre. */
  lemma FareIsOfTheRequest(es: seq<Event>, i: nat, t: TripId)
    requires CreatedAt(es, i, t)
    ensures t in Exec(es).rides
    ensures var trip := Exec(es).rides[t].trip;
            var km := es[i].meters / 1000.0;
            && trip.rider == Exec(es[..i]).env.riders[es[i].user] && trip.meters == es[i].meters
            && (trip.status == Completed ==>
                  && trip.fare.Some? && -0.005 < trip.fare.value - (50.0 + 12.0 * km) <= 0.005
                  && Fare.IsWhole(trip.fare.value, 100) && trip.fare.value >= 50.0
                  && trip.distance.Some? && -0.005 < trip.distance.value - km <= 0.005
                  && Fare.IsWhole(trip.distance.value, 100))
            && (trip.status != Completed ==> trip.fare == None && trip.distance == None)
  {
    CreatedIsThere(es, i, t);
    ReachableInv(es);
    InvOf(Exec(es), t);
    Fare.FareIsTariff(es[i].meters);
    hide Exec;
    hide KeyInv;
    hide LifeInv;
    hide MatchInv;
  }

  // ---- The completion ---------------------------------------------------------------------

  lemma StepCompletes(env: Env, r: Ride, e: RideEvent)
    requires RideInv(env.now, env.directory, r)
    requires r.trip.status != Completed && RideStep(env, r, e).ride.trip.status == Completed
    ensures r.trip.status == Started && e.RunLifecycle? && e.job == CompleteKey
    ensures RideStep(env, r, e).ride.trip.completedAt == Some(env.now)
  {
    if IsGatewayEvent(e) {
      GatewayFrame(env, r, e);
    } else if e.RunLifecycle? {
      if e.job in r.lifecycle.jobs {
        assert LifeJobInv(env.directory, r, e.job, r.lifecycle.jobs[e.job]);
      }
    } else {
      MatchingFrame(env, r, e);
    }
  }

  /** The `i`-th event completes trip `t`. */
  ghost predicate CompletedIn(es: seq<Event>, i: nat, t: TripId) {
    && i < |es| && es[i].On? && es[i].trip == t && es[i].event.RunLifecycle? && es[i].event.job == CompleteKey
    && t in Exec(es[..i]).rides && Exec(es[..i]).rides[t].trip.status == Started
    && t in Exec(es[..i+1]).rides && Exec(es[..i+1]).rides[t].trip.status == Completed
  }

  lemma CompletedInEarlier(es: seq<Event>, n: nat, i: nat, t: TripId)
    requires n <= |es| && CompletedIn(es[..n], i, t)
    ensures CompletedIn(es, i, t) && es[..n][i] == es[i] && es[..n][..i] == es[..i]
  {
    assert es[..n][..i] == es[..i] && es[..n][..i+1] == es[..i+1];
    hide Exec;
  }

  lemma CompletedHasTime(env: Env, r: Ride)
    requires RideInv(env.now, env.directory, r) && r.trip.status == Completed
    ensures r.trip.completedAt.Some?
  {
  }

  /** A COMPLETED trip was completed by one run of its COMPLETE job, which found it STARTED, and its completion time
      is the clock's reading then; whatever ran again since. */
  lemma {:induction false} CompletionTimeIsTheClock(es: seq<Event>, t: TripId) returns (i: nat)
    requires t in Exec(es).rides && Exec(es).rides[t].trip.status == Completed
    ensures CompletedIn(es, i, t)
    ensures Exec(es).rides[t].trip.completedAt == Some(Exec(es[..i]).env.now)
  {
    var n := |es| - 1;
    var w := Exec(es[..n]);
    ReachableInv(es[..n]);
    assert es[..n+1] == es;
    hide RideStep;
    hide RideInv;
    if t in w.rides {
      RideAfter(w, es[n], t);
      ApplyIsLater(w, es[n], t);
      InvOf(w, t);
      hide Apply;
      hide WorldInv;
      if w.rides[t].trip.status == Completed {
        i := CompletionTimeIsTheClock(es[..n], t);
        CompletedHasTime(w.env, w.rides[t]);
        CompletedInEarlier(es, n, i, t);
        hide CompletedIn;
        hide Exec;
      } else {
        StepCompletes(w.env, w.rides[t], es[n].event);
        i := n;
      }
    }
  }

  // ---- The OTP ----------------------------------------------------------------------------

  /** The `i`-th event accepts trip `t`, with a new OTP. */
  ghost predicate AcceptedIn(es: seq<Event>, i: nat, t: TripId) {
    && i < |es| && es[i].On? && es[i].trip == t && es[i].event.RunLifecycle? && es[i].event.job == AcceptKey
    && t in Exec(es[..i]).rides && Exec(es[..i]).rides[t].trip.status == Requested
    && t in Exec(es[..i+1]).rides && Exec(es[..i+1]).rides[t].trip.status == Accepted
  }

  lemma StepAccepts(env: Env, r: Ride, e: RideEvent)
    requires RideInv(env.now, env.directory, r)
    requires r.trip.status != Accepted && RideStep(env, r, e).ride.trip.status == Accepted
    ensures r.trip.status == Requested && e.RunLifecycle? && e.job == AcceptKey
    ensures var r' := RideStep(env, r, e).ride;
            r'.otpKey == Present(e.otp, env.now + 900_000) && r'.trip.otp == Some(e.otp)
  {
    if IsGatewayEvent(e) {
      GatewayFrame(env, r, e);
    } else if e.RunLifecycle? {
      if e.job in r.lifecycle.jobs {
        assert LifeJobInv(env.directory, r, e.job, r.lifecycle.jobs[e.job]);
      }
    } else {
      MatchingFrame(env, r, e);
    }
  }

  lemma AcceptedKeepsOtp(env: Env, r: Ride, e: RideEvent)
    requires RideInv(env.now, env.directory, r)
    requires r.trip.status == Accepted && RideStep(env, r, e).ride.trip.status == Accepted
    ensures RideStep(env, r, e).ride.otpKey == r.otpKey
  {
    if IsGatewayEvent(e) {
      GatewayFrame(env, r, e);
    } else if e.RunLifecycle? {
      if e.job in r.lifecycle.jobs {
        assert LifeJobInv(env.directory, r, e.job, r.lifecycle.jobs[e.job]);
      }
    } else {
      MatchingFrame(env, r, e);
    }
  }

  lemma AcceptedInEarlier(es: seq<Event>, n: nat, i: nat, t: TripId)
    requires n <= |es| && AcceptedIn(es[..n], i, t)
    ensures AcceptedIn(es, i, t) && es[..n][i] == es[i] && es[..n][..i] == es[..i]
  {
    assert es[..n][..i] == es[..i] && es[..n][..i+1] == es[..i+1];
    hide Exec;
  }

  /** While a trip is ACCEPTED its OTP is the one made at its acceptance, and the key lives until 15 minutes
      after it. */
  lemma {:induction false} OtpIsFromAcceptance(es: seq<Event>, t: TripId) returns (i: nat)
    requires t in Exec(es).rides && Exec(es).rides[t].trip.status == Accepted
    ensures AcceptedIn(es, i, t)
    ensures Exec(es).rides[t].otpKey == Present(es[i].event.otp, Exec(es[..i]).env.now + 900_000)
  {
    var n := |es| - 1;
    var w := Exec(es[..n]);
    ReachableInv(es[..n]);
    assert es[..n+1] == es;
    hide RideStep;
    hide RideInv;
    if t in w.rides {
      InvOf(w, t);
      RideAfter(w, es[n], t);
      hide Apply;
      hide WorldInv;
      if w.rides[t].trip.status == Accepted {
        i := OtpIsFromAcceptance(es[..n], t);
        if es[n].On? && es[n].trip == t {
          AcceptedKeepsOtp(w.env, w.rides[t], es[n].event);
        }
        AcceptedInEarlier(es, n, i, t);
        hide AcceptedIn;
        hide Exec;
      } else {
        StepAccepts(w.env, w.rides[t], es[n].event);
        i := n;
      }
    }
  }

  lemma GuessStarts(env: Env, r: Ride, k: LifeKey, otp: string)
    requires RideInv(env.now, env.directory, r) && r.trip.status == Accepted && r.otpKey.Present?
    requires k in r.lifecycle.jobs && r.lifecycle.jobs[k].VerifyOtp?
    ensures Lifecycle.RunLifecycle(env, r, k, otp).ride.trip.status == Started
            <==> r.lifecycle.jobs[k].otp == r.otpKey.value && env.now < r.otpKey.expiry
  {
  }

  /** In any run: a guess on an ACCEPTED trip starts it if and only if it is the OTP of its acceptance and less than
      15 minutes have passed since. */
  lemma GuessStartsIff(es: seq<Event>, t: TripId, k: LifeKey, otp: string) returns (i: nat)
    requires t in Exec(es).rides && Exec(es).rides[t].trip.status == Accepted
    requires k in Exec(es).rides[t].lifecycle.jobs && Exec(es).rides[t].lifecycle.jobs[k].VerifyOtp?
    ensures AcceptedIn(es, i, t)
    ensures Lifecycle.RunLifecycle(Exec(es).env, Exec(es).rides[t], k, otp).ride.trip.status == Started <==>
              && Exec(es).rides[t].lifecycle.jobs[k].otp == es[i].event.otp
              && Exec(es).env.now < Exec(es[..i]).env.now + 15 * 60 * 1000
  {
    ReachableInv(es);
    InvOf(Exec(es), t);
    i := OtpIsFromAcceptance(es, t);
    hide Exec;
    hide RideInv;
    GuessStarts(Exec(es).env, Exec(es).rides[t], k, otp);
    hide Lifecycle.RunLifecycle;
  }

  // ---- Offers -----------------------------------------------------------------------------

  /** The `i`-th event makes offer `o` of trip `t`. */
  ghost predicate OfferedIn(es: seq<Event>, i: nat, t: TripId, o: OfferId) {
    && i < |es| && es[i].On? && es[i].trip == t && es[i].event.RunMatching? && es[i].event.newId == o
    && t in Exec(es[..i]).rides && es[i].event.key in Exec(es[..i]).rides[t].matching.jobs
    && o !in Exec(es[..i]).rides[t].offers
    && t in Exec(es[..i+1]).rides && o in Exec(es[..i+1]).rides[t].offers
  }

  /** User `u` is a driver with a record, and job `job` may ask him: it is of the tenth attempt at most, and nobody
      else who is free, not skipped and within its radius is nearer. */
  ghost predicate AskedRightly(env: Env, job: MatchJob, geo: Geo, u: UserId) {
    && u in env.directory.byUser
    && (geo.Valid() ==>
          AttemptOf(job) <= 10 && Nearest(geo, if AttemptOf(job) == 1 then 5.0 else 10.0, env.busy, SkippedOf(job), u))
  }

  lemma StepOffers(env: Env, r: Ride, e: RideEvent, o: OfferId) returns (u: UserId)
    requires o !in r.offers && o in RideStep(env, r, e).ride.offers
    ensures e.RunMatching? && e.newId == o && e.key in r.matching.jobs
    ensures AskedRightly(env, r.matching.jobs[e.key], e.geo, u)
    ensures RideStep(env, r, e).ride.offers[o] == Offer(env.directory.byUser[u], Pending, env.now + 30_000)
  {
    if !RunsCascade(r, e) {
      OffersOfOtherSteps(env, r, e);
    }
    CascadeOffers(env, r, e);
    OfferStepIs(env, r, e);
    u := DecisionOf(env, r, e).user;
    hide RideStep;
    hide Nearest;
    hide NobodyCanBeAsked;
    if e.geo.Valid() {
      DecisionIsRight(env, r.matching.jobs[e.key].Attempt(), r.matching.jobs[e.key].Skipped(), e.geo);
    }
  }

  /** Offer `o` of trip `t` was made by the `i`-th event to user `u`, for 30 seconds. */
  ghost predicate MadeTo(es: seq<Event>, i: nat, t: TripId, o: OfferId, u: UserId)
    requires OfferedIn(es, i, t, o)
  {
    var w := Exec(es[..i]);
    && AskedRightly(w.env, w.rides[t].matching.jobs[es[i].event.key], es[i].event.geo, u)
    && Exec(es[..i+1]).rides[t].offers[o] == Offer(w.env.directory.byUser[u], Pending, w.env.now + 30_000)
  }

  lemma OfferedInEarlier(es: seq<Event>, n: nat, i: nat, t: TripId, o: OfferId, u: UserId)
    requires n <= |es| && OfferedIn(es[..n], i, t, o) && MadeTo(es[..n], i, t, o, u)
    ensures OfferedIn(es, i, t, o) && MadeTo(es, i, t, o, u)
    ensures es[..n][..i] == es[..i]
  {
    assert es[..n][..i] == es[..i] && es[..n][..i+1] == es[..i+1];
    hide Exec;
    hide AskedRightly;
  }

  /** Every offer of every state was made by one cascade run, to a nearest driver that run could ask, for 30
      seconds from then. */
  lemma {:induction false} OfferIsFromCascade(es: seq<Event>, t: TripId, o: OfferId) returns (i: nat, u: UserId)
    requires t in Exec(es).rides && o in Exec(es).rides[t].offers
    ensures OfferedIn(es, i, t, o) && MadeTo(es, i, t, o, u)
    ensures Exec(es).rides[t].offers[o].driver == Exec(es[..i]).env.directory.byUser[u]
    ensures Exec(es).rides[t].offers[o].expiresAt == Exec(es[..i]).env.now + 30_000
  {
    var n := |es| - 1;
    var w := Exec(es[..n]);
    assert es[..n+1] == es;
    hide RideStep;
    hide AskedRightly;
    if t in w.rides {
      RideAfter(w, es[n], t);
    }
    hide Apply;
    if t in w.rides && o in w.rides[t].offers {
      i, u := OfferIsFromCascade(es[..n], t, o);
      OfferedInEarlier(es, n, i, t, o, u);
      hide OfferedIn;
      hide MadeTo;
      hide Exec;
      RunIsLater(es, n, n + 1, t);
    } else {
      i := n;
      u := StepOffers(w.env, w.rides[t], es[n].event, o);
    }
  }

  // ---- Timeouts ---------------------------------------------------------------------------

  /** The timeout job of an offer is delayed until the offer's time is over, or that time has come. */
  ghost predicate TimeoutsFit(now: nat, r: Ride) {
    forall o :: o in r.offers && TimeoutOf(o) in r.matching.jobs ==>
      var due := r.matching.jobs[TimeoutOf(o)].delayedUntil;
      if due.Some? then due.value == r.offers[o].expiresAt else r.offers[o].expiresAt <= now
  }

  lemma GatewayTimeoutsFit(env: Env, r: Ride, e: RideEvent)
    requires IsGatewayEvent(e) && TimeoutsFit(env.now, r)
    ensures TimeoutsFit(env.now, RideStep(env, r, e).ride)
  {
  }

  lemma LifecycleTimeoutsFit(env: Env, r: Ride, k: LifeKey, otp: string)
    requires RideInv(env.now, env.directory, r) && TimeoutsFit(env.now, r)
    ensures TimeoutsFit(env.now, Lifecycle.RunLifecycle(env, r, k, otp).ride)
  {
    var r' := Lifecycle.RunLifecycle(env, r, k, otp).ride;
    LifecycleStepIsLater(env, r, k, otp);
    LifecycleFrame(env, r, k, otp);
    OffersOnlyClose(env, r, k, otp);
    hide RideInv;
    hide Lifecycle.RunLifecycle;
  }

  lemma AddedJobFits(now: nat, r: Ride, k: MatchKey, job: MatchJob)
    requires TimeoutsFit(now, r) && !k.TimeoutOf?
    ensures TimeoutsFit(now, r.(matching := r.matching.Add(k, job)))
  {
  }

  lemma AddedOfferFits(now: nat, r: Ride, o: OfferId, offer: Offer, job: MatchJob)
    requires TimeoutsFit(now, r) && MatchInv(r) && o !in r.offers && job.delayedUntil == Some(offer.expiresAt)
    ensures TimeoutsFit(now, r.(offers := r.offers[o := offer], matching := r.matching.Add(TimeoutOf(o), job)))
  {
    assert TimeoutOf(o) !in r.matching.seen;
  }

  lemma BeforeCascadeFits(now: nat, r: Ride, k: MatchKey)
    requires TimeoutsFit(now, r) && k in r.matching.jobs && !Inert(r, r.matching.jobs[k])
    ensures TimeoutsFit(now, BeforeCascade(r, k))
  {
  }

  lemma CancelFits(now: nat, r: Ride)
    requires TimeoutsFit(now, r)
    ensures TimeoutsFit(now, CancelNoDrivers(r))
  {
  }

  lemma CascadeFits(env: Env, r: Ride, e: RideEvent)
    requires RideInv(env.now, env.directory, r) && TimeoutsFit(env.now, r) && RunsCascade(r, e)
    ensures TimeoutsFit(env.now, RideStep(env, r, e).ride)
  {
    var r1, job := BeforeCascade(r, e.key), r.matching.jobs[e.key];
    BeforeCascadeFits(env.now, r, e.key);
    BeforeCascadeKeepsInv(env, r, e.key);
    assert MatchInv(r1);
    hide BeforeCascade;
    hide TimeoutsFit;
    hide RideInv;
    hide MatchInv;
    match DecisionOf(env, r, e)
    case GiveUp => CancelFits(env.now, r1);
    case Continue(name, skip) =>
      AddedJobFits(env.now, r1, Next(job.Attempt() + 1), MatchJob(name, Some(job.Attempt() + 1), Some(skip), None));
    case MakeOffer(_, driver) =>
      OfferStepIs(env, r, e);
      AddedOfferFits(env.now, r1, e.newId, Offer(driver, Pending, env.now + 30_000), Continuation(env, r, e).1);
  }

  lemma MatchingTimeoutsFit(env: Env, r: Ride, e: RideEvent)
    requires RideInv(env.now, env.directory, r) && TimeoutsFit(env.now, r)
    requires e.RunRequest? || e.Promote? || e.RunMatching?
    ensures TimeoutsFit(env.now, RideStep(env, r, e).ride)
  {
    if RunsCascade(r, e) {
      CascadeFits(env, r, e);
    } else if e.RunRequest? {
      var r1 := r.(requests := r.requests.Finish(RideRequest));
      AddedJobFits(env.now, r1, First, FIRST_JOB);
    }
    hide RideInv;
    hide RunCascade;
  }

  lemma StepTimeoutsFit(env: Env, r: Ride, e: RideEvent)
    requires RideInv(env.now, env.directory, r) && TimeoutsFit(env.now, r)
    ensures TimeoutsFit(env.now, RideStep(env, r, e).ride)
  {
    hide TimeoutsFit;
    hide RideInv;
    if IsGatewayEvent(e) {
      GatewayTimeoutsFit(env, r, e);
    } else if e.RunLifecycle? {
      LifecycleTimeoutsFit(env, r, e.job, e.otp);
    } else {
      MatchingTimeoutsFit(env, r, e);
    }
  }

  lemma {:induction false} TimeoutsFitAlways(es: seq<Event>, t: TripId)
    requires t in Exec(es).rides
    ensures TimeoutsFit(Exec(es).env.now, Exec(es).rides[t])
  {
    var n := |es| - 1;
    var w, e := Exec(es[..n]), es[n];
    ReachableInv(es[..n]);
    hide RideStep;
    hide RideInv;
    if t in w.rides {
      TimeoutsFitAlways(es[..n], t);
      RideAfter(w, e, t);
      ApplyExtendsEnv(w, e);
      InvOf(w, t);
      if e.On? && e.trip == t {
        StepTimeoutsFit(w.env, w.rides[t], e.event);
        hide TimeoutsFit;
      } else {
        hide Apply;
      }
      hide Exec;
      hide WorldInv;
    }
  }

  lemma ExpiresOnlyItsOffer(r: Ride, k: MatchKey, o: OfferId)
    requires MatchInv(r) && k in r.matching.jobs && !Inert(r, r.matching.jobs[k]) && o in r.offers
    ensures o in BeforeCascade(r, k).offers
    ensures BeforeCascade(r, k).offers[o].status
         == if k == TimeoutOf(o) then Expired else r.offers[o].status
  {
    assert MatchJobInv(r, k, r.matching.jobs[k]);
  }

  lemma CascadeKeepsOffers(env: Env, r: Ride, attempt: nat, skipped: seq<UserId>, geo: Geo, newId: OfferId, o: OfferId)
    requires o in r.offers && newId !in r.offers
    ensures var r' := RunCascade(env, r, attempt, skipped, geo, newId); o in r'.offers && r'.offers[o] == r.offers[o]
  {
    hide Decide;
  }

  /** The only offer a matching job closes is that of its timeout, whose time is over. */
  lemma TimeoutExpires(env: Env, r: Ride, k: MatchKey, geo: Geo, newId: OfferId, o: OfferId)
    requires MatchInv(r) && TimeoutsFit(env.now, r) && o in r.offers
    ensures var r' := Cascade.RunMatching(env, r, k, geo, newId);
            && o in r'.offers
            && (r'.offers[o].status != r.offers[o].status ==>
                  r'.offers[o].status == Expired && r.offers[o].expiresAt <= env.now)
  {
    if Ready(r, k, newId) && !Inert(r, r.matching.jobs[k]) {
      ExpiresOnlyItsOffer(r, k, o);
      BeforeCascadeIsLater(r, k);
      hide BeforeCascade;
      hide RunCascade;
      var job := r.matching.jobs[k];
      CascadeKeepsOffers(env, BeforeCascade(r, k), job.Attempt(), job.Skipped(), geo, newId, o);
    }
    hide MatchInv;
  }

  /** No timeout comes early: a matching job closes an offer only by expiring it, and not before 30 seconds have
      passed since it was made. */
  lemma TimeoutIsNotEarly(es: seq<Event>, t: TripId, k: MatchKey, geo: Geo, newId: OfferId, o: OfferId) returns (i: nat)
    requires t in Exec(es).rides && o in Exec(es).rides[t].offers
    ensures OfferedIn(es, i, t, o)
    ensures var r' := Cascade.RunMatching(Exec(es).env, Exec(es).rides[t], k, geo, newId);
            && o in r'.offers
            && (r'.offers[o].status != Exec(es).rides[t].offers[o].status ==>
                  r'.offers[o].status == Expired && Exec(es[..i]).env.now + 30_000 <= Exec(es).env.now)
  {
    ReachableInv(es);
    InvOf(Exec(es), t);
    TimeoutsFitAlways(es, t);
    var u;
    i, u := OfferIsFromCascade(es, t, o);
    hide Exec;
    hide TimeoutsFit;
    hide OfferedIn;
    hide MatchInv;
    TimeoutExpires(Exec(es).env, Exec(es).rides[t], k, geo, newId, o);
    hide Cascade.RunMatching;
  }
}
