/** Runs of the whole system: every run keeps the invariants, moves each trip along the transition
    table, and never rewrites a value once it is set. */
module Runs {
  import opened Base
  import opened StateMachine
  import opened Rides
  import opened Gateway
  import opened Cascade
  import opened Lifecycle
  import opened Dispatch
  import opened Invariants

  /** Ride invariants do not depend on how far the clock or the driver table has moved on. */
  lemma InvUnderLaterEnv(now: nat, dir: Directory, later: nat, dir': Directory, r: Ride)
    requires RideInv(now, dir, r) && now <= later && dir'.Extends(dir)
    ensures RideInv(later, dir', r)
  {
    forall k | k in r.lifecycle.jobs ensures LifeJobInv(dir', r, k, r.lifecycle.jobs[k]) {
      assert LifeJobInv(dir, r, k, r.lifecycle.jobs[k]);
    }
    forall c | c in r.calls ensures CallInv(dir', r, r.calls[c]) {
      assert CallInv(dir, r, r.calls[c]);
    }
  }

  lemma RideStepKeepsInv(env: Env, r: Ride, e: RideEvent)
    requires env.directory.Consistent() && RideInv(env.now, env.directory, r)
    ensures RideInv(env.now, env.directory, RideStep(env, r, e).ride)
  {
    match e
    case Begin(c, req) => BeginKeepsInv(env, r, c, req);
    case TryLock(c) => TryLockKeepsInv(env, r, c);
    case Conclude(c) => ConcludeKeepsInv(env, r, c);
    case RunRequest => RunRequestKeepsInv(env, r);
    case Promote(k) => PromoteKeepsInv(env, r, k);
    case RunMatching(k, geo, newId) => RunMatchingKeepsInv(env, r, k, geo, newId);
    case RunLifecycle(k, otp) => RunLifecycleKeepsInv(env, r, k, otp);
  }

  lemma ApplyExtendsEnv(w: World, e: Event)
    requires w.env.directory.Consistent()
    ensures Apply(w, e).env.directory.Consistent()
    ensures Apply(w, e).env.directory.Extends(w.env.directory) && w.env.now <= Apply(w, e).env.now
  {
  }

  lemma FreshInv(env: Env, rider: RiderId, meters: Fare.Meters, c: CallId)
    ensures RideInv(env.now, env.directory, FreshRide(rider, meters, map[c := Creating]))
  {
  }

  lemma ApplyKeepsInv(w: World, e: Event)
    requires WorldInv(w)
    ensures WorldInv(Apply(w, e))
  {
    hide RideStep;
    hide RideInv;
    var w' := Apply(w, e);
    ApplyExtendsEnv(w, e);
    forall t | t in w'.rides ensures RideInv(w'.env.now, w'.env.directory, w'.rides[t]) {
      if e.On? && e.trip == t {
        RideStepKeepsInv(w.env, w.rides[t], e.event);
      } else if t in w.rides {
        InvUnderLaterEnv(w.env.now, w.env.directory, w'.env.now, w'.env.directory, w.rides[t]);
      } else {
        FreshInv(w.env, w.env.riders[e.user], e.meters, e.call);
      }
    }
  }

  lemma InvOf(w: World, t: TripId)
    requires WorldInv(w)
    ensures w.env.directory.Consistent() && (t in w.rides ==> RideInv(w.env.now, w.env.directory, w.rides[t]))
  {
  }

  lemma {:induction false} ReachableInv(es: seq<Event>)
    ensures WorldInv(Exec(es))
  {
    if es != [] {
      ReachableInv(es[..|es|-1]);
      ApplyKeepsInv(Exec(es[..|es|-1]), es[|es|-1]);
    }
  }

  /** What the gateway checked before it queued a job holds when the worker processes it, although
      the worker does not look again: the job's driver is the trip's driver, and an ACCEPT names the
      owner of an existing offer. */
  lemma GatewayChecksStayTrue(es: seq<Event>, t: TripId, k: LifeKey)
    requires t in Exec(es).rides && k in Exec(es).rides[t].lifecycle.jobs
    ensures var r := Exec(es).rides[t];
            match r.lifecycle.jobs[k]
            case Accept(d, o) => o in r.offers && r.offers[o].driver == d && d in Exec(es).env.directory.byId
            case VerifyOtp(d, _) => r.trip.driver == Some(d)
            case Complete(d) => r.trip.driver == Some(d) && r.trip.status.Started?
            case Cancel(reason) => reason.DriverCancelled? ==> r.trip.driver == Some(reason.driver)
  {
    ReachableInv(es);
    assert LifeJobInv(Exec(es).env.directory, Exec(es).rides[t], k, Exec(es).rides[t].lifecycle.jobs[k]);
  }

  /** How a lifecycle job of ride `r` ends, if run now. */
  function OutcomeNow(now: nat, r: Ride, job: LifeJob): Outcome {
    match job
    case Accept(_, _) => if r.trip.status == Requested then Done else Threw(InvalidTransition(r.trip.status, Accepted))
    case VerifyOtp(_, _) => if r.otpKey.Present? && now < r.otpKey.expiry then Done else Threw(OtpNotFound)
    case Complete(_) => Done
    case Cancel(_) =>
      if r.trip.status == Requested || r.trip.status == Accepted then Done
      else Threw(InvalidTransition(r.trip.status, Cancelled))
  }

  lemma HowJobEnds(env: Env, r: Ride, k: LifeKey, otp: string)
    requires RideInv(env.now, env.directory, r) && k in r.lifecycle.jobs
    ensures Lifecycle.RunLifecycle(env, r, k, otp).outcome == OutcomeNow(env.now, r, r.lifecycle.jobs[k])
  {
    assert LifeJobInv(env.directory, r, k, r.lifecycle.jobs[k]);
  }

  /** When a lifecycle job fails, and with which error: ACCEPT and CANCEL exactly when the ride has moved on, a guess
      exactly when no OTP is live, a COMPLETE never. So a guess that finds an OTP always gets its transition. */
  lemma WhenJobsFail(es: seq<Event>, t: TripId, k: LifeKey, otp: string)
    requires t in Exec(es).rides && k in Exec(es).rides[t].lifecycle.jobs
    ensures var w := Exec(es);
            Lifecycle.RunLifecycle(w.env, w.rides[t], k, otp).outcome
            == OutcomeNow(w.env.now, w.rides[t], w.rides[t].lifecycle.jobs[k])
  {
    hide RideInv;
    hide Lifecycle.RunLifecycle;
    ReachableInv(es);
    HowJobEnds(Exec(es).env, Exec(es).rides[t], k, otp);
  }

  /** Redis keys agree with the status of the trip in every reachable state. */
  lemma KeysAgreeWithStatus(es: seq<Event>, t: TripId)
    requires t in Exec(es).rides
    ensures var r := Exec(es).rides[t];
            && (r.otpKey.Present? <==> r.trip.status.Accepted?)
            && (r.attempts.Present? ==> r.trip.status.Accepted? && r.attempts.expiry >= r.otpKey.expiry)
            && (r.otpKey.Present? ==> r.trip.otp == Some(r.otpKey.value))
  {
    ReachableInv(es);
    assert RideInv(Exec(es).env.now, Exec(es).env.directory, Exec(es).rides[t]);
  }

  // ---- Histories ------------------------------------------------------------------------

  ghost predicate OnceSet<T>(before: Option<T>, after: Option<T>) {
    before.Some? ==> after == before
  }

  /** `b` is a later state of ride `a`. */
  ghost predicate Later(a: Ride, b: Ride) {
    && a.trip.rider == b.trip.rider && a.trip.meters == b.trip.meters
    && Rank(a.trip.status) <= Rank(b.trip.status)
    && (Rank(a.trip.status) == Rank(b.trip.status) ==> a.trip.status == b.trip.status)
    && OnceSet(a.trip.driver, b.trip.driver)
    && OnceSet(a.trip.otp, b.trip.otp)
    && OnceSet(a.trip.fare, b.trip.fare)
    && OnceSet(a.trip.distance, b.trip.distance)
    && OnceSet(a.trip.completedAt, b.trip.completedAt)
    && (forall o :: o in a.offers ==>
          && o in b.offers
          && b.offers[o].driver == a.offers[o].driver && b.offers[o].expiresAt == a.offers[o].expiresAt
          && (b.offers[o].status.Pending? ==> a.offers[o].status.Pending?))
    && a.lifecycle.seen <= b.lifecycle.seen
    && (forall k :: k in a.lifecycle.seen && k in b.lifecycle.jobs ==>
          k in a.lifecycle.jobs && a.lifecycle.jobs[k] == b.lifecycle.jobs[k])
  }

  lemma BeginIsLater(env: Env, r: Ride, c: CallId, req: Request)
    ensures Later(r, Gateway.Begin(env, r, c, req)) && Gateway.Begin(env, r, c, req).trip == r.trip
  {
  }

  lemma ConcludeIsLater(env: Env, r: Ride, c: CallId)
    ensures Later(r, Gateway.Conclude(env, r, c)) && Gateway.Conclude(env, r, c).trip == r.trip
  {
  }

  lemma RunCascadeIsLater(env: Env, r: Ride, attempt: nat, skipped: seq<UserId>, geo: Geo, newId: OfferId)
    requires newId !in r.offers
    ensures Later(r, RunCascade(env, r, attempt, skipped, geo, newId))
    ensures RunCascade(env, r, attempt, skipped, geo, newId).trip == r.trip
  {
  }

  lemma LaterIsTransitive(a: Ride, b: Ride, c: Ride)
    requires Later(a, b) && Later(b, c)
    ensures Later(a, c)
  {
  }

  lemma BeforeCascadeIsLater(r: Ride, k: MatchKey)
    requires k in r.matching.jobs && !Inert(r, r.matching.jobs[k])
    ensures Later(r, BeforeCascade(r, k)) && BeforeCascade(r, k).trip == r.trip
    ensures BeforeCascade(r, k).offers.Keys == r.offers.Keys
  {
  }

  lemma MatchingStepIsLater(env: Env, r: Ride, k: MatchKey, geo: Geo, newId: OfferId)
    ensures Later(r, Cascade.RunMatching(env, r, k, geo, newId))
    ensures Cascade.RunMatching(env, r, k, geo, newId).trip == r.trip
  {
    if Ready(r, k, newId) && !Inert(r, r.matching.jobs[k]) {
      var job := r.matching.jobs[k];
      BeforeCascadeIsLater(r, k);
      hide Later;
      hide BeforeCascade;
      hide Inert;
      hide RunCascade;
      RunCascadeIsLater(env, BeforeCascade(r, k), job.Attempt(), job.Skipped(), geo, newId);
      LaterIsTransitive(r, BeforeCascade(r, k), Cascade.RunMatching(env, r, k, geo, newId));
    }
  }

  /** A handler takes the trip nowhere or along one edge of the transition table. */
  ghost predicate MovesOn(a: Ride, b: Ride) {
    Later(a, b) && (b.trip.status == a.trip.status || IsValidTransition(a.trip.status, b.trip.status))
  }

  lemma AcceptMovesOn(env: Env, r: Ride, d: DriverId, o: OfferId, otp: string)
    requires RowInv(env.directory, r.trip)
    ensures MovesOn(r, HandleAccept(env, r, d, o, otp).ride)
  {
  }

  lemma CancelMovesOn(env: Env, r: Ride)
    ensures MovesOn(r, HandleCancel(env, r).ride)
  {
  }

  lemma CountMovesOn(r: Ride, attempts: Key<nat>, r': Ride)
    requires MovesOn(r.(attempts := attempts), r')
    ensures MovesOn(r, r')
  {
  }

  lemma StartMovesOn(r: Ride, trip: Trip, otpKey: Key<string>, attempts: Key<nat>)
    requires trip == r.trip || (IsValidTransition(r.trip.status, Started) && trip == r.trip.(status := Started))
    ensures MovesOn(r, r.(trip := trip, otpKey := otpKey, attempts := attempts))
  {
  }

  lemma VerifyOtpMovesOn(env: Env, r: Ride, guess: string)
    ensures MovesOn(r, HandleVerifyOtp(env, r, guess).ride)
  {
    hide MovesOn;
    hide HandleCancel;
    var attempts := Present(r.attempts.Get(env.now).GetOr(0) + 1, env.now + Constants.OTP_TTL_MS);
    var s := HandleVerifyOtp(env, r, guess).ride;
    if s == HandleCancel(env, r.(attempts := attempts)).ride {
      CancelMovesOn(env, r.(attempts := attempts));
      CountMovesOn(r, attempts, s);
    } else {
      StartMovesOn(r, s.trip, s.otpKey, s.attempts);
      assert s == r.(trip := s.trip, otpKey := s.otpKey, attempts := s.attempts);
    }
  }

  lemma CompleteMovesOn(env: Env, r: Ride)
    requires RowInv(env.directory, r.trip)
    ensures MovesOn(r, HandleComplete(env, r).ride)
  {
  }

  lemma FinishMovesOn(r: Ride, k: LifeKey, r': Ride)
    requires MovesOn(r.(lifecycle := r.lifecycle.Finish(k)), r')
    ensures MovesOn(r, r')
  {
  }

  lemma LifecycleStepIsLater(env: Env, r: Ride, k: LifeKey, otp: string)
    requires RideInv(env.now, env.directory, r)
    ensures MovesOn(r, Lifecycle.RunLifecycle(env, r, k, otp).ride)
  {
    if k in r.lifecycle.jobs {
      hide MovesOn;
      hide KeyInv;
      hide LifeInv;
      hide MatchInv;
      var r1 := r.(lifecycle := r.lifecycle.Finish(k));
      match r.lifecycle.jobs[k] {
        case Accept(d, o) => AcceptMovesOn(env, r1, d, o, otp);
        case VerifyOtp(_, guess) => VerifyOtpMovesOn(env, r1, guess);
        case Cancel(_) => CancelMovesOn(env, r1);
        case Complete(_) => CompleteMovesOn(env, r1);
      }
      FinishMovesOn(r, k, Lifecycle.RunLifecycle(env, r, k, otp).ride);
    }
  }

  lemma StepIsLater(env: Env, r: Ride, e: RideEvent)
    requires RideInv(env.now, env.directory, r)
    ensures Later(r, RideStep(env, r, e).ride)
    ensures var r' := RideStep(env, r, e).ride;
            r'.trip.status == r.trip.status || IsValidTransition(r.trip.status, r'.trip.status)
  {
    match e
    case Begin(c, req) => BeginIsLater(env, r, c, req);
    case Conclude(c) => ConcludeIsLater(env, r, c);
    case RunMatching(k, geo, newId) => MatchingStepIsLater(env, r, k, geo, newId);
    case RunLifecycle(k, otp) => LifecycleStepIsLater(env, r, k, otp);
    case _ =>
  }

  lemma LaterIsReflexive(a: Ride)
    ensures Later(a, a)
  {
  }

  lemma RideAfter(w: World, e: Event, t: TripId)
    requires t in w.rides
    ensures t in Apply(w, e).rides
    ensures Apply(w, e).rides[t] ==
              if e.On? && e.trip == t then RideStep(w.env, w.rides[t], e.event).ride else w.rides[t]
  {
    hide RideStep;
  }

  lemma ApplyIsLater(w: World, e: Event, t: TripId)
    requires WorldInv(w) && t in w.rides
    ensures t in Apply(w, e).rides && Later(w.rides[t], Apply(w, e).rides[t])
    ensures var a, b := w.rides[t].trip.status, Apply(w, e).rides[t].trip.status; a == b || IsValidTransition(a, b)
  {
    hide RideStep;
    hide RideInv;
    hide Later;
    if e.On? && e.trip == t {
      StepIsLater(w.env, w.rides[t], e.event);
    } else {
      LaterIsReflexive(w.rides[t]);
    }
  }

  /** Along any run a ride only moves on: driver, OTP, fare, distance and completion time are written
      at most once, no offer changes hands or term or becomes PENDING again, and a lifecycle job id never
      comes back with another job. */
  lemma {:induction false} RunIsLater(es: seq<Event>, i: nat, j: nat, t: TripId)
    requires i <= j <= |es| && t in Exec(es[..i]).rides
    ensures t in Exec(es[..j]).rides && Later(Exec(es[..i]).rides[t], Exec(es[..j]).rides[t])
    decreases j - i
  {
    hide Later;
    hide WorldInv;
    hide Apply;
    if i == j {
      LaterIsReflexive(Exec(es[..i]).rides[t]);
    } else {
      RunIsLater(es, i, j - 1, t);
      assert es[..j][..j-1] == es[..j-1];
      ReachableInv(es[..j-1]);
      ApplyIsLater(Exec(es[..j-1]), es[j-1], t);
      LaterIsTransitive(Exec(es[..i]).rides[t], Exec(es[..j-1]).rides[t], Exec(es[..j]).rides[t]);
    }
  }

  /** The statuses of a trip after each event of a run, from its creation on. */
  function StatusHistory(es: seq<Event>, t: TripId): seq<Status> {
    if es == [] then []
    else
      var history := StatusHistory(es[..|es|-1], t);
      if t in Exec(es).rides then history + [Exec(es).rides[t].trip.status] else history
  }

  lemma {:induction false} HistoryIsPath(es: seq<Event>, t: TripId)
    ensures IsPath(StatusHistory(es, t))
    ensures var h := StatusHistory(es, t);
            if t in Exec(es).rides then h != [] && h[0] == Requested && h[|h|-1] == Exec(es).rides[t].trip.status
            else h == []
  {
    if es != [] {
      var before := es[..|es|-1];
      HistoryIsPath(before, t);
      ReachableInv(before);
      hide WorldInv;
      hide Later;
      hide RideStep;
      if t in Exec(before).rides {
        ApplyIsLater(Exec(before), es[|es|-1], t);
      }
    }
  }

  /** The handlers refine the state machine over whole runs: a trip's history is a path of the table
      from REQUESTED, with at most three changes. */
  lemma HandlersRefineStateMachine(es: seq<Event>, t: TripId)
    requires t in Exec(es).rides
    ensures var h := StatusHistory(es, t);
            h != [] && h[0] == Requested && IsPath(h) && Changes(h) <= 3
  {
    HistoryIsPath(es, t);
    PathChangesAtMostThrice(StatusHistory(es, t));
  }
}
