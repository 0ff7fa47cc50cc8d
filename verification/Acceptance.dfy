/** Single acceptance: however many drivers race through `acceptRide`, and however their steps
    interleave with lock expiry, timeouts, rejects and cancels, one ACCEPT job at most is ever
    queued for a ride, and the trip's driver is that job's: he held the lock and owned a PENDING
    offer. */
module Acceptance {
  import opened Base
  import opened Rides
  import opened Gateway
  import opened Lifecycle
  import opened Dispatch
  import opened Frames
  import opened Invariants
  import opened Runs

  predicate AcceptQueued(w: World, t: TripId) {
    t in w.rides && AcceptKey in w.rides[t].lifecycle.jobs
  }

  /** How often an ACCEPT job for `t` entered the lifecycle queue during a run. */
  function AcceptEnqueues(es: seq<Event>, t: TripId): nat {
    if es == [] then 0
    else
      var before := es[..|es|-1];
      AcceptEnqueues(before, t) + if !AcceptQueued(Exec(before), t) && AcceptQueued(Exec(es), t) then 1 else 0
  }

  /** An id becomes known exactly by being queued, and a known id is never queued again. */
  lemma OnlyQueueingMakesIdsKnown(env: Env, r: Ride, e: RideEvent)
    requires r.lifecycle.WellFormed()
    ensures var q, q' := r.lifecycle, RideStep(env, r, e).ride.lifecycle;
            && q.seen <= q'.seen
            && forall k :: k in q'.seen && k !in q.seen <==> k in q'.jobs && k !in q.jobs
  {
    if IsGatewayEvent(e) {
      GatewayFrame(env, r, e);
    } else if e.RunLifecycle? {
      LifecycleFrame(env, r, e.job, e.otp);
    } else {
      MatchingFrame(env, r, e);
    }
  }

  predicate AcceptKnown(w: World, t: TripId) {
    t in w.rides && AcceptKey in w.rides[t].lifecycle.seen
  }

  lemma QueuedIffNewlyKnown(w: World, e: Event, t: TripId)
    requires WorldInv(w)
    ensures AcceptKnown(w, t) ==> AcceptKnown(Apply(w, e), t)
    ensures !AcceptQueued(w, t) && AcceptQueued(Apply(w, e), t) <==> !AcceptKnown(w, t) && AcceptKnown(Apply(w, e), t)
  {
    if t in w.rides && e.On? && e.trip == t {
      OnlyQueueingMakesIdsKnown(w.env, w.rides[t], e.event);
    }
  }

  /** Since a used job id is never forgotten, at most one ACCEPT job per ride is ever queued. */
  lemma {:induction false} AtMostOneAcceptJob(es: seq<Event>, t: TripId)
    ensures AcceptEnqueues(es, t) == if AcceptKnown(Exec(es), t) then 1 else 0
  {
    if es != [] {
      var before, e := es[..|es|-1], es[|es|-1];
      AtMostOneAcceptJob(before, t);
      ReachableInv(before);
      QueuedIffNewlyKnown(Exec(before), e, t);
    }
  }

  // ---- Where the driver of a trip comes from ----------------------------------------------

  ghost predicate PendingOfferOf(w: World, t: TripId, d: DriverId, o: OfferId) {
    t in w.rides && o in w.rides[t].offers && w.rides[t].offers[o].driver == d && w.rides[t].offers[o].status.Pending?
  }

  ghost predicate WasOffered(es: seq<Event>, t: TripId, d: DriverId, o: OfferId) {
    exists i :: 0 <= i <= |es| && PendingOfferOf(Exec(es[..i]), t, d, o)
  }

  /** Event `e` in state `w` is a SETNX that finds the lock free and takes it for `d`. */
  ghost predicate TakesLock(w: World, e: Event, t: TripId, d: DriverId, o: OfferId) {
    && e.On? && e.trip == t && e.event.TryLock?
    && t in w.rides && e.event.call in w.rides[t].calls
    && w.rides[t].calls[e.event.call] == AcceptChecked(d, o)
    && w.rides[t].lock.Get(w.env.now).None?
  }

  /** At some moment `d` took the free lock for offer `o`, which had been his and PENDING. */
  ghost predicate WasGranted(es: seq<Event>, t: TripId, d: DriverId, o: OfferId) {
    exists j :: 0 <= j < |es| && TakesLock(Exec(es[..j]), es[j], t, d, o) && WasOffered(es[..j], t, d, o)
  }

  lemma OfferedEarlier(es: seq<Event>, n: nat, t: TripId, d: DriverId, o: OfferId)
    requires n <= |es| && WasOffered(es[..n], t, d, o)
    ensures WasOffered(es, t, d, o)
  {
    var i :| 0 <= i <= n && PendingOfferOf(Exec(es[..n][..i]), t, d, o);
    assert es[..n][..i] == es[..i];
  }

  lemma GrantedEarlier(es: seq<Event>, n: nat, t: TripId, d: DriverId, o: OfferId)
    requires n <= |es| && WasGranted(es[..n], t, d, o)
    ensures WasGranted(es, t, d, o)
  {
    var j :| 0 <= j < n && TakesLock(Exec(es[..n][..j]), es[..n][j], t, d, o) && WasOffered(es[..n][..j], t, d, o);
    assert es[..n][..j] == es[..j];
  }

  ghost predicate Explained(es: seq<Event>, t: TripId, r: Ride) {
    && (forall c :: c in r.calls && r.calls[c].AcceptChecked? ==> WasOffered(es, t, r.calls[c].driver, r.calls[c].offer))
    && (forall c :: c in r.calls && r.calls[c].AcceptLocked? ==> WasGranted(es, t, r.calls[c].driver, r.calls[c].offer))
    && (AcceptKey in r.lifecycle.jobs && r.lifecycle.jobs[AcceptKey].Accept? ==>
          WasGranted(es, t, r.lifecycle.jobs[AcceptKey].driver, r.lifecycle.jobs[AcceptKey].offer))
    && (r.trip.driver.Some? ==> exists o :: WasGranted(es, t, r.trip.driver.value, o))
  }

  lemma FreshIsExplained(es: seq<Event>, t: TripId, rider: RiderId, meters: Fare.Meters, c: CallId)
    ensures Explained(es, t, FreshRide(rider, meters, map[c := Creating]))
  {
  }

  lemma ExplainedEarlier(es: seq<Event>, n: nat, t: TripId, r: Ride)
    requires n <= |es| && Explained(es[..n], t, r)
    ensures Explained(es, t, r)
  {
    forall d, o | WasOffered(es[..n], t, d, o) ensures WasOffered(es, t, d, o) {
      OfferedEarlier(es, n, t, d, o);
    }
    forall d, o | WasGranted(es[..n], t, d, o) ensures WasGranted(es, t, d, o) {
      GrantedEarlier(es, n, t, d, o);
    }
  }

  lemma LifecycleStaysExplained(es: seq<Event>, t: TripId, env: Env, r: Ride, k: LifeKey, otp: string)
    requires RideInv(env.now, env.directory, r) && Explained(es, t, r)
    ensures Explained(es, t, Lifecycle.RunLifecycle(env, r, k, otp).ride)
  {
    hide WasGranted;
    hide WasOffered;
    hide Lifecycle.RunLifecycle;
    LifecycleFrame(env, r, k, otp);
    DriverFrame(env, r, k, otp);
    if k in r.lifecycle.jobs {
      assert LifeJobInv(env.directory, r, k, r.lifecycle.jobs[k]);
    }
  }

  lemma MatchingStaysExplained(es: seq<Event>, t: TripId, env: Env, r: Ride, e: RideEvent)
    requires e.RunRequest? || e.Promote? || e.RunMatching?
    requires Explained(es, t, r)
    ensures Explained(es, t, RideStep(env, r, e).ride)
  {
    hide WasGranted;
    hide WasOffered;
    hide RideStep;
    MatchingFrame(env, r, e);
  }

  lemma OfferedNow(es: seq<Event>, i: nat, t: TripId, d: DriverId, o: OfferId)
    requires i <= |es| && PendingOfferOf(Exec(es[..i]), t, d, o)
    ensures WasOffered(es, t, d, o)
  {
  }

  lemma BeginStaysExplained(es: seq<Event>, t: TripId, r: Ride, c: CallId, req: Request)
    requires es != [] && t in Exec(es[..|es|-1]).rides && Exec(es[..|es|-1]).rides[t] == r
    requires Explained(es, t, r)
    ensures Explained(es, t, Gateway.Begin(Exec(es[..|es|-1]).env, r, c, req))
  {
    hide WasGranted;
    hide WasOffered;
    hide Exec;
    var n := |es| - 1;
    var w := Exec(es[..n]);
    if req.AcceptRide? && c !in r.calls && Admit(w.env, r, req).Some? {
      OfferedNow(es, n, t, w.env.directory.byUser[req.user], req.offer);
    }
  }

  lemma GrantedNow(es: seq<Event>, t: TripId, d: DriverId, o: OfferId)
    requires es != [] && WasOffered(es[..|es|-1], t, d, o)
    requires TakesLock(Exec(es[..|es|-1]), es[|es|-1], t, d, o)
    ensures WasGranted(es, t, d, o)
  {
  }

  lemma TryLockStaysExplained(es: seq<Event>, t: TripId, r: Ride, c: CallId)
    requires es != [] && es[|es|-1] == On(t, TryLock(c))
    requires t in Exec(es[..|es|-1]).rides && Exec(es[..|es|-1]).rides[t] == r
    requires Explained(es[..|es|-1], t, r) && Explained(es, t, r)
    ensures Explained(es, t, Gateway.TryLock(Exec(es[..|es|-1]).env, r, c))
  {
    hide WasGranted;
    hide WasOffered;
    hide Exec;
    var n := |es| - 1;
    var w := Exec(es[..n]);
    if c in r.calls && r.calls[c].AcceptChecked? && r.lock.Get(w.env.now).None? {
      GrantedNow(es, t, r.calls[c].driver, r.calls[c].offer);
    }
  }

  lemma ConcludeStaysExplained(es: seq<Event>, t: TripId, env: Env, r: Ride, c: CallId)
    requires Explained(es, t, r)
    ensures Explained(es, t, Gateway.Conclude(env, r, c))
  {
    ConcludeFrame(env, r, c);
    GatewayFrame(env, r, Conclude(c));
  }

  lemma StepStaysExplained(es: seq<Event>, t: TripId, r: Ride)
    requires es != [] && es[|es|-1].On? && es[|es|-1].trip == t
    requires var w := Exec(es[..|es|-1]); WorldInv(w) && t in w.rides && w.rides[t] == r
    requires Explained(es[..|es|-1], t, r) && Explained(es, t, r)
    ensures Explained(es, t, RideStep(Exec(es[..|es|-1]).env, r, es[|es|-1].event).ride)
  {
    hide Explained;
    hide RideInv;
    var env, e := Exec(es[..|es|-1]).env, es[|es|-1].event;
    match e
    case Begin(c, req) => BeginStaysExplained(es, t, r, c, req);
    case TryLock(c) => TryLockStaysExplained(es, t, r, c);
    case Conclude(c) => ConcludeStaysExplained(es, t, env, r, c);
    case RunLifecycle(k, otp) => LifecycleStaysExplained(es, t, env, r, k, otp);
    case _ => MatchingStaysExplained(es, t, env, r, e);
  }

  lemma {:induction false} AcceptancesAreExplained(es: seq<Event>, t: TripId)
    requires t in Exec(es).rides
    ensures Explained(es, t, Exec(es).rides[t])
  {
    hide Explained;
    hide RideStep;
    hide RideInv;
    var n := |es| - 1;
    var before, e := es[..n], es[n];
    var w := Exec(before);
    if t in w.rides {
      AcceptancesAreExplained(before, t);
      ReachableInv(before);
      ExplainedEarlier(es, n, t, w.rides[t]);
      if e.On? && e.trip == t {
        StepStaysExplained(es, t, w.rides[t]);
      }
    } else {
      FreshIsExplained(es, t, w.env.riders[e.user], e.meters, e.call);
    }
  }

  /** The driver of a trip took the ride's lock while it was free, with an offer of his own that had
      been PENDING. */
  lemma DriverHeldLockAndOffer(es: seq<Event>, t: TripId)
    requires t in Exec(es).rides && Exec(es).rides[t].trip.driver.Some?
    ensures exists o :: WasGranted(es, t, Exec(es).rides[t].trip.driver.value, o)
  {
    AcceptancesAreExplained(es, t);
  }

  predicate DriverComesFromAccept(a: Ride, b: Ride) {
    a.trip.driver != b.trip.driver ==>
      && a.trip.driver.None?
      && AcceptKey in a.lifecycle.jobs && a.lifecycle.jobs[AcceptKey].Accept?
      && b.trip.driver == Some(a.lifecycle.jobs[AcceptKey].driver)
  }

  lemma StepDriverComesFromAccept(env: Env, r: Ride, e: RideEvent)
    requires RideInv(env.now, env.directory, r)
    ensures DriverComesFromAccept(r, RideStep(env, r, e).ride)
  {
    if e.RunLifecycle? {
      DriverFrame(env, r, e.job, e.otp);
      if e.job in r.lifecycle.jobs {
        assert LifeJobInv(env.directory, r, e.job, r.lifecycle.jobs[e.job]);
      }
    } else if IsGatewayEvent(e) {
      GatewayFrame(env, r, e);
    } else {
      MatchingFrame(env, r, e);
    }
  }

  lemma DriverChangesOnlyByAccept(w: World, e: Event, t: TripId)
    requires WorldInv(w) && t in w.rides
    ensures DriverComesFromAccept(w.rides[t], Apply(w, e).rides[t])
  {
    hide RideStep;
    hide RideInv;
    if e.On? && e.trip == t {
      StepDriverComesFromAccept(w.env, w.rides[t], e.event);
    }
  }

  /** A ride bound to an ACCEPT job can get no other one, and no other driver. */
  ghost predicate BoundTo(w: World, t: TripId, job: LifeJob) {
    && AcceptKnown(w, t)
    && (AcceptQueued(w, t) ==> w.rides[t].lifecycle.jobs[AcceptKey] == job)
    && (w.rides[t].trip.driver.Some? ==> job.Accept? && w.rides[t].trip.driver.value == job.driver)
  }

  lemma StaysBound(w: World, e: Event, t: TripId, job: LifeJob)
    requires WorldInv(w) && BoundTo(w, t, job)
    ensures BoundTo(Apply(w, e), t, job)
  {
    ApplyIsLater(w, e, t);
    DriverChangesOnlyByAccept(w, e, t);
  }

  /** Whoever a trip's driver turns out to be, he is the driver of the one ACCEPT job. */
  lemma {:induction false} DriverIsTheAcceptJobs(es: seq<Event>, i: nat, j: nat, t: TripId)
    requires i <= j <= |es| && AcceptQueued(Exec(es[..i]), t)
    ensures BoundTo(Exec(es[..j]), t, Exec(es[..i]).rides[t].lifecycle.jobs[AcceptKey])
    decreases j - i
  {
    if i == j {
      ReachableInv(es[..i]);
    } else {
      DriverIsTheAcceptJobs(es, i, j - 1, t);
      assert es[..j][..j-1] == es[..j-1];
      ReachableInv(es[..j-1]);
      StaysBound(Exec(es[..j-1]), es[j-1], t, Exec(es[..i]).rides[t].lifecycle.jobs[AcceptKey]);
    }
  }
}
