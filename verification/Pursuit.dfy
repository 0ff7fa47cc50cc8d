/** Whether a ride will ever be offered to somebody again. The cascade never looks at the trip's status, so a
    cancellation does not end a chain that has a run to come. */
module Pursuit {
  import opened Base
  import opened StateMachine
  import opened Rides
  import opened Gateway
  import opened Cascade
  import opened Lifecycle
  import opened Dispatch
  import opened Frames
  import opened Invariants
  import opened Runs
  import opened Chain
  import opened LostRides
  import opened CancelCloses

  /** Something is left that can still lead to an offer: the creation or the restart of a chain, the request, or a
      matching job of at most the tenth attempt that is not an inert timeout. */
  ghost predicate IsPursued(r: Ride) {
    || (exists c :: c in r.calls && r.calls[c].Creating?)
    || (exists c :: c in r.calls && r.calls[c].Rejecting? && RejectOf(r.calls[c].offer) !in r.matching.seen)
    || RideRequest in r.requests.jobs
    || (exists k :: k in r.matching.jobs && !Inert(r, r.matching.jobs[k]) && r.matching.jobs[k].Attempt() <= 10)
  }

  /** None of the events is a driver's reject of an offer of `t`. */
  predicate NoRejectOf(t: TripId, es: seq<Event>) {
    forall i :: 0 <= i < |es| && es[i].On? && es[i].trip == t && es[i].event.Begin? ==> !es[i].event.req.RejectRide?
  }

  /** After `more`, `t` has the PENDING offer `o`, which it had not before. */
  ghost predicate LeadsToOffer(es: seq<Event>, more: seq<Event>, t: TripId, o: OfferId)
    requires t in Exec(es).rides
  {
    && t in Exec(es + more).rides && o !in Exec(es).rides[t].offers
    && o in Exec(es + more).rides[t].offers && Exec(es + more).rides[t].offers[o].status == Pending
  }

  /** The run can go on, without a reject of `t`, to a new offer of `t`. */
  ghost predicate CanBeOffered(es: seq<Event>, t: TripId)
    requires t in Exec(es).rides
  {
    exists more, o :: NoRejectOf(t, more) && LeadsToOffer(es, more, t, o)
  }

  // ---- A ride that is not pursued ---------------------------------------------------------

  lemma GatewayStaysQuiet(env: Env, r: Ride, e: RideEvent)
    requires !IsPursued(r) && (e.TryLock? || e.Conclude? || (e.Begin? && !e.req.RejectRide?))
    ensures var r' := RideStep(env, r, e).ride; !IsPursued(r') && r'.offers == r.offers
  {
    var r' := RideStep(env, r, e).ride;
    if e.Conclude? && e.call in r.calls {
      assert !r.calls[e.call].Creating?;
    }
    assert r'.matching == r.matching && r'.requests == r.requests;
    forall k | k in r.matching.jobs && !Inert(r', r.matching.jobs[k]) ensures r.matching.jobs[k].Attempt() > 10 {
      assert !Inert(r, r.matching.jobs[k]);
    }
  }

  /** Fewer jobs and fewer PENDING offers are no more pursued. */
  lemma LessIsQuiet(r: Ride, r': Ride)
    requires !IsPursued(r)
    requires r'.calls == r.calls && r'.requests == r.requests
    requires forall k :: k in r'.matching.jobs ==>
               k in r.matching.jobs && r'.matching.jobs[k].name == r.matching.jobs[k].name
               && r'.matching.jobs[k].attempt == r.matching.jobs[k].attempt
    requires forall k: MatchKey :: k in r.matching.seen && k.RejectOf? ==> k in r'.matching.seen
    requires forall o :: o in r'.offers && r'.offers[o].status.Pending? ==> o in r.offers && r.offers[o].status.Pending?
    ensures !IsPursued(r')
  {
    forall k | k in r'.matching.jobs && !Inert(r', r'.matching.jobs[k]) ensures r'.matching.jobs[k].Attempt() > 10 {
      assert !Inert(r, r.matching.jobs[k]);
    }
  }

  lemma LateRunGivesUp(env: Env, r: Ride, k: MatchKey, geo: Geo, newId: OfferId)
    requires !IsPursued(r) && Ready(r, k, newId) && !Inert(r, r.matching.jobs[k])
    ensures Cascade.RunMatching(env, r, k, geo, newId) == CancelNoDrivers(BeforeCascade(r, k))
  {
    assert r.matching.jobs[k].Attempt() > 10;
  }

  lemma MatchingStaysQuiet(env: Env, r: Ride, e: RideEvent)
    requires !IsPursued(r) && (e.RunRequest? || e.Promote? || e.RunMatching?)
    ensures var r' := RideStep(env, r, e).ride; !IsPursued(r') && r'.offers.Keys == r.offers.Keys
  {
    var r' := RideStep(env, r, e).ride;
    if e.RunMatching? && Ready(r, e.key, e.newId) && !Inert(r, r.matching.jobs[e.key]) {
      LateRunGivesUp(env, r, e.key, e.geo, e.newId);
    }
    hide RunCascade;
    LessIsQuiet(r, r');
  }

  /** A handler forgets no ids but those of timeouts. */
  lemma RejectIdsStay(env: Env, r: Ride, k: LifeKey, otp: string, o: OfferId)
    requires RideInv(env.now, env.directory, r) && RejectOf(o) in r.matching.seen
    ensures RejectOf(o) in Lifecycle.RunLifecycle(env, r, k, otp).ride.matching.seen
  {
    if RejectOf(o) in r.matching.jobs {
      assert MatchJobInv(r, RejectOf(o), r.matching.jobs[RejectOf(o)]);
    }
    hide RowInv;
    hide KeyInv;
    hide LifeInv;
  }

  lemma LifecycleStaysQuiet(env: Env, r: Ride, k: LifeKey, otp: string)
    requires RideInv(env.now, env.directory, r) && !IsPursued(r)
    ensures var r' := Lifecycle.RunLifecycle(env, r, k, otp).ride; !IsPursued(r') && r'.offers.Keys == r.offers.Keys
  {
    var r' := Lifecycle.RunLifecycle(env, r, k, otp).ride;
    forall key: MatchKey | key in r.matching.seen && key.RejectOf? ensures key in r'.matching.seen {
      RejectIdsStay(env, r, k, otp, key.offer);
    }
    LifecycleFrame(env, r, k, otp);
    OffersOnlyClose(env, r, k, otp);
    hide RideInv;
    hide Lifecycle.RunLifecycle;
    LessIsQuiet(r, r');
  }

  lemma StepStaysQuiet(env: Env, r: Ride, e: RideEvent)
    requires RideInv(env.now, env.directory, r) && !IsPursued(r) && (e.Begin? ==> !e.req.RejectRide?)
    ensures var r' := RideStep(env, r, e).ride; !IsPursued(r') && r'.offers.Keys == r.offers.Keys
  {
    hide RideInv;
    hide IsPursued;
    if e.RunLifecycle? {
      LifecycleStaysQuiet(env, r, e.job, e.otp);
    } else if e.RunRequest? || e.Promote? || e.RunMatching? {
      MatchingStaysQuiet(env, r, e);
    } else {
      GatewayStaysQuiet(env, r, e);
    }
  }

  /** A ride that is not pursued stays so, and gets no offer, until a driver rejects an offer he had. */
  lemma {:induction false} QuietStays(es: seq<Event>, more: seq<Event>, t: TripId)
    requires t in Exec(es).rides && !IsPursued(Exec(es).rides[t])
    requires NoRejectOf(t, more)
    ensures t in Exec(es + more).rides && !IsPursued(Exec(es + more).rides[t])
    ensures Exec(es + more).rides[t].offers.Keys == Exec(es).rides[t].offers.Keys
  {
    if more == [] {
      assert es + more == es;
    } else {
      var before, e := more[..|more|-1], more[|more|-1];
      QuietStays(es, before, t);
      assert (es + more)[..|es + more|-1] == es + before && (es + more)[|es + more|-1] == e;
      var w := Exec(es + before);
      ReachableInv(es + before);
      hide IsPursued;
      hide RideInv;
      hide RideStep;
      RideAfter(w, e, t);
      if e.On? && e.trip == t {
        StepStaysQuiet(w.env, w.rides[t], e.event);
      }
    }
  }

  // ---- A ride that is pursued -------------------------------------------------------------

  lemma {:induction false} NewName(used: set<string>) returns (name: string)
    ensures name !in used
    ensures forall s :: s in used ==> |s| < |name|
    decreases used
  {
    if used == {} {
      name := "x";
    } else {
      var s :| s in used;
      name := NewName(used - {s});
      if |name| <= |s| {
        name := s + "x";
      }
    }
  }

  lemma NextState(es: seq<Event>, e: Event)
    ensures Exec(es + [e]) == Apply(Exec(es), e)
  {
    assert (es + [e])[..|es|] == es;
  }

  /** A driver at the pickup whom nobody knew yet is asked. */
  lemma NewcomerIsAsked(env: Env, attempt: nat, skipped: seq<UserId>, u: UserId)
    requires attempt <= 10 && u in env.directory.byUser && u !in env.busy && u !in skipped
    ensures Decide(env, attempt, skipped, Geo([u], map[u := 0.0], {})) == MakeOffer(u, env.directory.byUser[u])
  {
    var geo := Geo([u], map[u := 0.0], {});
    assert Available(geo.ranked[1..], geo, Radius(attempt), env.busy, skipped) == [];
    assert Available(geo.ranked, geo, Radius(attempt), env.busy, skipped) == [u];
  }

  lemma DueJobOffers(env: Env, r: Ride, k: MatchKey, u: UserId, o: OfferId)
    requires Ready(r, k, o) && !Inert(r, r.matching.jobs[k]) && r.matching.jobs[k].Attempt() <= 10
    requires u in env.directory.byUser && u !in env.busy && u !in r.matching.jobs[k].Skipped()
    ensures var r' := RideStep(env, r, RideEvent.RunMatching(k, Geo([u], map[u := 0.0], {}), o)).ride;
            o in r'.offers && r'.offers[o].status == Pending
  {
    NewcomerIsAsked(env, r.matching.jobs[k].Attempt(), r.matching.jobs[k].Skipped(), u);
    hide Decide;
  }

  /** What can be offered one event later can be offered. */
  lemma OfferedLater(es: seq<Event>, e: Event, t: TripId)
    requires t in Exec(es).rides && NoRejectOf(t, [e])
    requires t in Exec(es + [e]).rides && CanBeOffered(es + [e], t)
    requires Exec(es).rides[t].offers.Keys <= Exec(es + [e]).rides[t].offers.Keys
    ensures CanBeOffered(es, t)
  {
    hide Exec;
    var more, o :| NoRejectOf(t, more) && LeadsToOffer(es + [e], more, t, o);
    assert es + [e] + more == es + ([e] + more);
    assert NoRejectOf(t, [e] + more);
    hide NoRejectOf;
    assert o !in Exec(es).rides[t].offers.Keys;
    assert LeadsToOffer(es, [e] + more, t, o);
    hide LeadsToOffer;
  }

  lemma DriverJoins(w: World, u: UserId, d: DriverId)
    requires u !in w.env.directory.byUser && d !in w.env.directory.byId
    ensures var w' := Apply(w, RegisterDriver(u, d));
            w'.rides == w.rides && u in w'.env.directory.byUser && w'.env.busy == w.env.busy
  {
  }

  /** A new driver turns up at the pickup, and a job that is due asks him. */
  lemma DueJobCanOffer(es: seq<Event>, t: TripId, k: MatchKey)
    requires t in Exec(es).rides
    requires var r := Exec(es).rides[t];
             && k in r.matching.jobs && r.matching.jobs[k].delayedUntil.None?
             && !Inert(r, r.matching.jobs[k]) && r.matching.jobs[k].Attempt() <= 10
    ensures CanBeOffered(es, t)
  {
    hide RideStep;
    hide Inert;
    var w := Exec(es);
    var r := w.rides[t];
    var skipped := r.matching.jobs[k].Skipped();
    var u := NewName(w.env.directory.byUser.Keys + w.env.busy + set s | s in skipped);
    var d := NewName(w.env.directory.byId.Keys);
    var o := NewName(r.offers.Keys);
    var e, e' := RegisterDriver(u, d), On(t, RideEvent.RunMatching(k, Geo([u], map[u := 0.0], {}), o));
    NextState(es, e);
    NextState(es + [e], e');
    hide Exec;
    DriverJoins(w, u, d);
    var w' := Exec(es + [e]);
    RideAfter(w', e', t);
    hide Apply;
    DueJobOffers(w'.env, r, k, u, o);
    assert LeadsToOffer(es + [e], [e'], t, o);
    assert NoRejectOf(t, [e']) && NoRejectOf(t, [e]);
    OfferedLater(es, e, t);
  }

  lemma PromotedAfter(env: Env, r: Ride, k: MatchKey)
    requires k in r.matching.jobs && !Inert(r, r.matching.jobs[k])
    requires r.matching.jobs[k].delayedUntil.Some? ==> r.matching.jobs[k].delayedUntil.value <= env.now
    ensures var r' := RideStep(env, r, RideEvent.Promote(k)).ride;
            && r'.offers == r.offers && k in r'.matching.jobs && r'.matching.jobs[k].delayedUntil.None?
            && !Inert(r', r'.matching.jobs[k]) && r'.matching.jobs[k].Attempt() == r.matching.jobs[k].Attempt()
  {
  }

  /** A job that is not an inert timeout becomes due. */
  lemma JobCanOffer(es: seq<Event>, t: TripId, k: MatchKey)
    requires t in Exec(es).rides
    requires var r := Exec(es).rides[t];
             k in r.matching.jobs && !Inert(r, r.matching.jobs[k]) && r.matching.jobs[k].Attempt() <= 10
    ensures CanBeOffered(es, t)
  {
    hide Inert;
    hide Ready;
    hide CanBeOffered;
    hide RideStep;
    var r := Exec(es).rides[t];
    var e, e' := Event.Tick(r.matching.jobs[k].delayedUntil.GetOr(0)), On(t, RideEvent.Promote(k));
    NextState(es, e);
    NextState(es + [e], e');
    RideAfter(Exec(es), e, t);
    RideAfter(Exec(es + [e]), e', t);
    PromotedAfter(Exec(es + [e]).env, r, k);
    hide Exec;
    DueJobCanOffer(es + [e] + [e'], t, k);
    OfferedLater(es + [e], e', t);
    OfferedLater(es, e, t);
  }

  lemma RequestIsTaken(env: Env, r: Ride)
    requires r.matching.WellFormed() && StartInv(r) && RideRequest in r.requests.jobs
    ensures var r' := RideStep(env, r, RideEvent.RunRequest).ride;
            r'.offers == r.offers && First in r'.matching.jobs && r'.matching.jobs[First] == FIRST_JOB
  {
  }

  lemma RequestCanOffer(es: seq<Event>, t: TripId)
    requires t in Exec(es).rides && RideRequest in Exec(es).rides[t].requests.jobs
    ensures CanBeOffered(es, t)
  {
    var e := On(t, RideEvent.RunRequest);
    CountHolds(es, t);
    ReachableInv(es);
    hide CanBeOffered;
    hide Exec;
    hide RideStep;
    hide RideInv;
    var w := Exec(es);
    QueuesAreWellFormed(w.env, w.rides[t]);
    NextState(es, e);
    RideAfter(w, e, t);
    RequestIsTaken(w.env, w.rides[t]);
    JobCanOffer(es + [e], t, First);
    OfferedLater(es, e, t);
  }

  lemma CallIsTaken(env: Env, r: Ride, c: CallId)
    requires r.requests.WellFormed() && StartInv(r) && c in r.calls
    ensures var r' := RideStep(env, r, RideEvent.Conclude(c)).ride;
            && r'.offers == r.offers
            && (r.calls[c].Creating? ==> RideRequest in r'.requests.jobs)
            && (r.calls[c].Rejecting? && RejectOf(r.calls[c].offer) !in r.matching.seen ==>
                  var k := RejectOf(r.calls[c].offer);
                  k in r'.matching.jobs && r'.matching.jobs[k].name == CascadeReject && r'.matching.jobs[k].Attempt() == 1)
  {
  }

  lemma CallCanOffer(es: seq<Event>, t: TripId, c: CallId)
    requires t in Exec(es).rides && c in Exec(es).rides[t].calls
    requires var r := Exec(es).rides[t];
             r.calls[c].Creating? || (r.calls[c].Rejecting? && RejectOf(r.calls[c].offer) !in r.matching.seen)
    ensures CanBeOffered(es, t)
  {
    var e := On(t, RideEvent.Conclude(c));
    CountHolds(es, t);
    ReachableInv(es);
    hide CanBeOffered;
    hide Exec;
    hide RideStep;
    hide RideInv;
    var w := Exec(es);
    var r := w.rides[t];
    QueuesAreWellFormed(w.env, r);
    NextState(es, e);
    RideAfter(w, e, t);
    CallIsTaken(w.env, r, c);
    if r.calls[c].Creating? {
      RequestCanOffer(es + [e], t);
    } else {
      JobCanOffer(es + [e], t, RejectOf(r.calls[c].offer));
    }
    OfferedLater(es, e, t);
  }

  lemma OnlyPursuedIsOffered(es: seq<Event>, t: TripId)
    requires t in Exec(es).rides && CanBeOffered(es, t)
    ensures IsPursued(Exec(es).rides[t])
  {
    var r := Exec(es).rides[t];
    var more, o :| NoRejectOf(t, more) && LeadsToOffer(es, more, t, o);
    hide Exec;
    hide NoRejectOf;
    hide IsPursued;
    assert o in Exec(es + more).rides[t].offers.Keys && o !in r.offers.Keys;
    if !IsPursued(r) {
      QuietStays(es, more, t);
    }
  }

  lemma PursuedCanBeOffered(es: seq<Event>, t: TripId)
    requires t in Exec(es).rides && IsPursued(Exec(es).rides[t])
    ensures CanBeOffered(es, t)
  {
    var r := Exec(es).rides[t];
    hide Exec;
    hide CanBeOffered;
    if c :| && c in r.calls
            && (r.calls[c].Creating? || (r.calls[c].Rejecting? && RejectOf(r.calls[c].offer) !in r.matching.seen)) {
      CallCanOffer(es, t, c);
    } else if RideRequest in r.requests.jobs {
      RequestCanOffer(es, t);
    } else {
      var k :| k in r.matching.jobs && !Inert(r, r.matching.jobs[k]) && r.matching.jobs[k].Attempt() <= 10;
      JobCanOffer(es, t, k);
    }
  }

  /** In any run: a trip, whatever its status, can still be offered to somebody without a driver's reject if and
      only if it is pursued. */
  lemma OfferedAgainIff(es: seq<Event>, t: TripId)
    requires t in Exec(es).rides
    ensures CanBeOffered(es, t) <==> IsPursued(Exec(es).rides[t])
  {
    hide Exec;
    hide CanBeOffered;
    hide IsPursued;
    if CanBeOffered(es, t) {
      OnlyPursuedIsOffered(es, t);
    } else if IsPursued(Exec(es).rides[t]) {
      PursuedCanBeOffered(es, t);
    }
  }

  // ---- Cancelled rides --------------------------------------------------------------------

  /** A call, a request or a job that is no timeout waits, which would go on to ask a driver. */
  ghost predicate WaitsToAsk(r: Ride) {
    || (exists c :: c in r.calls && r.calls[c].Creating?)
    || (exists c :: c in r.calls && r.calls[c].Rejecting? && RejectOf(r.calls[c].offer) !in r.matching.seen)
    || RideRequest in r.requests.jobs
    || (exists k :: k in r.matching.jobs && !r.matching.jobs[k].name.OfferTimeout? && r.matching.jobs[k].Attempt() <= 10)
  }

  lemma CancelLeavesPursuit(env: Env, r: Ride, k: LifeKey, otp: string)
    requires RideInv(env.now, env.directory, r) && CancelsNow(env, r, k)
    ensures var r' := Lifecycle.RunLifecycle(env, r, k, otp).ride;
            r'.trip.status == Cancelled && (IsPursued(r') <==> WaitsToAsk(r))
  {
    CancelClosesMatching(env, r, k, otp);
    assert forall key :: key in r.matching.jobs ==> MatchJobInv(r, key, r.matching.jobs[key]);
    var r' := Lifecycle.RunLifecycle(env, r, k, otp).ride;
    hide RideInv;
    hide CancelsNow;
    hide Lifecycle.RunLifecycle;
    forall key | key in r.matching.jobs
      ensures Inert(r', r.matching.jobs[key]) <==> r.matching.jobs[key].name.OfferTimeout?
    {
    }
  }

  /** In any run: a ride that is cancelled now can still be offered to somebody afterwards if and only if, when it
      is cancelled, a call, a request or a job other than a timeout is waiting that would ask a driver. */
  lemma CancelledIsOfferedIff(es: seq<Event>, t: TripId, k: LifeKey, otp: string)
    requires t in Exec(es).rides && CancelsNow(Exec(es).env, Exec(es).rides[t], k)
    ensures var after := es + [On(t, RideEvent.RunLifecycle(k, otp))];
            && t in Exec(after).rides && Exec(after).rides[t].trip.status == Cancelled
            && (CanBeOffered(after, t) <==> WaitsToAsk(Exec(es).rides[t]))
  {
    var e := On(t, RideEvent.RunLifecycle(k, otp));
    var w := Exec(es);
    ReachableInv(es);
    hide RideInv;
    hide CancelsNow;
    hide Exec;
    hide CanBeOffered;
    hide IsPursued;
    hide WaitsToAsk;
    InvOf(w, t);
    NextState(es, e);
    RideAfter(w, e, t);
    CancelLeavesPursuit(w.env, w.rides[t], k, otp);
    hide Lifecycle.RunLifecycle;
    OfferedAgainIff(es + [e], t);
  }
}
