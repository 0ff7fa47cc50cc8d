/** A run in which a ride is offered after its cancellation: the rider cancels while the first matching job waits. */
module CancelledRideExample {
  import opened Base
  import opened StateMachine
  import opened Rides
  import opened Gateway
  import opened Lifecycle
  import opened Dispatch
  import opened NoLostRide
  import opened Runs
  import opened LostRideExample
  import opened CancelCloses
  import opened Pursuit

  // The ride after the call that cancels it; the first matching job is still there
  const C3 := R2.(calls := map[0 := RiderCancelChecked])
  const C4 := R2.(lifecycle := Queue(map[CancelKey := Cancel(RiderCancelled)], {CancelKey}))

  const CANCEL_BEGINS := Begin(0, CancelRide("rita"))

  lemma CancelStep()
    ensures RideStep(ENV, R2, CANCEL_BEGINS) == Step(C3, Keep, Done)
  {
  }

  lemma QueueStep()
    ensures RideStep(ENV, C3, Conclude(0)) == Step(C4, Keep, Done)
  {
  }

  lemma GoOn(es: seq<Event>, r: Ride, e: RideEvent, r': Ride)
    requires Exec(es) == World(ENV, map["t" := r]) && StaleRejects(es, "t") == 0 && NoRejectOf("t", es)
    requires RideStep(ENV, r, e) == Step(r', Keep, Done) && (e.Begin? ==> !e.req.RejectRide?)
    ensures var es' := es + [On("t", e)];
            Exec(es') == World(ENV, map["t" := r']) && StaleRejects(es', "t") == 0 && NoRejectOf("t", es')
  {
    Follow(es, r, e, r');
  }

  lemma CancelWaits() returns (es: seq<Event>)
    ensures Exec(es) == World(ENV, map["t" := C4]) && NoRejectOf("t", es)
  {
    Opening();
    es := OPENING;
    assert NoRejectOf("t", es);
    hide NoRejectOf;
    hide Exec;
    hide StaleRejects;
    Step0(); GoOn(es, R0, E0, R1); es := es + [On("t", E0)];
    Step1(); GoOn(es, R1, E1, R2); es := es + [On("t", E1)];
    CancelStep(); GoOn(es, R2, CANCEL_BEGINS, C3); es := es + [On("t", CANCEL_BEGINS)];
    QueueStep(); GoOn(es, C3, Conclude(0), C4); es := es + [On("t", Conclude(0))];
  }

  lemma FirstJobWaits()
    ensures CancelsNow(ENV, C4, CancelKey) && WaitsToAsk(C4)
  {
    assert First in C4.matching.jobs && !C4.matching.jobs[First].name.OfferTimeout?;
  }

  /** A CANCELLED ride can have a PENDING offer: this run has no reject in it. */
  lemma CancelledRideIsOffered()
    ensures exists es, t, o :: NoRejectOf(t, es) && t in Exec(es).rides && Exec(es).rides[t].trip.status == Cancelled
                               && o in Exec(es).rides[t].offers && Exec(es).rides[t].offers[o].status == Pending
  {
    var es := CancelWaits();
    FirstJobWaits();
    var after := es + [On("t", RideEvent.RunLifecycle(CancelKey, ""))];
    hide Exec;
    hide CancelsNow;
    hide WaitsToAsk;
    CancelledIsOfferedIff(es, "t", CancelKey, "");
    var more, o :| NoRejectOf("t", more) && LeadsToOffer(after, more, "t", o);
    assert (after + more)[..|after|] == after && (after + more)[..|after + more|] == after + more;
    RunIsLater(after + more, |after|, |after + more|, "t");
    assert NoRejectOf("t", after + more);
    assert Exec(after + more).rides["t"].trip.status == Cancelled;
  }
}
