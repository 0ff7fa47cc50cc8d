/** A run that loses a ride although nobody rejects it. A driver who has been offered two rides accepts the
    second one with the offer of the first; the gateway does not compare them. The first ride's offer is
    marked ACCEPTED, so its timeout does nothing, and its chain ends. */
module ForeignOfferExample {
  import opened Base
  import opened Rides
  import opened Gateway
  import opened Dispatch
  import opened NoLostRide
  import opened Storage
  import opened StoreOps
  import opened Refinement
  import opened HandlerRefinement
  import opened StoreRuns
  import opened Isolation
  import opened DoubleBookingExample

  const ACCEPT_CALL := Call("t2", 0, Request.AcceptRide("dave", "o1"))
  const ACCEPT_JOB := LifeWork("t2", AcceptKey, "1234")

  /** The second ride is offered to Dave too, and not accepted yet. */
  ghost predicate Waiting(s: Store) {
    && "t2" in s.trips && s.trips["t2"].status.Requested?
    && s.env == FREE && ReadKey(s.locks, "t2") == Absent && ("t2", AcceptKey) !in s.lifecycle.seen
    && "o1" in s.offers && s.offers["o1"] == OfferRow("t1", Offer("D", Pending, 30000))
  }

  lemma CallWrites(s: Store)
    requires Waiting(s)
    ensures CallOps(s, "t2", Request.AcceptRide("dave", "o1"))
         == [SetLock("D", 300000), AddLifecycle(AcceptKey, Accept("D", "o1"))]
  {
  }

  /** The ACCEPT job is there, and its trip and offer are as they were. */
  ghost predicate Accepting(s: Store) {
    && ("t2", AcceptKey) in s.lifecycle.jobs && s.lifecycle.jobs[("t2", AcceptKey)] == Accept("D", "o1")
    && "t2" in s.trips && s.trips["t2"].status.Requested?
    && "o1" in s.offers && s.offers["o1"] == OfferRow("t1", Offer("D", Pending, 30000))
  }

  lemma CallQueues(s: Store)
    requires Waiting(s)
    ensures Accepting(DoAll(s, "t2", CallOps(s, "t2", Request.AcceptRide("dave", "o1"))))
  {
    CallWrites(s);
    DoTwo(s, "t2", SetLock("D", 300000), AddLifecycle(AcceptKey, Accept("D", "o1")));
  }

  lemma JobMarks(s: Store)
    requires Accepting(s)
    ensures LastMark(LifecycleOps(s, "t2", AcceptKey, "1234"), "o1") == Some(OfferAccepted)
  {
    assert MarkOf(s, ACCEPT_JOB) == Some(MarkOffer("o1", OfferAccepted));
    hide LifecycleOps;
    hide MarkOf;
    LifecycleMarks(s, "t2", AcceptKey, "1234");
    var ops := LifecycleOps(s, "t2", AcceptKey, "1234");
    hide Enabled;
    hide InsertsNew;
    var i :| 0 <= i < |ops| && ops[i] == MarkOffer("o1", OfferAccepted)
             && forall j :: 0 <= j < |ops| && j != i ==> !ops[j].MarkOffer?;
    OneMark(ops, i, "o1");
  }

  /** A ride whose only offer is closed from outside is stranded. */
  lemma ClosedIsStranded(r: Ride, o: OfferId, offers: map<OfferId, Offer>)
    requires r == R3(o).(offers := offers) && o in offers && !offers[o].status.Pending?
    ensures Stranded(r)
  {
  }

  lemma OffersClosed(s: Store, ops: seq<Op>)
    requires "o1" in s.offers && s.offers["o1"].trip == "t1" && InsertsNew(s, ops)
    requires LastMark(ops, "o1") == Some(OfferAccepted)
    ensures var offers := OffersOf(DoAll(s, "t2", ops).offers, "t1");
            "o1" in offers && offers["o1"].status.OfferAccepted?
  {
    assert "t1"[1] != "t2"[1];
    RowAfter(s, "t2", ops, "o1");
    hide DoAll;
  }

  lemma JobInsertsNew(s: Store)
    requires Accepting(s)
    ensures InsertsNew(s, LifecycleOps(s, "t2", AcceptKey, "1234"))
  {
    LifecycleMarks(s, "t2", AcceptKey, "1234");
  }

  lemma BothWrites(s: Store)
    requires Waiting(s) && "t1" in s.trips && Slice(s, "t1") == R3("o1")
    ensures var s1 := DoAll(s, "t2", CallOps(s, "t2", Request.AcceptRide("dave", "o1")));
            && ("t2", AcceptKey) in s1.lifecycle.jobs
            && var s2 := DoAll(s1, "t2", LifecycleOps(s1, "t2", AcceptKey, "1234"));
               "t1" in s2.trips && Stranded(Slice(s2, "t1"))
  {
    hide Waiting;
    hide Slice;
    hide LifecycleOps;
    hide CallOps;
    hide DoAll;
    hide R3;
    hide InsertsNew;
    hide OffersOf;
    hide LastMark;
    hide Stranded;
    assert "t1"[1] != "t2"[1];
    var callOps := CallOps(s, "t2", Request.AcceptRide("dave", "o1"));
    var s1 := DoAll(s, "t2", callOps);
    CallQueues(s);
    DoAllLeavesOthers(s, "t2", callOps, "t1");
    var ops := LifecycleOps(s1, "t2", AcceptKey, "1234");
    JobInsertsNew(s1);
    JobMarks(s1);
    DoAllLeavesOthers(s1, "t2", ops, "t1");
    OffersClosed(s1, ops);
    ClosedIsStranded(Slice(DoAll(s1, "t2", ops), "t1"), "o1", OffersOf(DoAll(s1, "t2", ops).offers, "t1"));
  }

  lemma FirstIsOffered(s: Store, t: TripId, o: OfferId)
    requires Mirrors(s, t, R3(o))
    ensures o in s.offers && s.offers[o] == OfferRow(t, Offer("D", Pending, 30000))
  {
    assert o in R3(o).offers;
  }

  lemma SecondWaits(s: Store, t: TripId, o: OfferId)
    requires Mirrors(s, t, R3(o)) && Slice(s, t) == R3(o)
    ensures s.trips[t].status.Requested? && ReadKey(s.locks, t) == Absent
    ensures (t, AcceptKey) !in s.lifecycle.seen && (t, 0) !in s.calls
  {
    assert AcceptKey !in R3(o).lifecycle.seen && 0 !in R3(o).calls;
  }

  lemma TwoRides(w: World, env: Env, a: Ride, b: Ride)
    requires w == Two(env, a, b)
    ensures w.env == env && "t1" in w.rides && w.rides["t1"] == a && "t2" in w.rides && w.rides["t2"] == b
  {
    assert "t1"[1] != "t2"[1];
  }

  lemma BothStored(s: Store, w: World, a: Ride, b: Ride)
    requires Represents(s, w) && w == Two(FREE, a, b)
    ensures s.env == FREE
    ensures "t1" in s.trips && Slice(s, "t1") == a && Mirrors(s, "t1", a)
    ensures "t2" in s.trips && Slice(s, "t2") == b && Mirrors(s, "t2", b)
  {
    TwoRides(w, FREE, a, b);
    hide Two;
    hide Represents;
    hide Slice;
    hide Mirrors;
    RepresentedRide(s, w, "t1");
    RepresentedRide(s, w, "t2");
    SliceMirrors(s, w, "t1");
    SliceMirrors(s, w, "t2");
  }

  lemma OfferedIsWaiting(s: Store, a: Ride, b: Ride)
    requires s.env == FREE && a == R3("o1") && b == R3("o2")
    requires Mirrors(s, "t1", a) && "t2" in s.trips && Mirrors(s, "t2", b) && Slice(s, "t2") == b
    ensures Waiting(s) && Enabled(s, ACCEPT_CALL)
  {
    hide Slice;
    hide Mirrors;
    hide R3;
    FirstIsOffered(s, "t1", "o1");
    SecondWaits(s, "t2", "o2");
  }

  ghost predicate NobodyRejects(works: seq<Work>) {
    forall i, t :: 0 <= i < |works| ==> !IsReject(works[i], t)
  }

  lemma {:induction false} PeacefulWorks(es: seq<Event>)
    requires forall i :: 0 <= i < |es| ==> !RejectsOffer(es[i])
    ensures NobodyRejects(WorksOf(es))
  {
    if es != [] {
      var before := es[..|es|-1];
      assert forall i :: 0 <= i < |before| ==> before[i] == es[i];
      PeacefulWorks(before);
    }
  }

  lemma AddWork(works: seq<Work>, work: Work)
    requires NobodyRejects(works) && (forall t :: !IsReject(work, t)) && Enabled(PerformAll(works), work)
    ensures NobodyRejects(works + [work]) && PerformAll(works + [work]) == Perform(PerformAll(works), work)
  {
    assert (works + [work])[..|works|] == works;
  }

  lemma CallKeepsTrip(s: Store)
    requires Waiting(s)
    ensures "t2" in DoAll(s, "t2", CallOps(s, "t2", Request.AcceptRide("dave", "o1"))).trips
  {
    CallQueues(s);
  }

  /** From stores in which both rides are offered, the call and its job strand the first. */
  lemma CallAndJob(works: seq<Work>)
    requires NobodyRejects(works) && Waiting(PerformAll(works)) && Enabled(PerformAll(works), ACCEPT_CALL)
    requires "t1" in PerformAll(works).trips && Slice(PerformAll(works), "t1") == R3("o1")
    ensures var all := works + [ACCEPT_CALL] + [ACCEPT_JOB];
            NobodyRejects(all) && "t1" in PerformAll(all).trips && Stranded(Slice(PerformAll(all), "t1"))
  {
    var s := PerformAll(works);
    hide PerformAll;
    hide Waiting;
    hide NobodyRejects;
    hide Slice;
    hide DoAll;
    hide CallOps;
    hide LifecycleOps;
    hide Stranded;
    hide R3;
    BothWrites(s);
    AddWork(works, ACCEPT_CALL);
    CallKeepsTrip(s);
    AddWork(works + [ACCEPT_CALL], ACCEPT_JOB);
  }

  /** In all of the run nobody rejects anything. */
  lemma ForeignAcceptCanStrandRide()
    ensures exists works, t :: NobodyRejects(works) && t in PerformAll(works).trips && Stranded(Slice(PerformAll(works), t))
  {
    hide Represents;
    hide Slice;
    hide NobodyRejects;
    hide PerformAll;
    hide Stranded;
    hide Waiting;
    hide Enabled;
    hide R3;
    hide Two;
    hide Mirrors;
    hide WorksOf;
    var es := BothOffered("o1", "o2");
    var works := WorksOf(es);
    WorldRunsAreStored(es);
    PeacefulWorks(es);
    BothStored(PerformAll(works), Exec(es), R3("o1"), R3("o2"));
    OfferedIsWaiting(PerformAll(works), R3("o1"), R3("o2"));
    CallAndJob(works);
    var all := works + [ACCEPT_CALL] + [ACCEPT_JOB];
    assert "t1" in PerformAll(all).trips && Stranded(Slice(PerformAll(all), "t1"));
  }
}
