/** A run in which one driver ends up with two rides: he is offered both while he is free, and
    accepts both before the first ACCEPT job runs. Cancelling one of them then frees him although he
    drives the other. */
module DoubleBookingExample {
  import opened Base
  import opened StateMachine
  import opened Rides
  import opened Gateway
  import opened Cascade
  import opened Lifecycle
  import opened Dispatch
  import opened Busy
  import opened Storage
  import opened Refinement
  import opened HandlerRefinement
  import opened StoreRuns
  import opened Commute

  const DAVE_IS_NEAR := Geo(["dave"], map["dave" := 1.0], {})
  const FREE := Env(0, Directory(map["dave" := "D"], map["D" := "dave"]), map["rita" := "R"], {})
  const BUSY := FREE.(busy := {"dave"})

  // Each of the two rides goes through these states, with its own offer `o`.
  const R0 := FreshRide("R", 0.0, map[0 := Creating])
  const R1 := R0.(calls := map[], requests := Queue(map[RideRequest := NewRide], {RideRequest}))
  const R2 := R1.(requests := Queue(map[], {RideRequest}), matching := Queue(map[First := FIRST_JOB], {First}))

  function R3(o: OfferId): Ride {
    R2.(offers := map[o := Offer("D", Pending, 30000)],
        matching := Queue(map[TimeoutOf(o) := MatchJob(OfferTimeout(o), Some(2), Some(["dave"]), Some(30000))],
                          {First, TimeoutOf(o)}))
  }

  function R4(o: OfferId): Ride { R3(o).(calls := map[0 := AcceptChecked("D", o)]) }
  function R5(o: OfferId): Ride { R3(o).(calls := map[0 := AcceptLocked("D", o)], lock := Present("D", 300000)) }
  function R6(o: OfferId): Ride { R5(o).(calls := map[], lifecycle := Queue(map[AcceptKey := Accept("D", o)],
              {AcceptKey})) }

  function R7(o: OfferId): Ride {
    R6(o).(trip := R0.trip.(driver := Some("D"), status := Accepted, otp := Some("1234")),
           otpKey := Present("1234", 900000),
           offers := map[o := Offer("D", OfferAccepted, 30000)],
           matching := Queue(map[], {First}),
           lifecycle := Queue(map[], {AcceptKey}))
  }

  function R8(o: OfferId): Ride { R7(o).(calls := map[0 := RiderCancelChecked]) }
  function R9(o: OfferId): Ride { R7(o).(lifecycle := Queue(map[CancelKey := Cancel(RiderCancelled)], {AcceptKey,
              CancelKey})) }

  const E0 := Conclude(0)
  const E1 := RideEvent.RunRequest
  function E2(o: OfferId): RideEvent { RideEvent.RunMatching(First, DAVE_IS_NEAR, o) }
  function E3(o: OfferId): RideEvent { RideEvent.Begin(0, AcceptRide("dave", o)) }
  const E4 := RideEvent.TryLock(0)
  const E5 := Conclude(0)
  const E6 := RideEvent.RunLifecycle(AcceptKey, "1234")
  const E7 := RideEvent.Begin(0, CancelRide("rita"))
  const E8 := Conclude(0)
  const E9 := RideEvent.RunLifecycle(CancelKey, "1234")

  lemma RequestSteps()
    ensures RideStep(FREE, R0, E0) == Step(R1, Keep, Done)
    ensures RideStep(FREE, R1, E1) == Step(R2, Keep, Done)
  {
  }

  lemma OfferStep(o: OfferId)
    ensures RideStep(FREE, R2, E2(o)) == Step(R3(o), Keep, Done)
  {
    assert Eligible(DAVE_IS_NEAR, 5.0, {}, [], "dave");
    assert Available(DAVE_IS_NEAR.ranked, DAVE_IS_NEAR, 5.0, {}, []) == ["dave"];
    assert Decide(FREE, 1, [], DAVE_IS_NEAR) == MakeOffer("dave", "D");
    var r := RideStep(FREE, R2, E2(o)).ride;
    assert [] + ["dave"] == ["dave"];
    assert r.offers == R3(o).offers && r.matching.jobs == R3(o).matching.jobs && r.matching.seen == R3(o).matching.seen;
  }

  lemma AcceptSteps(o: OfferId)
    ensures RideStep(FREE, R3(o), E3(o)) == Step(R4(o), Keep, Done)
    ensures RideStep(FREE, R4(o), E4) == Step(R5(o), Keep, Done)
    ensures RideStep(FREE, R5(o), E5) == Step(R6(o), Keep, Done)
  {
  }

  lemma AcceptJob(env: Env, o: OfferId)
    requires env in {FREE, BUSY}
    ensures RideStep(env, R6(o), E6) == Step(R7(o), MarkBusy("dave"), Done)
  {
    var r := RideStep(env, R6(o), E6).ride;
    assert r.offers == R7(o).offers && r.matching.jobs == R7(o).matching.jobs && r.matching.seen == R7(o).matching.seen;
  }

  lemma CancelJob(o: OfferId)
    ensures RideStep(BUSY, R9(o), E9).effect == MarkFree("dave")
  {
  }

  lemma CancelSteps(o: OfferId)
    ensures RideStep(BUSY, R7(o), E7) == Step(R8(o), Keep, Done)
    ensures RideStep(BUSY, R8(o), E8) == Step(R9(o), Keep, Done)
    ensures RideStep(BUSY, R9(o), E9).effect == MarkFree("dave")
  {
    hide Handle;
    CancelJob(o);
  }

  /** Two rides of the same rider. */
  function Two(env: Env, a: Ride, b: Ride): World {
    World(env, map["t1" := a, "t2" := b])
  }

  predicate RejectsOffer(e: Event) {
    e.On? && e.event.Begin? && e.event.req.RejectRide?
  }

  /** Nobody rejects, and offer ids are those of one table. */
  ghost predicate Peaceful(es: seq<Event>) {
    OfferIdsFit(es) && forall i :: 0 <= i < |es| ==> !RejectsOffer(es[i])
  }

  lemma Then(es: seq<Event>, e: Event) returns (es': seq<Event>)
    requires Peaceful(es) && OfferIdFits(Exec(es), e) && !RejectsOffer(e)
    ensures es' == es + [e] && Exec(es') == Apply(Exec(es), e) && Peaceful(es')
  {
    es' := es + [e];
    assert es'[..|es|] == es;
  }

  lemma Opening() returns (es: seq<Event>)
    ensures Exec(es) == Two(FREE, R0, R0) && Peaceful(es)
  {
    var e1, e2 := RegisterRider("rita", "R"), RegisterDriver("dave", "D");
    var e3, e4 := CreateRide("rita", "t1", 0, 0.0), CreateRide("rita", "t2", 0, 0.0);
    es := [e1];
    assert es[..0] == [];
    es := Then(es, e2);
    es := Then(es, e3);
    es := Then(es, e4);
  }

  /** An event of ride `a`, no reject, whose offer ids do not clash with those of ride `b`. */
  predicate IdsFitBeside(e: RideEvent, a: Ride, b: Ride) {
    && (e.RunMatching? ==> e.newId !in a.offers && e.newId !in b.offers)
    && (e.Begin? ==> !e.req.RejectRide? && (e.req.AcceptRide? ==> e.req.offer !in b.offers))
  }

  /** One event on the first or the second ride. */
  lemma OnFirst(es: seq<Event>, env: Env, a: Ride, e: RideEvent, s: Step, b: Ride) returns (es': seq<Event>)
    requires Exec(es) == Two(env, a, b) && RideStep(env, a, e) == s
    requires Peaceful(es) && IdsFitBeside(e, a, b)
    ensures Exec(es') == Two(env.(busy := s.effect.On(env.busy)), s.ride, b) && Peaceful(es')
  {
    hide RideStep;
    es' := Then(es, On("t1", e));
  }

  lemma OnSecond(es: seq<Event>, env: Env, a: Ride, b: Ride, e: RideEvent, s: Step) returns (es': seq<Event>)
    requires Exec(es) == Two(env, a, b) && RideStep(env, b, e) == s
    requires Peaceful(es) && IdsFitBeside(e, b, a)
    ensures Exec(es') == Two(env.(busy := s.effect.On(env.busy)), a, s.ride) && Peaceful(es')
  {
    hide RideStep;
    es' := Then(es, On("t2", e));
  }

  /** One event on each ride, one after the other. */
  lemma Both(es: seq<Event>, a: Ride, e: RideEvent, a': Ride, b: Ride, f: RideEvent, b': Ride) returns (es': seq<Event>)
    requires Exec(es) == Two(FREE, a, b)
    requires RideStep(FREE, a, e) == Step(a', Keep, Done) && RideStep(FREE, b, f) == Step(b', Keep, Done)
    requires Peaceful(es) && IdsFitBeside(e, a, b) && IdsFitBeside(f, b, a')
    ensures Exec(es') == Two(FREE, a', b') && Peaceful(es')
  {
    hide RideStep;
    es' := OnFirst(es, FREE, a, e, Step(a', Keep, Done), b);
    es' := OnSecond(es', FREE, a', b, f, Step(b', Keep, Done));
  }

  lemma BothOffered(o: OfferId, o': OfferId) returns (es: seq<Event>)
    requires o != o'
    ensures Exec(es) == Two(FREE, R3(o), R3(o')) && Peaceful(es)
  {
    RequestSteps();
    OfferStep(o);
    OfferStep(o');
    es := Opening();
    hide RideStep;
    es := Both(es, R0, E0, R1, R0, E0, R1);
    es := Both(es, R1, E1, R2, R1, E1, R2);
    es := Both(es, R2, E2(o), R3(o), R2, E2(o'), R3(o'));
  }

  lemma BothAcceptQueued(o: OfferId, o': OfferId) returns (es: seq<Event>)
    requires o != o'
    ensures Exec(es) == Two(FREE, R6(o), R6(o')) && Peaceful(es)
  {
    AcceptSteps(o);
    AcceptSteps(o');
    es := BothOffered(o, o');
    hide RideStep;
    es := Both(es, R3(o), E3(o), R4(o), R3(o'), E3(o'), R4(o'));
    es := Both(es, R4(o), E4, R5(o), R4(o'), E4, R5(o'));
    es := Both(es, R5(o), E5, R6(o), R5(o'), E5, R6(o'));
  }

  lemma BothAccepted(o: OfferId, o': OfferId) returns (es: seq<Event>)
    requires o != o'
    ensures Exec(es) == Two(BUSY, R7(o), R7(o')) && Peaceful(es)
  {
    es := BothAcceptQueued(o, o');
    AcceptJob(FREE, o);
    AcceptJob(BUSY, o');
    hide RideStep;
    es := OnFirst(es, FREE, R6(o), E6, Step(R7(o), MarkBusy("dave"), Done), R6(o'));
    es := OnSecond(es, BUSY, R7(o), R6(o'), E6, Step(R7(o'), MarkBusy("dave"), Done));
    assert BUSY.busy + {"dave"} == BUSY.busy;
  }

  /** The state machine and the lock are per ride, so one driver can hold two rides. */
  lemma DriverCanHoldTwoRides()
    ensures exists es, u, t, t' :: t != t' && Drives(Exec(es), u, t) && Drives(Exec(es), u, t')
  {
    var es := BothAccepted("o1", "o2");
    assert "t1" != "t2" && Drives(Exec(es), "dave", "t1") && Drives(Exec(es), "dave", "t2");
  }

  /** And when one of them ends, he counts as free while he drives the other. */
  lemma DriverCanLookFree()
    ensures exists es, u, t :: Drives(Exec(es), u, t) && u !in Exec(es).env.busy
  {
    CancelSteps("o1");
    var es := BothAccepted("o1", "o2");
    hide RideStep;
    es := OnFirst(es, BUSY, R7("o1"), E7, Step(R8("o1"), Keep, Done), R7("o2"));
    es := OnFirst(es, BUSY, R8("o1"), E8, Step(R9("o1"), Keep, Done), R7("o2"));
    es := OnFirst(es, BUSY, R9("o1"), E9, RideStep(BUSY, R9("o1"), E9), R7("o2"));
    assert Drives(Exec(es), "dave", "t2") && "dave" !in Exec(es).env.busy;
  }

  // The first ride's rider cancels while his ride's ACCEPT waits.
  function C1(o: OfferId): Ride { R6(o).(calls := map[0 := RiderCancelChecked]) }
  function C2(o: OfferId): Ride { R6(o).(lifecycle := Queue(map[AcceptKey := Accept("D", o),
              CancelKey := Cancel(RiderCancelled)], {AcceptKey, CancelKey})) }

  lemma CancelWhileAccepting(o: OfferId)
    ensures RideStep(FREE, R6(o), E7) == Step(C1(o), Keep, Done)
    ensures RideStep(FREE, C1(o), E8) == Step(C2(o), Keep, Done)
  {
    hide Handle;
  }

  /** Two lifecycle jobs of one trip, each valid for its status, can wait side by side: what `Races` says two
      handlers that overlap do to a trip can come about. */
  lemma AcceptAndCancelCanWait()
    ensures exists es, t :: t in Exec(es).rides && Exec(es).rides[t].trip.status.Requested?
                            && AcceptKey in Exec(es).rides[t].lifecycle.jobs && CancelKey in Exec(es).rides[t].lifecycle.jobs
  {
    CancelWhileAccepting("o1");
    var es := BothAcceptQueued("o1", "o2");
    hide RideStep;
    es := OnFirst(es, FREE, R6("o1"), E7, Step(C1("o1"), Keep, Done), R6("o2"));
    es := OnFirst(es, FREE, C1("o1"), E8, Step(C2("o1"), Keep, Done), R6("o2"));
    assert Exec(es).rides["t1"] == C2("o1");
  }

  /** One ride's ACCEPT is queued, and the CANCEL of the other, which the same driver has accepted. */
  lemma AcceptMeetsCancel() returns (es: seq<Event>)
    ensures Exec(es) == Two(BUSY, R6("o1"), R9("o2")) && Peaceful(es)
  {
    es := BothAcceptQueued("o1", "o2");
    AcceptJob(FREE, "o2");
    CancelSteps("o2");
    hide RideStep;
    es := OnSecond(es, FREE, R6("o1"), R6("o2"), E6, Step(R7("o2"), MarkBusy("dave"), Done));
    es := OnSecond(es, BUSY, R6("o1"), R7("o2"), E7, Step(R8("o2"), Keep, Done));
    es := OnSecond(es, BUSY, R6("o1"), R8("o2"), E8, Step(R9("o2"), Keep, Done));
  }

  const ACCEPT_T1 := LifeWork("t1", AcceptKey, "1234")
  const CANCEL_T2 := LifeWork("t2", CancelKey, "1234")

  lemma QueuedIsEnabled(s: Store, r: Ride, work: Work)
    requires work.LifeWork? && Mirrors(s, work.trip, r) && work.lifeKey in r.lifecycle.jobs
    ensures Enabled(s, work)
  {
  }

  lemma AcceptMarks(o: OfferId)
    ensures AcceptKey in R6(o).lifecycle.jobs
    ensures Marks(BUSY.directory, R6(o).trip, R6(o).lifecycle.jobs[AcceptKey], "dave")
  {
  }

  lemma CancelFrees(o: OfferId)
    ensures CancelKey in R9(o).lifecycle.jobs
    ensures Frees(BUSY.directory, 0, R9(o).trip, R9(o).otpKey, R9(o).attempts, R9(o).lifecycle.jobs[CancelKey], "dave")
  {
  }

  lemma TheyDisagree(s: Store, a: Work, b: Work, o: OfferId, o': OfferId)
    requires s.env == BUSY && a.LifeWork? && b.LifeWork? && a.lifeKey == AcceptKey && b.lifeKey == CancelKey
    requires Mirrors(s, a.trip, R6(o)) && Mirrors(s, b.trip, R9(o'))
    ensures Enabled(s, a) && Enabled(s, b) && Disagree(s, a, b)
  {
    hide Mirrors;
    hide Enabled;
    hide Marks;
    hide Frees;
    hide WorkMarks;
    hide WorkFrees;
    hide R6;
    hide R9;
    AcceptMarks(o);
    CancelFrees(o');
    QueuedIsEnabled(s, R6(o), a);
    QueuedIsEnabled(s, R9(o'), b);
    WorkReadsItsRide(s, R6(o), a, "dave");
    WorkReadsItsRide(s, R9(o'), b, "dave");
    assert WorkMarks(s, a, "dave") && WorkFrees(s, b, "dave");
  }

  lemma SecondIsNotFirst(w: World, a: Ride, b: Ride)
    requires w == Two(BUSY, a, b)
    ensures ACCEPT_T1.trip != CANCEL_T2.trip
    ensures ACCEPT_T1.trip in w.rides && w.rides[ACCEPT_T1.trip] == a
    ensures CANCEL_T2.trip in w.rides && w.rides[CANCEL_T2.trip] == b
  {
    assert "t1"[1] != "t2"[1];
  }

  /** Two jobs that wait side by side in a reachable state of the stores, and whose order matters. */
  lemma OrderCanMatter()
    ensures exists works: seq<Work>, a: Work, b: Work ::
              && NameOwnOffers(works) && a.LifeWork? && b.LifeWork? && a.trip != b.trip
              && Enabled(PerformAll(works), a) && Enabled(PerformAll(works), b)
              && !OrderDoesNotMatter(PerformAll(works), a, b)
  {
    hide Enabled;
    hide Represents;
    hide Disagree;
    hide OrderDoesNotMatter;
    var es := AcceptMeetsCancel();
    var works := WorksOf(es);
    var s, w := PerformAll(works), Exec(es);
    WorldRunsAreStored(es);
    SecondIsNotFirst(w, R6("o1"), R9("o2"));
    RepresentedTrips(s, w);
    SliceMirrors(s, w, ACCEPT_T1.trip);
    SliceMirrors(s, w, CANCEL_T2.trip);
    TheyDisagree(s, ACCEPT_T1, CANCEL_T2, "o1", "o2");
    JobsCommuteIff(works, ACCEPT_T1, CANCEL_T2);
  }
}
