/** A run in which a reject loses a ride. The rejected ride's chain restarts at attempt 1, and its
    second run wants the job id `match:{trip}:2`, which the first chain has already used. */
module LostRideExample {
  import opened Base
  import opened Rides
  import opened Gateway
  import opened Cascade
  import opened Lifecycle
  import opened Dispatch
  import opened Frames
  import opened Invariants
  import opened Runs
  import opened Chain
  import opened NoLostRide

  const NOBODY := Geo([], map[], {})
  const ONE_FAR_DRIVER := Geo(["dave"], map["dave" := 6.0], {})

  const ENV := Env(0, Directory(map["dave" := "D"], map["D" := "dave"]), map["rita" := "R"], {})

  // The ride after each event of the story
  const SECOND_JOB := MatchJob(CascadeExpanded, Some(2), Some([]), None)
  const TIMEOUT := MatchJob(OfferTimeout("o"), Some(3), Some(["dave"]), Some(30000))
  const RESTART := MatchJob(CascadeReject, Some(1), Some(["dave"]), None)
  const R0 := FreshRide("R", 0.0, map[0 := Creating])
  const R1 := R0.(calls := map[], requests := Queue(map[RideRequest := NewRide], {RideRequest}))
  const R2 := R1.(requests := Queue(map[], {RideRequest}), matching := Queue(map[First := FIRST_JOB], {First}))
  const R3 := R2.(matching := Queue(map[Next(2) := SECOND_JOB], {First, Next(2)}))
  const R4 := R3.(offers := map["o" := Offer("D", Pending, 30000)],
                  matching := Queue(map[TimeoutOf("o") := TIMEOUT], {First, Next(2), TimeoutOf("o")}))
  const R5 := R4.(offers := map["o" := Offer("D", Rejected, 30000)], calls := map[0 := Rejecting("dave", "o")])
  const R6 := R5.(calls := map[], matching := Queue(map[TimeoutOf("o") := TIMEOUT, RejectOf("o") := RESTART],
                                                    {First, Next(2), TimeoutOf("o"), RejectOf("o")}))

  const E0 := Conclude(0)                                               // the request is queued
  const E1 := RideEvent.RunRequest                                      // match:{t}
  const E2 := RideEvent.RunMatching(First, NOBODY, "o")                 // nobody within 5 km: match:{t}:2
  const E3 := RideEvent.RunMatching(Next(2), ONE_FAR_DRIVER, "o")       // an offer at 6 km
  const E4 := RideEvent.Begin(0, RejectRide("dave", "o"))
  const E5 := Conclude(0)                                               // reject-cascade:{t}:{o}
  const E6 := RideEvent.RunMatching(RejectOf("o"), NOBODY, "o2")        // match:{t}:2 again

  lemma Step0()
    ensures RideStep(ENV, R0, E0) == Step(R1, Keep, Done)
  {
  }

  lemma Step1()
    ensures RideStep(ENV, R1, E1) == Step(R2, Keep, Done)
  {
  }

  lemma Step2()
    ensures RideStep(ENV, R2, E2) == Step(R3, Keep, Done)
  {
    assert Decide(ENV, 1, [], NOBODY) == Continue(CascadeExpanded, []);
  }

  lemma Step3()
    ensures RideStep(ENV, R3, E3) == Step(R4, Keep, Done)
  {
    assert Eligible(ONE_FAR_DRIVER, 10.0, {}, [], "dave");
    assert Available(ONE_FAR_DRIVER.ranked, ONE_FAR_DRIVER, 10.0, {}, []) == ["dave"];
    assert Decide(ENV, 2, [], ONE_FAR_DRIVER) == MakeOffer("dave", "D");
    var r := RideStep(ENV, R3, E3).ride;
    assert [] + ["dave"] == ["dave"];
    assert r.offers == R4.offers && r.matching.jobs == R4.matching.jobs && r.matching.seen == R4.matching.seen;
  }

  lemma Step4()
    ensures RideStep(ENV, R4, E4) == Step(R5, Keep, Done)
  {
  }

  lemma Step5()
    ensures RideStep(ENV, R5, E5) == Step(R6, Keep, Done)
  {
  }

  lemma Step6()
    ensures DropsContinuation(ENV, R6, E6)
  {
    assert Decide(ENV, 1, ["dave"], NOBODY) == Continue(CascadeExpanded, ["dave"]);
  }

  const OPENING: seq<Event> := [RegisterRider("rita", "R"), RegisterDriver("dave", "D"), CreateRide("rita", "t", 0, 0.0)]

  lemma Append(es: seq<Event>, e: Event, t: TripId)
    ensures Exec(es + [e]) == Apply(Exec(es), e)
    ensures StaleRejects(es + [e], t) == StaleRejects(es, t) +
              if e.On? && e.trip == t && t in Exec(es).rides && !RejectHitsPending(Exec(es).env, Exec(es).rides[t], e.event)
              then 1 else 0
  {
    assert (es + [e])[..|es|] == es;
  }

  lemma Opening()
    ensures Exec(OPENING) == World(ENV, map["t" := R0])
    ensures StaleRejects(OPENING, "t") == 0
  {
    var es0: seq<Event> := [];
    var es1 := es0 + [OPENING[0]];
    var es2 := es1 + [OPENING[1]];
    assert OPENING == es2 + [OPENING[2]];
    Append(es0, OPENING[0], "t");
    Append(es1, OPENING[1], "t");
    Append(es2, OPENING[2], "t");
  }

  lemma Follow(es: seq<Event>, r: Ride, e: RideEvent, r': Ride)
    requires Exec(es) == World(ENV, map["t" := r]) && StaleRejects(es, "t") == 0
    requires RideStep(ENV, r, e) == Step(r', Keep, Done) && RejectHitsPending(ENV, r, e)
    ensures Exec(es + [On("t", e)]) == World(ENV, map["t" := r']) && StaleRejects(es + [On("t", e)], "t") == 0
  {
    Append(es, On("t", e), "t");
  }

  /** The run up to the restarted chain's first cascade run. */
  lemma Story() returns (es: seq<Event>)
    ensures Exec(es) == World(ENV, map["t" := R6]) && StaleRejects(es, "t") == 0
  {
    Opening();
    es := OPENING;
    Step0(); Follow(es, R0, E0, R1); es := es + [On("t", E0)];
    Step1(); Follow(es, R1, E1, R2); es := es + [On("t", E1)];
    Step2(); Follow(es, R2, E2, R3); es := es + [On("t", E2)];
    Step3(); Follow(es, R3, E3, R4); es := es + [On("t", E3)];
    Step4(); Follow(es, R4, E4, R5); es := es + [On("t", E4)];
    Step5(); Follow(es, R5, E5, R6); es := es + [On("t", E5)];
  }

  lemma StoryInv(es: seq<Event>, r: Ride)
    requires Exec(es) == World(ENV, map["t" := r]) && StaleRejects(es, "t") == 0
    ensures RideInv(ENV.now, ENV.directory, r) && ChainInv(r)
  {
    hide RideInv;
    hide ChainInv;
    hide StaleRejects;
    hide Exec;
    ReachableInv(es);
    ChainHolds(es, "t");
    InvOf(Exec(es), "t");
  }

  lemma FollowTo(es: seq<Event>, r: Ride, e: RideEvent)
    requires Exec(es) == World(ENV, map["t" := r]) && StaleRejects(es, "t") == 0 && RejectHitsPending(ENV, r, e)
    ensures var es' := es + [On("t", e)];
            "t" in Exec(es').rides && Exec(es').rides["t"] == RideStep(ENV, r, e).ride && StaleRejects(es', "t") == 0
  {
    hide RideStep;
    Append(es, On("t", e), "t");
  }

  lemma DropStrands()
    requires RideInv(ENV.now, ENV.directory, R6) && ChainInv(R6)
    ensures Stranded(RideStep(ENV, R6, E6).ride)
  {
    Step6();
    RunMatchingMovesToken(ENV, R6, E6);
    MatchingFrame(ENV, R6, E6);
    ContinueMovesToken(ENV, R6, E6);
    hide RideInv;
    hide RideStep;
    hide ChainInv;
    hide HasToken;
  }

  /** "No lost ride" does not survive rejects: this run rejects one PENDING offer, and the ride stays
      REQUESTED with nothing left that would match or cancel it. */
  lemma RejectCanStrandRide()
    ensures exists es, t :: RejectsHitPending(es, t) && t in Exec(es).rides && Stranded(Exec(es).rides[t])
  {
    var before := Story();
    var es := before + [On("t", E6)];
    hide RideInv;
    hide ChainInv;
    hide Stranded;
    hide RideStep;
    hide StaleRejects;
    hide Exec;
    StoryInv(before, R6);
    DropStrands();
    FollowTo(before, R6, E6);
    assert "t" in Exec(es).rides && Stranded(Exec(es).rides["t"]);
  }
}
