/** A run in which the right guess is lost: two guesses of one trip within a millisecond share a job id. */
module DroppedGuessExample {
  import opened Base
  import opened Rides
  import opened Gateway
  import opened Lifecycle
  import opened Dispatch
  import opened StoreRuns
  import opened DoubleBookingExample

  // The accepted ride after each step of the two calls
  const WRONG := VerifyChecked("D", "0000")
  const RIGHT := VerifyChecked("D", "1234")
  const Q1 := Queue(map[VerifyKey(0) := VerifyOtp("D", "0000")], {AcceptKey, VerifyKey(0)})

  function G1(o: OfferId): Ride { R7(o).(calls := map[0 := WRONG]) }
  function G2(o: OfferId): Ride { R7(o).(calls := map[0 := WRONG, 1 := RIGHT]) }
  function G3(o: OfferId): Ride { R7(o).(calls := map[1 := RIGHT], lifecycle := Q1) }

  const F1 := RideEvent.Begin(0, SubmitOtp("dave", "0000"))
  const F2 := RideEvent.Begin(1, SubmitOtp("dave", "1234"))
  const F3 := RideEvent.Conclude(0)

  lemma FirstGuess(o: OfferId)
    ensures RideStep(BUSY, R7(o), F1) == Step(G1(o), Keep, Done)
  {
  }

  lemma SecondGuess(o: OfferId)
    ensures RideStep(BUSY, G1(o), F2) == Step(G2(o), Keep, Done)
  {
  }

  lemma FirstEnds(o: OfferId)
    ensures RideStep(BUSY, G2(o), F3) == Step(G3(o), Keep, Done)
  {
    assert RideStep(BUSY, G2(o), F3).ride.calls == G3(o).calls;
  }

  /** Ride `r` is ACCEPTED, call `c` is about to succeed with the right guess, and no job will hold it. */
  ghost predicate LosesRightGuess(env: Env, r: Ride, c: CallId) {
    && r.trip.status.Accepted? && c in r.calls && r.calls[c].VerifyChecked? && r.trip.otp == Some(r.calls[c].otp)
    && var jobs := Gateway.Conclude(env, r, c).lifecycle.jobs;
       forall k :: k in jobs && jobs[k].VerifyOtp? ==> jobs[k].otp != r.calls[c].otp
  }

  lemma LosesIt(o: OfferId)
    ensures LosesRightGuess(BUSY, G3(o), 1)
  {
  }

  lemma Guesses(o: OfferId, o': OfferId) returns (es: seq<Event>)
    requires o != o'
    ensures Exec(es) == Two(BUSY, G3(o), R7(o'))
  {
    FirstGuess(o);
    SecondGuess(o);
    FirstEnds(o);
    es := BothAccepted(o, o');
    hide RideStep;
    hide R7;
    hide G1;
    hide G2;
    hide G3;
    es := OnFirst(es, BUSY, R7(o), F1, Step(G1(o), Keep, Done), R7(o'));
    es := OnFirst(es, BUSY, G1(o), F2, Step(G2(o), Keep, Done), R7(o'));
    es := OnFirst(es, BUSY, G2(o), F3, Step(G3(o), Keep, Done), R7(o'));
  }

  lemma RightGuessCanBeDropped()
    ensures exists es, t, c :: t in Exec(es).rides && LosesRightGuess(Exec(es).env, Exec(es).rides[t], c)
  {
    var es := Guesses("o1", "o2");
    LosesIt("o1");
    hide LosesRightGuess;
    hide G3;
    hide R7;
    assert "t1" in Exec(es).rides && LosesRightGuess(Exec(es).env, Exec(es).rides["t1"], 1);
  }
}
