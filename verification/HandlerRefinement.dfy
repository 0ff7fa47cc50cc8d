/** Every call and handler, as a list of operations on the shared stores, is the corresponding event of
    the world of rides. */
module HandlerRefinement {
  import opened Base
  import opened Constants
  import opened StateMachine
  import opened Rides
  import opened Gateway
  import opened Cascade
  import opened Lifecycle
  import opened Dispatch
  import opened Storage
  import opened StoreOps
  import opened Refinement

  /** What code that reads the stores knows about the ride. */
  ghost predicate Mirrors(s: Store, t: TripId, r: Ride) {
    && t in s.trips && r.trip == s.trips[t]
    && r.lock == ReadKey(s.locks, t) && r.otpKey == ReadKey(s.otps, t) && r.attempts == ReadKey(s.attempts, t)
    && (forall o :: o in r.offers <==> o in s.offers && s.offers[o].trip == t)
    && (forall o :: o in r.offers ==> r.offers[o] == s.offers[o].offer)
    && (forall k :: k in r.matching.jobs <==> (t, k) in s.matching.jobs)
    && (forall k :: k in r.matching.jobs ==> r.matching.jobs[k] == s.matching.jobs[(t, k)])
    && (forall k :: k in r.lifecycle.jobs <==> (t, k) in s.lifecycle.jobs)
    && (forall k :: k in r.lifecycle.jobs ==> r.lifecycle.jobs[k] == s.lifecycle.jobs[(t, k)])
    && (RideRequest in r.requests.jobs <==> (t, RideRequest) in s.requests.jobs)
    && (forall c :: c in r.calls <==> (t, c) in s.calls)
    && (forall c :: c in r.calls ==> r.calls[c] == s.calls[(t, c)])
  }

  lemma SliceMirrors(s: Store, w: World, t: TripId)
    requires Represents(s, w) && t in w.rides
    ensures Mirrors(s, t, w.rides[t])
  {
  }

  // ---- Short lists ------------------------------------------------------------------------

  lemma {:induction false} ActAppend(r: Ride, busy: set<UserId>, a: seq<Op>, b: seq<Op>)
    ensures ActAll(r, a + b) == ActAll(ActAll(r, a), b)
    ensures ActBusyAll(busy, a + b) == ActBusyAll(ActBusyAll(busy, a), b)
    decreases |b|
  {
    if b == [] {
      assert a + b == a;
    } else {
      ActAppend(r, busy, a, b[..|b|-1]);
      assert (a + b)[..|a + b|-1] == a + b[..|b|-1];
    }
  }

  lemma ActOne(r: Ride, busy: set<UserId>, x: Op)
    ensures ActAll(r, [x]) == Act(r, x) && ActBusyAll(busy, [x]) == ActBusy(busy, x)
  {
    assert [x][..0] == [];
  }

  lemma ActThen(r: Ride, busy: set<UserId>, ops: seq<Op>, x: Op)
    ensures ActAll(r, ops + [x]) == Act(ActAll(r, ops), x)
    ensures ActBusyAll(busy, ops + [x]) == ActBusy(ActBusyAll(busy, ops), x)
  {
    assert (ops + [x])[..|ops|] == ops;
  }

  lemma ActTwo(r: Ride, busy: set<UserId>, x: Op, y: Op)
    ensures ActAll(r, [x, y]) == Act(Act(r, x), y)
    ensures ActBusyAll(busy, [x, y]) == ActBusy(ActBusy(busy, x), y)
  {
    ActOne(r, busy, x);
    ActThen(r, busy, [x], y);
    assert [x, y] == [x] + [y];
  }

  lemma ActThree(r: Ride, busy: set<UserId>, x: Op, y: Op, z: Op)
    ensures ActAll(r, [x, y, z]) == Act(Act(Act(r, x), y), z)
    ensures ActBusyAll(busy, [x, y, z]) == ActBusy(ActBusy(ActBusy(busy, x), y), z)
  {
    ActTwo(r, busy, x, y);
    ActThen(r, busy, [x, y], z);
    assert [x, y, z] == [x, y] + [z];
  }

  lemma ActFour(r: Ride, busy: set<UserId>, x: Op, y: Op, z: Op, u: Op)
    ensures ActAll(r, [x, y, z, u]) == Act(Act(Act(Act(r, x), y), z), u)
    ensures ActBusyAll(busy, [x, y, z, u]) == ActBusy(ActBusy(ActBusy(ActBusy(busy, x), y), z), u)
  {
    ActThree(r, busy, x, y, z);
    ActThen(r, busy, [x, y, z], u);
    assert [x, y, z, u] == [x, y, z] + [u];
  }

  // ---- The lifecycle handlers -------------------------------------------------------------

  /** The operations `ops` on ride `r` have the effect of step `step`. */
  ghost predicate Realizes(s: Store, r: Ride, ops: seq<Op>, step: Step) {
    ActAll(r, ops) == step.ride && ActBusyAll(s.env.busy, ops) == step.effect.On(s.env.busy)
  }

  lemma ExpireOthers(r: Ride, o: OfferId)
    requires o in r.offers
    ensures Act(Act(r, MarkOffer(o, OfferAccepted)), ExpireOffers(Some(o))).offers
         == ExpirePending(SetStatus(r.offers, o, OfferAccepted))
  {
  }

  lemma ActParts(r: Ride, busy: set<UserId>, a: seq<Op>, b: seq<Op>, c: seq<Op>)
    ensures ActAll(r, a + b + c) == ActAll(ActAll(ActAll(r, a), b), c)
    ensures ActBusyAll(busy, a + b + c) == ActBusyAll(ActBusyAll(ActBusyAll(busy, a), b), c)
  {
    ActAppend(r, busy, a + b, c);
    ActAppend(r, busy, a, b);
  }

  lemma AcceptHeadActs(r: Ride, o: OfferId, row: Trip)
    requires o in r.offers
    ensures Act(Act(Act(Act(r, MarkOffer(o, OfferAccepted)), ExpireOffers(Some(o))), RemoveTimeouts), SaveTrip(row))
         == r.(offers := ExpirePending(SetStatus(r.offers, o, OfferAccepted)),
               matching := r.matching.Remove(DelayedTimeouts(r.matching)),
               trip := row)
  {
    ExpireOthers(r, o);
  }

  lemma AcceptHead(r: Ride, busy: set<UserId>, o: OfferId, row: Trip)
    requires o in r.offers
    ensures var head := [MarkOffer(o, OfferAccepted), ExpireOffers(Some(o)), RemoveTimeouts, SaveTrip(row)];
            && ActBusyAll(busy, head) == busy
            && ActAll(r, head) == r.(offers := ExpirePending(SetStatus(r.offers, o, OfferAccepted)),
                                     matching := r.matching.Remove(DelayedTimeouts(r.matching)),
                                     trip := row)
  {
    hide Act;
    ActFour(r, busy, MarkOffer(o, OfferAccepted), ExpireOffers(Some(o)), RemoveTimeouts, SaveTrip(row));
    AcceptHeadActs(r, o, row);
  }

  lemma AcceptMark(s: Store, r: Ride, d: DriverId)
    ensures var mark := MarkBusyOps(s, d);
            var effect := if d in s.env.directory.byId then MarkBusy(s.env.directory.byId[d]) else Keep;
            ActAll(r, mark) == r && ActBusyAll(s.env.busy, mark) == effect.On(s.env.busy)
  {
    if d in s.env.directory.byId {
      ActOne(r, s.env.busy, AddBusy(s.env.directory.byId[d]));
    }
  }

  lemma AcceptTailActs(r: Ride, busy: set<UserId>, otp: string, expiry: nat, row: Trip)
    ensures Act(Act(r, SetOtp(otp, expiry)), SaveTrip(row)) == r.(otpKey := Present(otp, expiry), trip := row)
    ensures forall b: set<UserId> :: ActBusy(ActBusy(b, SetOtp(otp, expiry)), SaveTrip(row)) == b
  {
  }

  lemma AcceptPartsAct(s: Store, r: Ride, d: DriverId, o: OfferId, row: Trip, setOtp: Op, saveOtp: Op)
    requires o in r.offers && setOtp.SetOtp? && saveOtp.SaveTrip?
    ensures var head := [MarkOffer(o, OfferAccepted), ExpireOffers(Some(o)), RemoveTimeouts, SaveTrip(row)];
            var ops := head + MarkBusyOps(s, d) + [setOtp, saveOtp];
            var effect := if d in s.env.directory.byId then MarkBusy(s.env.directory.byId[d]) else Keep;
            && ActAll(r, ops) == r.(offers := ExpirePending(SetStatus(r.offers, o, OfferAccepted)),
                                    matching := r.matching.Remove(DelayedTimeouts(r.matching)),
                                    trip := saveOtp.row,
                                    otpKey := Present(setOtp.otp, setOtp.expiry))
            && ActBusyAll(s.env.busy, ops) == effect.On(s.env.busy)
  {
    var head := [MarkOffer(o, OfferAccepted), ExpireOffers(Some(o)), RemoveTimeouts, SaveTrip(row)];
    var mark := MarkBusyOps(s, d);
    AcceptHead(r, s.env.busy, o, row);
    AcceptMark(s, ActAll(r, head), d);
    AcceptTailActs(ActAll(r, head), s.env.busy, setOtp.otp, setOtp.expiry, saveOtp.row);
    hide Act;
    hide ActBusy;
    hide ActAll;
    hide ActBusyAll;
    ActTwo(ActAll(r, head), ActBusyAll(s.env.busy, mark), setOtp, saveOtp);
    ActParts(r, s.env.busy, head, mark, [setOtp, saveOtp]);
  }

  lemma AcceptIsRealized(s: Store, t: TripId, r: Ride, d: DriverId, o: OfferId, otp: string)
    requires Mirrors(s, t, r) && (o in s.offers ==> s.offers[o].trip == t)
    ensures Realizes(s, r, AcceptOps(s, t, d, o, otp), HandleAccept(s.env, r, d, o, otp))
  {
    if r.trip.status.Requested? && o in s.offers {
      var row := s.trips[t].(driver := Some(d), status := Accepted);
      var setOtp, saveOtp := SetOtp(otp, s.env.now + OTP_TTL_MS), SaveTrip(row.(otp := Some(otp)));
      var head := [MarkOffer(o, OfferAccepted), ExpireOffers(Some(o)), RemoveTimeouts, SaveTrip(row)];
      assert AcceptOps(s, t, d, o, otp) == head + MarkBusyOps(s, d) + [setOtp, saveOtp];
      hide AcceptOps;
      hide ActAll;
      hide ActBusyAll;
      AcceptPartsAct(s, r, d, o, row, setOtp, saveOtp);
    }
  }

  lemma ReleaseIsRealized(s: Store, t: TripId, r: Ride, r1: Ride)
    requires Mirrors(s, t, r)
    ensures ActAll(r1, ReleaseOps(s, t)) == r1
    ensures ActBusyAll(s.env.busy, ReleaseOps(s, t)) == Release(s.env, r).On(s.env.busy)
  {
    if ReleaseOps(s, t) != [] {
      ActOne(r1, s.env.busy, ReleaseOps(s, t)[0]);
    }
  }

  lemma ExpireAll(r: Ride)
    ensures Act(r, ExpireOffers(None)).offers == ExpirePending(r.offers)
  {
  }

  lemma CancelTailActs(r: Ride, busy: set<UserId>)
    ensures var tail := [DeleteOtp, DeleteAttempts, DeleteLock, ExpireOffers(None)];
            && ActAll(r, tail) == r.(otpKey := Absent, attempts := Absent, lock := Absent, offers := ExpirePending(r.offers))
            && ActBusyAll(busy, tail) == busy
  {
    ActFour(r, busy, DeleteOtp, DeleteAttempts, DeleteLock, ExpireOffers(None));
    ExpireAll(Act(Act(Act(r, DeleteOtp), DeleteAttempts), DeleteLock));
    hide ActAll;
    hide ActBusyAll;
  }

  /** `attempts` may already have been written by the guess that cancels the ride. */
  lemma CancelIsRealized(s: Store, t: TripId, r: Ride, attempts: Key<nat>)
    requires Mirrors(s, t, r)
    ensures Realizes(s, r.(attempts := attempts), CancelOps(s, t), HandleCancel(s.env, r.(attempts := attempts)))
  {
    var r0 := r.(attempts := attempts);
    if IsValidTransition(r.trip.status, Cancelled) {
      var save := SaveTrip(s.trips[t].(status := Cancelled));
      var busy := s.env.busy;
      ActOne(r0, busy, save);
      ReleaseIsRealized(s, t, r, Act(r0, save));
      CancelTailActs(Act(r0, save), ActBusyAll(busy, ReleaseOps(s, t)));
      hide ActAll;
      hide ActBusyAll;
      hide ReleaseOps;
      hide Release;
      ActParts(r0, busy, [save], ReleaseOps(s, t), [DeleteOtp, DeleteAttempts, DeleteLock, ExpireOffers(None)]);
    }
  }

  /** What a guess leads to once its attempt, the n-th, is counted. */
  function JudgedStep(env: Env, r: Ride, right: bool, n: nat): Step {
    if right then
      if !IsValidTransition(r.trip.status, Started) then ThrowTransition(r, Started)
      else Step(r.(trip := r.trip.(status := Started), otpKey := Absent, attempts := Absent), Keep, Done)
    else if MAX_OTP_ATTEMPTS - n <= 0 then HandleCancel(env, r)
    else Step(r, Keep, Done)
  }

  lemma GuessIsRealized(s: Store, t: TripId, r: Ride, right: bool, n: nat, attempts: Key<nat>)
    requires Mirrors(s, t, r)
    ensures var r1 := r.(attempts := attempts);
            Realizes(s, r1, GuessOps(s, t, right, n), JudgedStep(s.env, r1, right, n))
  {
    var r1 := r.(attempts := attempts);
    hide CancelOps;
    hide HandleCancel;
    if right {
      if IsValidTransition(r.trip.status, Started) {
        ActThree(r1, s.env.busy, SaveTrip(s.trips[t].(status := Started)), DeleteOtp, DeleteAttempts);
      }
    } else if MAX_OTP_ATTEMPTS - n <= 0 {
      CancelIsRealized(s, t, r, attempts);
    }
  }

  lemma VerifyOtpIsRealized(s: Store, t: TripId, r: Ride, guess: string)
    requires Mirrors(s, t, r)
    ensures Realizes(s, r, VerifyOtpOps(s, t, guess), HandleVerifyOtp(s.env, r, guess))
  {
    var stored := r.otpKey.Get(s.env.now);
    if stored.Some? {
      hide GuessOps;
      hide HandleCancel;
      var n, expiry := r.attempts.Get(s.env.now).GetOr(0) + 1, s.env.now + OTP_TTL_MS;
      var rest := GuessOps(s, t, guess == stored.value, n);
      assert VerifyOtpOps(s, t, guess) == [SetAttempts(n, expiry)] + rest;
      ActOne(r, s.env.busy, SetAttempts(n, expiry));
      ActAppend(r, s.env.busy, [SetAttempts(n, expiry)], rest);
      GuessIsRealized(s, t, r, guess == stored.value, n, Present(n, expiry));
      hide Mirrors;
      hide VerifyOtpOps;
      hide ActAll;
      hide ActBusyAll;
    }
  }

  lemma CompleteSave(r: Ride, busy: set<UserId>, now: nat)
    ensures var save := if r.trip.status.Completed? then [] else [SaveTrip(CompletedTrip(r.trip, now))];
            ActAll(r, save) == r.(trip := CompletedTrip(r.trip, now)) && ActBusyAll(busy, save) == busy
  {
    if !r.trip.status.Completed? {
      ActOne(r, busy, SaveTrip(CompletedTrip(r.trip, now)));
    }
  }

  lemma KeysAreDeleted(r: Ride, busy: set<UserId>)
    ensures ActAll(r, [DeleteLock, DeleteOtp, DeleteAttempts]) == r.(lock := Absent, otpKey := Absent, attempts := Absent)
    ensures ActBusyAll(busy, [DeleteLock, DeleteOtp, DeleteAttempts]) == busy
  {
    ActThree(r, busy, DeleteLock, DeleteOtp, DeleteAttempts);
  }

  lemma CompleteIsRealized(s: Store, t: TripId, r: Ride)
    requires Mirrors(s, t, r)
    ensures Realizes(s, r, CompleteOps(s, t), HandleComplete(s.env, r))
  {
    hide Act;
    hide ActBusy;
    if r.trip.status in {Started, Completed} {
      var save := if r.trip.status.Completed? then [] else [SaveTrip(CompletedTrip(r.trip, s.env.now))];
      assert CompleteOps(s, t) == save + ReleaseOps(s, t) + [DeleteLock, DeleteOtp, DeleteAttempts];
      CompleteSave(r, s.env.busy, s.env.now);
      ReleaseIsRealized(s, t, r, ActAll(r, save));
      KeysAreDeleted(ActAll(r, save), ActBusyAll(s.env.busy, ReleaseOps(s, t)));
      hide ActAll;
      hide ActBusyAll;
      ActParts(r, s.env.busy, save, ReleaseOps(s, t), [DeleteLock, DeleteOtp, DeleteAttempts]);
    }
  }

  lemma HandlerIsRealized(s: Store, t: TripId, r: Ride, job: LifeJob, otp: string)
    requires Mirrors(s, t, r)
    requires job.Accept? && job.offer in s.offers ==> s.offers[job.offer].trip == t
    ensures Realizes(s, r, HandlerOps(s, t, job, otp), Handle(s.env, r, job, otp))
  {
    match job
    case Accept(d, o) => AcceptIsRealized(s, t, r, d, o, otp);
    case VerifyOtp(_, guess) => VerifyOtpIsRealized(s, t, r, guess);
    case Cancel(_) => CancelIsRealized(s, t, r, r.attempts);
    case Complete(_) => CompleteIsRealized(s, t, r);
  }

  lemma GuessReads(s: Store, s': Store, t: TripId, right: bool, n: nat)
    requires s'.trips == s.trips && s'.env == s.env
    ensures GuessOps(s', t, right, n) == GuessOps(s, t, right, n)
  {
  }

  /** The lifecycle handlers do not look at their own queue. */
  lemma HandlersIgnoreQueue(s: Store, q: Queue<JobId<LifeKey>, LifeJob>, t: TripId, job: LifeJob, otp: string)
    ensures HandlerOps(s.(lifecycle := q), t, job, otp) == HandlerOps(s, t, job, otp)
  {
    if job.VerifyOtp? {
      GuessReads(s, s.(lifecycle := q), t, ReadKey(s.otps, t).Get(s.env.now) == Some(job.otp),
                 ReadKey(s.attempts, t).Get(s.env.now).GetOr(0) + 1);
    }
  }

  lemma FinishMirrors(s: Store, t: TripId, r: Ride, k: LifeKey)
    requires Mirrors(s, t, r)
    ensures Mirrors(Do(s, t, FinishLifecycle(k)), t, r.(lifecycle := r.lifecycle.Finish(k)))
  {
    assert Do(s, t, FinishLifecycle(k)) == s.(lifecycle := s.lifecycle.Finish((t, k)));
    hide Do;
  }

  lemma LifecycleIsRealized(s: Store, t: TripId, r: Ride, k: LifeKey, otp: string)
    requires Mirrors(s, t, r) && k in r.lifecycle.jobs
    requires var job := r.lifecycle.jobs[k]; job.Accept? && job.offer in s.offers ==> s.offers[job.offer].trip == t
    ensures Realizes(s, r, LifecycleOps(s, t, k, otp), Lifecycle.RunLifecycle(s.env, r, k, otp))
  {
    hide HandlerOps;
    hide Handle;
    var job, finish := r.lifecycle.jobs[k], FinishLifecycle(k);
    ActOne(r, s.env.busy, finish);
    ActAppend(r, s.env.busy, [finish], HandlerOps(s, t, job, otp));
    HandlersIgnoreQueue(s, s.lifecycle.Finish((t, k)), t, job, otp);
    FinishMirrors(s, t, r, k);
    HandlerIsRealized(Do(s, t, finish), t, r.(lifecycle := r.lifecycle.Finish(k)), job, otp);
  }

  // ---- The matching worker ----------------------------------------------------------------

  lemma CascadeIsRealized(s: Store, r: Ride, attempt: nat, skipped: seq<UserId>, geo: Geo, newId: OfferId)
    ensures Realizes(s, r, CascadeOps(s, attempt, skipped, geo, newId),
                     Step(RunCascade(s.env, r, attempt, skipped, geo, newId), Keep, Done))
  {
    var ops := CascadeOps(s, attempt, skipped, geo, newId);
    match Decide(s.env, attempt, skipped, geo)
    case GiveUp => ActOne(r, s.env.busy, ops[0]);
    case Continue(_, _) => ActOne(r, s.env.busy, ops[0]);
    case MakeOffer(_, _) =>
      assert ops == [ops[0], ops[1]];
      ActTwo(r, s.env.busy, ops[0], ops[1]);
  }

  lemma MatchingIsRealized(s: Store, t: TripId, r: Ride, k: MatchKey, geo: Geo, newId: OfferId)
    requires Mirrors(s, t, r) && Ready(r, k, newId) && newId !in s.offers
    requires var name := r.matching.jobs[k].name; name.OfferTimeout? && name.offer in s.offers ==> s.offers[name.offer].trip == t
    ensures Realizes(s, r, MatchingOps(s, t, k, geo, newId), Step(Cascade.RunMatching(s.env, r, k, geo, newId), Keep, Done))
  {
    var job, busy := r.matching.jobs[k], s.env.busy;
    var finish := FinishMatching(k);
    var cascade := CascadeOps(s, job.Attempt(), job.Skipped(), geo, newId);
    ActOne(r, busy, finish);
    if Inert(r, job) {
      assert MatchingOps(s, t, k, geo, newId) == [finish];
    } else if job.name.OfferTimeout? {
      var expire := MarkOffer(job.name.offer, Expired);
      assert MatchingOps(s, t, k, geo, newId) == [finish, expire] + cascade;
      ActTwo(r, busy, finish, expire);
      assert BeforeCascade(r, k) == Act(Act(r, finish), expire);
      CascadeIsRealized(s, BeforeCascade(r, k), job.Attempt(), job.Skipped(), geo, newId);
      ActAppend(r, busy, [finish, expire], cascade);
    } else {
      assert MatchingOps(s, t, k, geo, newId) == [finish] + cascade;
      assert BeforeCascade(r, k) == Act(r, finish);
      CascadeIsRealized(s, BeforeCascade(r, k), job.Attempt(), job.Skipped(), geo, newId);
      ActAppend(r, busy, [finish], cascade);
    }
  }

  // ---- The gateway ------------------------------------------------------------------------

  /** A gateway call that no other step interleaves with: its guards, the lock, its last write. */
  function WholeCall(env: Env, r: Ride, c: CallId, req: Request): Ride {
    Gateway.Conclude(env, Gateway.TryLock(env, Gateway.Begin(env, r, c, req), c), c)
  }

  /** The client's offer is one of the trip he names. */
  predicate OfferOfTrip(s: Store, t: TripId, req: Request) {
    (req.AcceptRide? || req.RejectRide?) && req.offer in s.offers ==> s.offers[req.offer].trip == t
  }

  lemma AdmitMirrors(s: Store, t: TripId, r: Ride, req: Request)
    requires Mirrors(s, t, r) && OfferOfTrip(s, t, req)
    ensures StoreAdmit(s, t, req) == Admit(s.env, r, req)
    ensures t in s.trips && r.lock == ReadKey(s.locks, t)
  {
  }

  lemma CallMirrors(s: Store, t: TripId, r: Ride, c: CallId)
    requires Mirrors(s, t, r)
    ensures (t, c) in s.calls <==> c in r.calls
    ensures c in r.calls ==> s.calls[(t, c)] == r.calls[c]
    ensures ReadKey(s.locks, t) == r.lock
  {
  }

  lemma CallComesAndGoes(calls: map<CallId, Call>, c: CallId, call: Call, call': Call)
    requires c !in calls
    ensures calls[c := call] - {c} == calls && calls[c := call][c := call'] == calls[c := call']
  {
  }

  lemma LastWriteLeavesBusy(busy: set<UserId>, now: nat, call: Call)
    requires !call.AcceptChecked?
    ensures ActBusy(busy, LastWrite(now, call)) == busy
  {
  }

  lemma WriteIgnoresCalls(r: Ride, now: nat, call: Call, c: CallId, calls: map<CallId, Call>)
    requires !call.AcceptChecked?
    ensures Act(r.(calls := calls), LastWrite(now, call)) == Act(r, LastWrite(now, call)).(calls := calls)
    ensures Act(r, LastWrite(now, call)).calls == r.calls
  {
  }

  lemma EndCallActs(r: Ride, c: CallId)
    ensures Act(r, EndCall(c)) == r.(calls := r.calls - {c})
  {
  }

  lemma LastWriteActs(r: Ride, now: nat, call: Call)
    requires !call.AcceptChecked?
    ensures Act(r, LastWrite(now, call)) ==
              match call
              case Creating => r.(requests := r.requests.Add(RideRequest, NewRide))
              case AcceptLocked(d, o) => r.(lifecycle := r.lifecycle.Add(AcceptKey, Accept(d, o)))
              case Rejecting(u, o) =>
                r.(matching := r.matching.Add(RejectOf(o), MatchJob(CascadeReject, Some(1), Some([u]), None)))
              case VerifyChecked(d, otp) => r.(lifecycle := r.lifecycle.Add(VerifyKey(now), VerifyOtp(d, otp)))
              case RiderCancelChecked => r.(lifecycle := r.lifecycle.Add(CancelKey, Cancel(RiderCancelled)))
              case DriverCancelChecked(d) => r.(lifecycle := r.lifecycle.Add(DriverCancelKey, Cancel(DriverCancelled(d))))
              case CompleteChecked(d) => r.(lifecycle := r.lifecycle.Add(CompleteKey, Complete(d)))
  {
  }

  /** Concluding a call is its last write and the end of the call. */
  lemma ConcludeActs(env: Env, r: Ride, c: CallId)
    requires c in r.calls && !r.calls[c].AcceptChecked?
    ensures Gateway.Conclude(env, r, c) == Act(Act(r, LastWrite(env.now, r.calls[c])), EndCall(c))
  {
    var call := r.calls[c];
    WriteIgnoresCalls(r, env.now, call, c, r.calls - {c});
    EndCallActs(Act(r, LastWrite(env.now, call)), c);
    LastWriteActs(r.(calls := r.calls - {c}), env.now, call);
    hide Act;
    hide LastWrite;
  }

  /** Ending the call a moment after it began leaves only its last write. */
  lemma ConcludeAtOnce(env: Env, r: Ride, c: CallId, call: Call)
    requires c !in r.calls && !call.AcceptChecked?
    ensures Gateway.Conclude(env, r.(calls := r.calls[c := call]), c) == Act(r, LastWrite(env.now, call))
  {
    hide LastWrite;
    hide Gateway.Conclude;
    var r1 := r.(calls := r.calls[c := call]);
    ConcludeActs(env, r1, c);
    WriteIgnoresCalls(r, env.now, call, c, r1.calls);
    CallComesAndGoes(r.calls, c, call, call);
  }

  lemma ConcludeNothing(env: Env, r: Ride, c: CallId)
    requires c !in r.calls
    ensures Gateway.Conclude(env, r, c) == r && Gateway.TryLock(env, r, c) == r
  {
  }

  lemma AcceptIsNoReject(env: Env, r: Ride, req: Request)
    ensures Admit(env, r, req).Some? ==> (Admit(env, r, req).value.Rejecting? <==> req.RejectRide?)
    ensures Admit(env, r, req).Some? && req.RejectRide? ==>
              req.offer in r.offers && Admit(env, r, req).value == Rejecting(req.user, req.offer)
    ensures Admit(env, r, req).Some? ==> !Admit(env, r, req).value.AcceptLocked? && !Admit(env, r, req).value.Creating?
  {
  }

  lemma AcceptWhole(env: Env, r: Ride, c: CallId, req: Request, d: DriverId, o: OfferId)
    requires c !in r.calls && Admit(env, r, req) == Some(AcceptChecked(d, o))
    ensures WholeCall(env, r, c, req) ==
              if r.lock.Get(env.now).Some? then r
              else Act(Act(r, SetLock(d, env.now + RIDE_LOCK_TTL_MS)), LastWrite(env.now, AcceptLocked(d, o)))
  {
    hide Admit;
    hide Gateway.Conclude;
    hide LastWrite;
    var r1 := r.(calls := r.calls[c := AcceptChecked(d, o)]);
    var r2 := r.(lock := Present(d, env.now + RIDE_LOCK_TTL_MS));
    AcceptIsNoReject(env, r, req);
    assert Gateway.Begin(env, r, c, req) == r1;
    CallComesAndGoes(r.calls, c, AcceptChecked(d, o), AcceptLocked(d, o));
    if r.lock.Get(env.now).Some? {
      assert Gateway.TryLock(env, r1, c) == r;
      ConcludeNothing(env, r, c);
    } else {
      assert Gateway.TryLock(env, r1, c) == r2.(calls := r.calls[c := AcceptLocked(d, o)]);
      ConcludeAtOnce(env, r2, c, AcceptLocked(d, o));
    }
  }

  lemma OtherWhole(env: Env, r: Ride, c: CallId, req: Request, call: Call)
    requires c !in r.calls && Admit(env, r, req) == Some(call) && !call.AcceptChecked?
    ensures WholeCall(env, r, c, req) ==
              if call.Rejecting? then Act(Act(r, MarkOffer(call.offer, Rejected)), LastWrite(env.now, call))
              else Act(r, LastWrite(env.now, call))
  {
    hide Admit;
    hide Gateway.Conclude;
    hide LastWrite;
    AcceptIsNoReject(env, r, req);
    var r1 := if call.Rejecting? then Act(r, MarkOffer(call.offer, Rejected)) else r;
    assert Gateway.Begin(env, r, c, req) == r1.(calls := r.calls[c := call]);
    assert Gateway.TryLock(env, r1.(calls := r.calls[c := call]), c) == r1.(calls := r.calls[c := call]);
    ConcludeAtOnce(env, r1, c, call);
  }

  lemma NoCall(env: Env, r: Ride, c: CallId, req: Request)
    requires c !in r.calls && Admit(env, r, req).None?
    ensures WholeCall(env, r, c, req) == r
  {
    ConcludeNothing(env, r, c);
  }

  lemma CallIsRealized(s: Store, t: TripId, r: Ride, c: CallId, req: Request)
    requires Mirrors(s, t, r) && OfferOfTrip(s, t, req) && c !in r.calls
    ensures Realizes(s, r, CallOps(s, t, req), Step(WholeCall(s.env, r, c, req), Keep, Done))
  {
    hide StoreAdmit;
    hide Admit;
    hide Act;
    hide LastWrite;
    hide WholeCall;
    AdmitMirrors(s, t, r, req);
    hide Mirrors;
    var now, busy := s.env.now, s.env.busy;
    var call := Admit(s.env, r, req);
    if call.None? {
      NoCall(s.env, r, c, req);
    } else if call.value.AcceptChecked? {
      var d, o := call.value.driver, call.value.offer;
      AcceptWhole(s.env, r, c, req, d, o);
      LastWriteLeavesBusy(busy, now, AcceptLocked(d, o));
      ActTwo(r, busy, SetLock(d, now + RIDE_LOCK_TTL_MS), LastWrite(now, AcceptLocked(d, o)));
    } else {
      OtherWhole(s.env, r, c, req, call.value);
      LastWriteLeavesBusy(busy, now, call.value);
      if call.value.Rejecting? {
        ActTwo(r, busy, MarkOffer(call.value.offer, Rejected), LastWrite(now, call.value));
        assert CallOps(s, t, req) == [MarkOffer(call.value.offer, Rejected), LastWrite(now, call.value)];
      } else {
        ActOne(r, busy, LastWrite(now, call.value));
      }
    }
  }

  // ---- The gateway, step by step ----------------------------------------------------------

  lemma BeginIsRealized(s: Store, t: TripId, r: Ride, c: CallId, req: Request)
    requires Mirrors(s, t, r) && OfferOfTrip(s, t, req)
    ensures Realizes(s, r, BeginOps(s, t, c, req), Step(Gateway.Begin(s.env, r, c, req), Keep, Done))
  {
    hide StoreAdmit;
    hide Admit;
    AdmitMirrors(s, t, r, req);
    CallMirrors(s, t, r, c);
    hide Mirrors;
    var call := Admit(s.env, r, req);
    if c !in r.calls && call.Some? {
      AcceptIsNoReject(s.env, r, req);
      if req.RejectRide? {
        assert BeginOps(s, t, c, req) == [MarkOffer(req.offer, Rejected), SetCall(c, call.value)];
        ActTwo(r, s.env.busy, MarkOffer(req.offer, Rejected), SetCall(c, call.value));
      } else {
        assert BeginOps(s, t, c, req) == [SetCall(c, call.value)];
        ActOne(r, s.env.busy, SetCall(c, call.value));
      }
    }
  }

  lemma TryLockIsRealized(s: Store, t: TripId, r: Ride, c: CallId)
    requires Mirrors(s, t, r)
    ensures Realizes(s, r, TryLockOps(s, t, c), Step(Gateway.TryLock(s.env, r, c), Keep, Done))
  {
    CallMirrors(s, t, r, c);
    hide Mirrors;
    var ops := TryLockOps(s, t, c);
    if |ops| == 1 {
      ActOne(r, s.env.busy, ops[0]);
    } else if ops != [] {
      ActTwo(r, s.env.busy, ops[0], ops[1]);
    }
  }

  lemma ConcludeIsRealized(s: Store, t: TripId, r: Ride, c: CallId)
    requires Mirrors(s, t, r)
    ensures Realizes(s, r, ConcludeOps(s, t, c), Step(Gateway.Conclude(s.env, r, c), Keep, Done))
  {
    CallMirrors(s, t, r, c);
    hide Mirrors;
    hide Act;
    hide LastWrite;
    if c in r.calls && !r.calls[c].AcceptChecked? {
      hide Gateway.Conclude;
      var write := LastWrite(s.env.now, r.calls[c]);
      ConcludeActs(s.env, r, c);
      LastWriteLeavesBusy(s.env.busy, s.env.now, r.calls[c]);
      ActTwo(r, s.env.busy, write, EndCall(c));
    }
  }
}
