/** What work about one trip does to the others, in any run, whatever offers the clients name. The trips share
    tables, keys and queues, but all a call or job writes is under its own trip's id, save one write: the
    status of the offer it names. */
module Isolation {
  import opened Base
  import opened Rides
  import opened Gateway
  import opened Dispatch
  import opened Storage
  import opened StoreOps
  import opened StoreRuns

  // ---- One operation ----------------------------------------------------------------------

  lemma MatchingOfOthers(s: Store, t: TripId, op: Op, t': TripId)
    requires t' != t
    ensures QueueOf(Do(s, t, op).matching, t') == QueueOf(s.matching, t')
  {
    hide QueueOf;
    if op.AddMatching? {
      QueueAdd(s.matching, (t, op.matchKey), op.matchJob, t');
    } else if op.FinishMatching? {
      QueueFinish(s.matching, (t, op.doneMatch), t');
    } else if op.RemoveTimeouts? {
      QueueRemove(s.matching, TimeoutIds(s.matching, t), t');
      assert SeenOf(TimeoutIds(s.matching, t), t') == {};
      Refinement.RemoveNothing(QueueOf(s.matching, t'));
    }
  }

  lemma OtherQueuesOfOthers(s: Store, t: TripId, op: Op, t': TripId)
    requires t' != t
    ensures QueueOf(Do(s, t, op).requests, t') == QueueOf(s.requests, t')
    ensures QueueOf(Do(s, t, op).lifecycle, t') == QueueOf(s.lifecycle, t')
  {
    hide QueueOf;
    if op.AddRequest? {
      QueueAdd(s.requests, (t, RideRequest), NewRide, t');
    } else if op.FinishRequest? {
      QueueFinish(s.requests, (t, RideRequest), t');
    } else if op.AddLifecycle? {
      QueueAdd(s.lifecycle, (t, op.lifeKey), op.lifeJob, t');
    } else if op.FinishLifecycle? {
      QueueFinish(s.lifecycle, (t, op.doneLife), t');
    }
  }

  lemma CallsDone(s: Store, t: TripId, op: Op)
    ensures Do(s, t, op).calls ==
              if op.SetCall? then s.calls[(t, op.call) := op.state]
              else if op.EndCall? then s.calls - {(t, op.ended)}
              else s.calls
  {
  }

  lemma CallsOfOthers(s: Store, t: TripId, op: Op, t': TripId)
    requires t' != t
    ensures JobsOf(Do(s, t, op).calls, t') == JobsOf(s.calls, t')
  {
    hide JobsOf;
    CallsDone(s, t, op);
    hide Do;
    if op.SetCall? {
      Refinement.SetCallOf(s.calls, t, op.call, op.state, t');
    } else if op.EndCall? {
      Refinement.EndCallOf(s.calls, t, op.ended, t');
    }
  }

  lemma KeysOfOthers(s: Store, t: TripId, op: Op, t': TripId)
    requires t' != t
    ensures var s' := Do(s, t, op);
            && ReadKey(s'.locks, t') == ReadKey(s.locks, t')
            && ReadKey(s'.otps, t') == ReadKey(s.otps, t')
            && ReadKey(s'.attempts, t') == ReadKey(s.attempts, t')
            && (t' in s'.trips <==> t' in s.trips) && (t' in s.trips ==> s'.trips[t'] == s.trips[t'])
  {
  }

  /** Only the offers of another trip can change. */
  lemma DoLeavesOthers(s: Store, t: TripId, op: Op, t': TripId)
    requires t' != t && t' in s.trips
    ensures var s' := Do(s, t, op);
            t' in s'.trips && Slice(s', t') == Slice(s, t').(offers := OffersOf(s'.offers, t'))
  {
    KeysOfOthers(s, t, op, t');
    MatchingOfOthers(s, t, op, t');
    OtherQueuesOfOthers(s, t, op, t');
    CallsOfOthers(s, t, op, t');
    hide Do;
    hide OffersOf;
    hide JobsOf;
    hide QueueOf;
  }

  lemma {:induction false} DoAllLeavesOthers(s: Store, t: TripId, ops: seq<Op>, t': TripId)
    requires t' != t && t' in s.trips
    ensures var s' := DoAll(s, t, ops);
            t' in s'.trips && Slice(s', t') == Slice(s, t').(offers := OffersOf(s'.offers, t'))
  {
    if ops != [] {
      DoAllLeavesOthers(s, t, ops[..|ops|-1], t');
      DoLeavesOthers(DoAll(s, t, ops[..|ops|-1]), t, ops[|ops|-1], t');
      hide Do;
      hide Slice;
    }
  }

  // ---- The offers of other trips ----------------------------------------------------------

  /** The status that the operations leave an offer in, if one of them marks it. */
  function LastMark(ops: seq<Op>, o: OfferId): Option<OfferStatus> {
    if ops == [] then None
    else if ops[|ops|-1].MarkOffer? && ops[|ops|-1].offer == o then Some(ops[|ops|-1].status)
    else LastMark(ops[..|ops|-1], o)
  }

  predicate InsertsNew(s: Store, ops: seq<Op>) {
    forall op :: op in ops && op.InsertOffer? ==> op.id !in s.offers
  }

  lemma DoToRow(s: Store, t: TripId, op: Op, o: OfferId)
    requires o in s.offers && s.offers[o].trip != t && (op.InsertOffer? ==> op.id != o)
    ensures var row := s.offers[o];
            && o in Do(s, t, op).offers
            && Do(s, t, op).offers[o] ==
                 if op.MarkOffer? && op.offer == o then OfferRow(row.trip, row.offer.(status := op.status)) else row
  {
  }

  lemma {:induction false} RowAfter(s: Store, t: TripId, ops: seq<Op>, o: OfferId)
    requires InsertsNew(s, ops) && o in s.offers && s.offers[o].trip != t
    ensures var row, mark := s.offers[o], LastMark(ops, o);
            && o in DoAll(s, t, ops).offers
            && DoAll(s, t, ops).offers[o] ==
                 if mark.Some? then OfferRow(row.trip, row.offer.(status := mark.value)) else row
  {
    if ops != [] {
      var before, op := ops[..|ops|-1], ops[|ops|-1];
      assert op in ops && forall x :: x in before ==> x in ops;
      RowAfter(s, t, before, o);
      DoToRow(DoAll(s, t, before), t, op, o);
      hide Do;
    }
  }

  lemma DoAddsOwn(s: Store, t: TripId, op: Op, o: OfferId)
    requires o in Do(s, t, op).offers && o !in s.offers
    ensures Do(s, t, op).offers[o].trip == t
  {
  }

  lemma OwnStaysOwn(s: Store, t: TripId, op: Op, o: OfferId)
    requires o in s.offers && s.offers[o].trip == t
    ensures o in Do(s, t, op).offers && Do(s, t, op).offers[o].trip == t
  {
  }

  lemma {:induction false} NewRowsAreOwn(s: Store, t: TripId, ops: seq<Op>, o: OfferId)
    requires o in DoAll(s, t, ops).offers && (o !in s.offers || s.offers[o].trip == t)
    ensures DoAll(s, t, ops).offers[o].trip == t
  {
    if ops != [] {
      var before := DoAll(s, t, ops[..|ops|-1]);
      if o in before.offers {
        NewRowsAreOwn(s, t, ops[..|ops|-1], o);
        OwnStaysOwn(before, t, ops[|ops|-1], o);
      } else {
        DoAddsOwn(before, t, ops[|ops|-1], o);
      }
      hide Do;
    }
  }

  /** Some operation changes the status of an offer of another trip. */
  ghost predicate ChangesForeign(s: Store, t: TripId, ops: seq<Op>) {
    exists o :: o in s.offers && s.offers[o].trip != t
                && LastMark(ops, o).Some? && LastMark(ops, o).value != s.offers[o].offer.status
  }

  /** Every other trip's row, keys, offers, jobs and calls are as they were. */
  ghost predicate LeavesOthers(s: Store, s': Store, t: TripId) {
    forall t' :: t' in s.trips && t' != t ==> t' in s'.trips && Slice(s', t') == Slice(s, t')
  }

  lemma OffersOfOthers(s: Store, t: TripId, ops: seq<Op>, t': TripId)
    requires InsertsNew(s, ops) && t' != t && !ChangesForeign(s, t, ops)
    ensures OffersOf(DoAll(s, t, ops).offers, t') == OffersOf(s.offers, t')
  {
    var offers := DoAll(s, t, ops).offers;
    forall o | o in offers && offers[o].trip == t' ensures o in s.offers && s.offers[o].trip != t {
      if o !in s.offers || s.offers[o].trip == t {
        NewRowsAreOwn(s, t, ops, o);
        assert false;
      }
    }
    forall o | o in s.offers && s.offers[o].trip != t ensures o in offers && offers[o] == s.offers[o] {
      RowAfter(s, t, ops, o);
    }
    hide DoAll;
    hide LastMark;
  }

  lemma ForeignChangeShows(s: Store, t: TripId, ops: seq<Op>, o: OfferId)
    requires Consistent(s) && InsertsNew(s, ops) && o in s.offers && s.offers[o].trip != t
    requires LastMark(ops, o).Some? && LastMark(ops, o).value != s.offers[o].offer.status
    ensures !LeavesOthers(s, DoAll(s, t, ops), t)
  {
    var s', t' := DoAll(s, t, ops), s.offers[o].trip;
    RowAfter(s, t, ops, o);
    DoAllLeavesOthers(s, t, ops, t');
    assert OffersOf(s'.offers, t')[o] != OffersOf(s.offers, t')[o];
    hide DoAll;
  }

  lemma OperationsLeaveOthersIff(s: Store, t: TripId, ops: seq<Op>)
    requires Consistent(s) && InsertsNew(s, ops)
    ensures LeavesOthers(s, DoAll(s, t, ops), t) <==> !ChangesForeign(s, t, ops)
  {
    var s' := DoAll(s, t, ops);
    if ChangesForeign(s, t, ops) {
      var o :| o in s.offers && s.offers[o].trip != t
               && LastMark(ops, o).Some? && LastMark(ops, o).value != s.offers[o].offer.status;
      ForeignChangeShows(s, t, ops, o);
    } else {
      forall t' | t' in s.trips && t' != t ensures t' in s'.trips && Slice(s', t') == Slice(s, t') {
        DoAllLeavesOthers(s, t, ops, t');
        OffersOfOthers(s, t, ops, t');
      }
    }
  }

  // ---- Consistent in every run ------------------------------------------------------------

  lemma QueueStaysWithin<K, J>(q: Queue<JobId<K>, J>, trips: set<TripId>, id: JobId<K>, j: J, ids: set<JobId<K>>)
    requires QueueWithin(q, trips) && id.0 in trips
    ensures QueueWithin(q.Add(id, j), trips) && QueueWithin(q.Finish(id), trips) && QueueWithin(q.Remove(ids), trips)
  {
  }

  lemma QueuesKeepConsistent(s: Store, requests: Queue<JobId<RequestKey>, RequestJob>,
                             matching: Queue<JobId<MatchKey>, MatchJob>, lifecycle: Queue<JobId<LifeKey>, LifeJob>)
    requires Consistent(s)
    requires QueueWithin(requests, s.trips.Keys) && QueueWithin(matching, s.trips.Keys)
    requires QueueWithin(lifecycle, s.trips.Keys)
    ensures Consistent(s.(requests := requests, matching := matching, lifecycle := lifecycle))
  {
    hide QueueWithin;
    hide KeysWithin;
  }

  lemma QueuesAreWithin(s: Store)
    requires Consistent(s)
    ensures var trips := s.trips.Keys;
            QueueWithin(s.requests, trips) && QueueWithin(s.matching, trips) && QueueWithin(s.lifecycle, trips)
  {
    hide QueueWithin;
    hide KeysWithin;
  }

  lemma MatchingOpKeepsConsistent(s: Store, t: TripId, op: Op)
    requires Consistent(s) && t in s.trips && (op.AddMatching? || op.FinishMatching? || op.RemoveTimeouts?)
    ensures Consistent(Do(s, t, op)) && Do(s, t, op).trips == s.trips
  {
    QueuesAreWithin(s);
    hide Consistent;
    hide QueueWithin;
    var trips, q := s.trips.Keys, Do(s, t, op).matching;
    match op {
      case AddMatching(k, job) => QueueStaysWithin(s.matching, trips, (t, k), job, {});
      case FinishMatching(k) => QueueStaysWithin(s.matching, trips, (t, k), FIRST_JOB, {});
      case RemoveTimeouts => QueueStaysWithin(s.matching, trips, (t, First), FIRST_JOB, TimeoutIds(s.matching, t));
    }
    assert Do(s, t, op) == s.(requests := s.requests, matching := q, lifecycle := s.lifecycle);
    hide Do;
    QueuesKeepConsistent(s, s.requests, q, s.lifecycle);
  }

  lemma OtherQueueOpKeepsConsistent(s: Store, t: TripId, op: Op)
    requires Consistent(s) && t in s.trips
    requires op.AddRequest? || op.FinishRequest? || op.AddLifecycle? || op.FinishLifecycle?
    ensures Consistent(Do(s, t, op)) && Do(s, t, op).trips == s.trips
  {
    QueuesAreWithin(s);
    hide Consistent;
    hide QueueWithin;
    var trips, s' := s.trips.Keys, Do(s, t, op);
    match op {
      case AddRequest => QueueStaysWithin(s.requests, trips, (t, RideRequest), NewRide, {});
      case FinishRequest => QueueStaysWithin(s.requests, trips, (t, RideRequest), NewRide, {});
      case AddLifecycle(k, job) => QueueStaysWithin(s.lifecycle, trips, (t, k), job, {});
      case FinishLifecycle(k) => QueueStaysWithin(s.lifecycle, trips, (t, k), Cancel(NoDrivers), {});
    }
    assert s' == s.(requests := s'.requests, matching := s.matching, lifecycle := s'.lifecycle);
    hide Do;
    QueuesKeepConsistent(s, s'.requests, s.matching, s'.lifecycle);
  }

  lemma KeyOpKeepsConsistent(s: Store, t: TripId, op: Op)
    requires Consistent(s) && t in s.trips
    requires op.SetLock? || op.SetOtp? || op.SetAttempts? || op.DeleteLock? || op.DeleteOtp? || op.DeleteAttempts?
    ensures Consistent(Do(s, t, op)) && Do(s, t, op).trips == s.trips
  {
    hide QueueWithin;
  }

  lemma SaveKeepsConsistent(s: Store, t: TripId, row: Trip)
    requires Consistent(s)
    ensures Consistent(s.(trips := s.trips[t := row]))
  {
  }

  lemma OtherOpKeepsConsistent(s: Store, t: TripId, op: Op)
    requires Consistent(s) && t in s.trips
    requires op.MarkOffer? || op.ExpireOffers? || op.InsertOffer? || op.AddBusy? || op.RemoveBusy? || op.SetCall?
             || op.EndCall?
    ensures Consistent(Do(s, t, op)) && Do(s, t, op).trips == s.trips
  {
    hide QueueWithin;
    hide KeysWithin;
  }

  lemma DoKeepsConsistent(s: Store, t: TripId, op: Op)
    requires Consistent(s) && (t in s.trips || op.SaveTrip?)
    ensures Consistent(Do(s, t, op)) && s.trips.Keys <= Do(s, t, op).trips.Keys
    ensures op.SaveTrip? ==> t in Do(s, t, op).trips
  {
    hide Consistent;
    if op.SaveTrip? {
      SaveKeepsConsistent(s, t, op.row);
    } else if op.SetLock? || op.SetOtp? || op.SetAttempts? || op.DeleteLock? || op.DeleteOtp? || op.DeleteAttempts? {
      KeyOpKeepsConsistent(s, t, op);
    } else if op.AddMatching? || op.FinishMatching? || op.RemoveTimeouts? {
      MatchingOpKeepsConsistent(s, t, op);
    } else if op.AddRequest? || op.FinishRequest? || op.AddLifecycle? || op.FinishLifecycle? {
      OtherQueueOpKeepsConsistent(s, t, op);
    } else {
      OtherOpKeepsConsistent(s, t, op);
    }
  }

  lemma {:induction false} DoAllKeepsConsistent(s: Store, t: TripId, ops: seq<Op>)
    requires Consistent(s) && (t in s.trips || (ops != [] && ops[0].SaveTrip?))
    ensures Consistent(DoAll(s, t, ops)) && s.trips.Keys <= DoAll(s, t, ops).trips.Keys
    ensures ops != [] ==> t in DoAll(s, t, ops).trips
  {
    hide Consistent;
    hide Do;
    if |ops| == 1 {
      assert ops[..0] == [];
      DoKeepsConsistent(s, t, ops[0]);
    } else if ops != [] {
      DoAllKeepsConsistent(s, t, ops[..|ops|-1]);
      DoKeepsConsistent(DoAll(s, t, ops[..|ops|-1]), t, ops[|ops|-1]);
    }
  }

  /** What a piece of work about a trip writes. */
  function OpsOf(s: Store, work: Work): seq<Op>
    requires Enabled(s, work) && !work.Wait? && !work.AddDriver? && !work.AddRider? && !work.Due?
  {
    match work
    case NewTripCall(u, _, meters) => [SaveTrip(NewTrip(s.env.riders[u], meters)), AddRequest]
    case Call(t, _, req) => CallOps(s, t, req)
    case TripOpens(u, _, c, meters) => [SaveTrip(NewTrip(s.env.riders[u], meters)), SetCall(c, Creating)]
    case CallBegins(t, c, req) => BeginOps(s, t, c, req)
    case CallLocks(t, c) => TryLockOps(s, t, c)
    case CallEnds(t, c) => ConcludeOps(s, t, c)
    case RequestWork(_) => REQUEST_OPS
    case MatchWork(t, k, geo, newId) => MatchingOps(s, t, k, geo, newId)
    case LifeWork(t, k, otp) => LifecycleOps(s, t, k, otp)
  }

  lemma PromoteKeepsConsistent(s: Store, id: JobId<MatchKey>)
    requires Consistent(s) && id in s.matching.jobs
    ensures Consistent(s.(matching := PromoteIn(s.matching, id)))
  {
  }

  lemma WorkKeepsConsistent(s: Store, work: Work)
    requires Consistent(s) && Enabled(s, work)
    ensures Consistent(Perform(s, work))
  {
    hide Consistent;
    if work.Wait? || work.AddDriver? || work.AddRider? {
      Refinement.EnvKeepsConsistent(s, Perform(s, work).env);
    } else if work.Due? {
      PromoteKeepsConsistent(s, (work.trip, work.dueKey));
    } else {
      hide Do;
      DoAllKeepsConsistent(s, work.trip, OpsOf(s, work));
    }
  }

  lemma {:induction false} StoresStayConsistent(works: seq<Work>)
    ensures Consistent(PerformAll(works))
  {
    hide Perform;
    hide Enabled;
    if works != [] {
      hide Consistent;
      StoresStayConsistent(works[..|works|-1]);
      if Enabled(PerformAll(works[..|works|-1]), works[|works|-1]) {
        WorkKeepsConsistent(PerformAll(works[..|works|-1]), works[|works|-1]);
      }
    }
  }

  // ---- Whole works ------------------------------------------------------------------------

  /** Offer `o` is another trip's, and its status would change. */
  predicate IsForeign(s: Store, t: TripId, o: OfferId, status: OfferStatus) {
    o in s.offers && s.offers[o].trip != t && s.offers[o].offer.status != status
  }

  /** The work is a reject by the driver of another trip's offer, or runs an ACCEPT that names one, or its
      timeout. */
  predicate RewritesForeign(s: Store, work: Work)
    requires Enabled(s, work)
  {
    match work
    case Call(t, _, RejectRide(u, o)) => StoreOwnsOffer(s, u, o) && IsForeign(s, t, o, Rejected)
    case CallBegins(t, c, RejectRide(u, o)) =>
      (t, c) !in s.calls && StoreOwnsOffer(s, u, o) && IsForeign(s, t, o, Rejected)
    case LifeWork(t, k, _) =>
      var job := s.lifecycle.jobs[(t, k)];
      job.Accept? && s.trips[t].status.Requested? && IsForeign(s, t, job.offer, OfferAccepted)
    case MatchWork(t, k, _, _) =>
      var name := s.matching.jobs[(t, k)].name;
      name.OfferTimeout? && StillPending(s, name.offer) && IsForeign(s, t, name.offer, Expired)
    case _ => false
  }

  lemma {:induction false} NoMark(ops: seq<Op>, o: OfferId)
    requires forall i :: 0 <= i < |ops| ==> !ops[i].MarkOffer?
    ensures LastMark(ops, o) == None
  {
    if ops != [] {
      NoMark(ops[..|ops|-1], o);
    }
  }

  lemma {:induction false} OneMark(ops: seq<Op>, i: nat, o: OfferId)
    requires i < |ops| && ops[i].MarkOffer? && forall j :: 0 <= j < |ops| && j != i ==> !ops[j].MarkOffer?
    ensures LastMark(ops, o) == if o == ops[i].offer then Some(ops[i].status) else None
  {
    var before := ops[..|ops|-1];
    if i == |ops| - 1 {
      NoMark(before, o);
    } else {
      assert before[i] == ops[i] && forall j :: 0 <= j < |before| ==> before[j] == ops[j];
      OneMark(before, i, o);
    }
  }

  /** The operations of a list that mark an offer: none, or one. */
  ghost predicate MarksOnly(ops: seq<Op>, mark: Option<Op>) {
    match mark
    case None => forall i :: 0 <= i < |ops| ==> !ops[i].MarkOffer?
    case Some(op) =>
      op.MarkOffer? && exists i :: 0 <= i < |ops| && ops[i] == op
                         && forall j :: 0 <= j < |ops| && j != i ==> !ops[j].MarkOffer?
  }

  lemma ChangesForeignIff(s: Store, t: TripId, ops: seq<Op>, mark: Option<Op>)
    requires MarksOnly(ops, mark)
    ensures ChangesForeign(s, t, ops) <==> mark.Some? && IsForeign(s, t, mark.value.offer, mark.value.status)
  {
    forall o ensures LastMark(ops, o) == if mark.Some? && mark.value.offer == o then Some(mark.value.status) else None {
      if mark.Some? {
        var i :| 0 <= i < |ops| && ops[i] == mark.value && forall j :: 0 <= j < |ops| && j != i ==> !ops[j].MarkOffer?;
        OneMark(ops, i, o);
      } else {
        NoMark(ops, o);
      }
    }
    hide LastMark;
  }

  /** The mark a piece of work makes. */
  function MarkOf(s: Store, work: Work): Option<Op>
    requires Enabled(s, work)
  {
    match work
    case Call(_, _, RejectRide(u, o)) => if StoreOwnsOffer(s, u, o) then Some(MarkOffer(o, Rejected)) else None
    case CallBegins(t, c, RejectRide(u, o)) =>
      if (t, c) !in s.calls && StoreOwnsOffer(s, u, o) then Some(MarkOffer(o, Rejected)) else None
    case LifeWork(t, k, _) =>
      var job := s.lifecycle.jobs[(t, k)];
      if job.Accept? && s.trips[t].status.Requested? && job.offer in s.offers then Some(MarkOffer(job.offer, OfferAccepted))
      else None
    case MatchWork(t, k, _, _) =>
      var name := s.matching.jobs[(t, k)].name;
      if name.OfferTimeout? && StillPending(s, name.offer) then Some(MarkOffer(name.offer, Expired)) else None
    case _ => None
  }

  /** Operations that neither mark nor insert an offer. */
  ghost predicate LeaveOffers(ops: seq<Op>) {
    forall i :: 0 <= i < |ops| ==> !ops[i].MarkOffer? && !ops[i].InsertOffer?
  }

  lemma CancelLeavesOffers(s: Store, t: TripId)
    ensures LeaveOffers(CancelOps(s, t))
  {
  }

  lemma VerifyLeavesOffers(s: Store, t: TripId, guess: string)
    ensures LeaveOffers(VerifyOtpOps(s, t, guess))
  {
    CancelLeavesOffers(s, t);
    hide CancelOps;
  }

  lemma CompleteLeavesOffers(s: Store, t: TripId)
    ensures LeaveOffers(CompleteOps(s, t))
  {
  }

  lemma AssignLeavesOffers(s: Store, t: TripId, d: DriverId, otp: string)
    requires t in s.trips
    ensures LeaveOffers(AssignOps(s, t, d, otp))
  {
  }

  lemma AcceptMarksFirst(s: Store, t: TripId, d: DriverId, o: OfferId, otp: string)
    ensures var ops := AcceptOps(s, t, d, o, otp);
            if t in s.trips && s.trips[t].status.Requested? && o in s.offers
            then ops != [] && ops[0] == MarkOffer(o, OfferAccepted) && LeaveOffers(ops[1..])
            else ops == []
  {
    if AcceptOps(s, t, d, o, otp) != [] {
      AssignLeavesOffers(s, t, d, otp);
      hide AssignOps;
    }
  }

  /** The mark of a piece of work is its only one, and its insertion is new. */
  ghost predicate MarksAndInserts(s: Store, ops: seq<Op>, mark: Option<Op>) {
    MarksOnly(ops, mark) && InsertsNew(s, ops)
  }

  lemma LeavingOffers(s: Store, op: Op, ops: seq<Op>)
    requires LeaveOffers(ops) && !op.MarkOffer? && !op.InsertOffer?
    ensures MarksAndInserts(s, [op] + ops, None)
  {
    assert forall x :: x in [op] + ops ==> x == op || x in ops;
  }

  lemma MarkingSecond(s: Store, op: Op, ops: seq<Op>)
    requires ops != [] && ops[0].MarkOffer? && LeaveOffers(ops[1..]) && !op.MarkOffer? && !op.InsertOffer?
    ensures MarksAndInserts(s, [op] + ops, Some(ops[0]))
  {
    var all := [op] + ops;
    assert all[1] == ops[0];
    forall i | 0 <= i < |all| && i != 1 ensures !all[i].MarkOffer? && !all[i].InsertOffer? {
      assert i > 1 ==> all[i] == ops[1..][i - 2];
    }
  }

  lemma LifecycleMarks(s: Store, t: TripId, k: LifeKey, otp: string)
    requires Enabled(s, LifeWork(t, k, otp))
    ensures MarksAndInserts(s, OpsOf(s, LifeWork(t, k, otp)), MarkOf(s, LifeWork(t, k, otp)))
  {
    var job := s.lifecycle.jobs[(t, k)];
    var ops := HandlerOps(s, t, job, otp);
    hide MarksAndInserts;
    hide CancelOps;
    hide VerifyOtpOps;
    hide CompleteOps;
    hide AcceptOps;
    match job {
      case Accept(d, o) => AcceptMarksFirst(s, t, d, o, otp);
      case VerifyOtp(_, guess) => VerifyLeavesOffers(s, t, guess);
      case Cancel(_) => CancelLeavesOffers(s, t);
      case Complete(_) => CompleteLeavesOffers(s, t);
    }
    if MarkOf(s, LifeWork(t, k, otp)).Some? {
      MarkingSecond(s, FinishLifecycle(k), ops);
    } else {
      LeavingOffers(s, FinishLifecycle(k), ops);
    }
  }

  lemma CallsMark(s: Store, work: Work)
    requires Enabled(s, work) && (work.Call? || work.CallBegins?)
    ensures MarksAndInserts(s, OpsOf(s, work), MarkOf(s, work))
  {
    if MarkOf(s, work).Some? {
      assert OpsOf(s, work)[0] == MarkOf(s, work).value;
    }
  }

  lemma MatchingMarks(s: Store, work: Work)
    requires Enabled(s, work) && work.MatchWork?
    ensures MarksAndInserts(s, OpsOf(s, work), MarkOf(s, work))
  {
    if MarkOf(s, work).Some? {
      assert OpsOf(s, work)[1] == MarkOf(s, work).value;
    }
  }

  lemma OthersMark(s: Store, work: Work)
    requires Enabled(s, work)
    requires work.NewTripCall? || work.TripOpens? || work.CallLocks? || work.CallEnds? || work.RequestWork?
    ensures MarksAndInserts(s, OpsOf(s, work), MarkOf(s, work))
  {
  }

  lemma WorksMark(s: Store, work: Work)
    requires Enabled(s, work) && !work.Wait? && !work.AddDriver? && !work.AddRider? && !work.Due?
    ensures MarksAndInserts(s, OpsOf(s, work), MarkOf(s, work))
  {
    hide Enabled;
    hide OpsOf;
    hide MarkOf;
    hide MarksAndInserts;
    if work.Call? || work.CallBegins? {
      CallsMark(s, work);
    } else if work.MatchWork? {
      MatchingMarks(s, work);
    } else if work.LifeWork? {
      LifecycleMarks(s, work.trip, work.lifeKey, work.otp);
    } else {
      OthersMark(s, work);
    }
  }

  lemma RewritesForeignIff(s: Store, work: Work)
    requires Enabled(s, work) && !work.Wait? && !work.AddDriver? && !work.AddRider? && !work.Due?
    ensures RewritesForeign(s, work)
            <==> MarkOf(s, work).Some? && IsForeign(s, work.trip, MarkOf(s, work).value.offer, MarkOf(s, work).value.status)
  {
  }

  lemma WorkIsItsOps(s: Store, work: Work)
    requires Enabled(s, work) && !work.Wait? && !work.AddDriver? && !work.AddRider? && !work.Due?
    ensures Perform(s, work) == DoAll(s, work.trip, OpsOf(s, work))
  {
  }

  lemma DueLeavesOthers(s: Store, t: TripId, k: MatchKey)
    requires Enabled(s, Due(t, k))
    ensures LeavesOthers(s, Perform(s, Due(t, k)), t)
  {
    PromotedQueue(s.matching, t, k);
  }

  lemma DueRewritesNothing(s: Store, work: Work)
    requires Enabled(s, work) && work.Due?
    ensures !RewritesForeign(s, work)
  {
  }

  /** Isolation, in any run, with any offer ids from the clients: work about a trip leaves all there is of every
      other trip as it was, unless it rewrites an offer of another trip; and then it does not. */
  lemma OthersUntouchedIff(works: seq<Work>, work: Work)
    requires Enabled(PerformAll(works), work) && !work.Wait? && !work.AddDriver? && !work.AddRider?
    ensures LeavesOthers(PerformAll(works), Perform(PerformAll(works), work), work.trip)
            <==> !RewritesForeign(PerformAll(works), work)
  {
    var s := PerformAll(works);
    hide PerformAll;
    hide Perform;
    hide Enabled;
    hide RewritesForeign;
    hide LeavesOthers;
    hide Consistent;
    hide DoAll;
    hide OpsOf;
    StoresStayConsistent(works);
    if work.Due? {
      DueLeavesOthers(s, work.trip, work.dueKey);
      DueRewritesNothing(s, work);
    } else {
      WorkIsItsOps(s, work);
      WorksMark(s, work);
      RewritesForeignIff(s, work);
      ChangesForeignIff(s, work.trip, OpsOf(s, work), MarkOf(s, work));
      OperationsLeaveOthersIff(s, work.trip, OpsOf(s, work));
    }
  }
}
