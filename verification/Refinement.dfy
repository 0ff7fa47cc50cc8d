/** The shared stores refine the world of rides: whatever a call or handler writes about its trip, seen
    ride by ride, is the step of that trip's ride alone. */
module Refinement {
  import opened Base
  import opened Rides
  import opened Lifecycle
  import opened Dispatch
  import opened Storage
  import opened StoreOps

  /** What an operation does to its own ride. */
  function Act(r: Ride, op: Op): Ride {
    match op
    case SaveTrip(row) => r.(trip := row)
    case MarkOffer(o, status) => if o in r.offers then r.(offers := SetStatus(r.offers, o, status)) else r
    case ExpireOffers(except) =>
      r.(offers := map o | o in r.offers ::
           if Some(o) != except && r.offers[o].status.Pending? then r.offers[o].(status := Expired) else r.offers[o])
    case InsertOffer(o, content) => r.(offers := r.offers[o := content])
    case SetLock(d, e) => r.(lock := Present(d, e))
    case SetOtp(otp, e) => r.(otpKey := Present(otp, e))
    case SetAttempts(n, e) => r.(attempts := Present(n, e))
    case DeleteLock => r.(lock := Absent)
    case DeleteOtp => r.(otpKey := Absent)
    case DeleteAttempts => r.(attempts := Absent)
    case AddBusy(_) => r
    case RemoveBusy(_) => r
    case AddRequest => r.(requests := r.requests.Add(RideRequest, NewRide))
    case AddMatching(k, job) => r.(matching := r.matching.Add(k, job))
    case AddLifecycle(k, job) => r.(lifecycle := r.lifecycle.Add(k, job))
    case FinishRequest => r.(requests := r.requests.Finish(RideRequest))
    case FinishMatching(k) => r.(matching := r.matching.Finish(k))
    case FinishLifecycle(k) => r.(lifecycle := r.lifecycle.Finish(k))
    case SetCall(c, call) => r.(calls := r.calls[c := call])
    case EndCall(c) => r.(calls := r.calls - {c})
    case RemoveTimeouts => r.(matching := r.matching.Remove(DelayedTimeouts(r.matching)))
  }

  function ActBusy(busy: set<UserId>, op: Op): set<UserId> {
    match op
    case AddBusy(u) => busy + {u}
    case RemoveBusy(u) => busy - {u}
    case _ => busy
  }

  function ActAll(r: Ride, ops: seq<Op>): Ride {
    if ops == [] then r else Act(ActAll(r, ops[..|ops|-1]), ops[|ops|-1])
  }

  function ActBusyAll(busy: set<UserId>, ops: seq<Op>): set<UserId> {
    if ops == [] then busy else ActBusy(ActBusyAll(busy, ops[..|ops|-1]), ops[|ops|-1])
  }

  /** An operation on an offer names an offer of this trip, or a new one. */
  ghost predicate Fits(s: Store, t: TripId, op: Op) {
    && (op.MarkOffer? && op.offer in s.offers ==> s.offers[op.offer].trip == t)
    && (op.InsertOffer? ==> op.id !in s.offers)
  }

  // ---- One operation ----------------------------------------------------------------------

  /** An operation's effect on the offer table, and on one ride's offers. */
  function RowsAfter(offers: map<OfferId, OfferRow>, t: TripId, op: Op): map<OfferId, OfferRow> {
    match op
    case MarkOffer(o, status) => if o in offers then MarkRow(offers, o, status) else offers
    case ExpireOffers(except) => ExpireRows(offers, t, except)
    case InsertOffer(o, content) => offers[o := OfferRow(t, content)]
    case _ => offers
  }

  lemma RowsOfOthers(offers: map<OfferId, OfferRow>, t: TripId, op: Op, t': TripId)
    requires op.MarkOffer? && op.offer in offers ==> offers[op.offer].trip == t
    requires op.InsertOffer? ==> op.id !in offers
    requires t' != t
    ensures OffersOf(RowsAfter(offers, t, op), t') == OffersOf(offers, t')
  {
  }

  lemma RowsOfOwn(offers: map<OfferId, OfferRow>, t: TripId, op: Op, r: Ride)
    requires op.MarkOffer? && op.offer in offers ==> offers[op.offer].trip == t
    requires op.MarkOffer? || op.ExpireOffers? || op.InsertOffer?
    requires r.offers == OffersOf(offers, t)
    ensures OffersOf(RowsAfter(offers, t, op), t) == Act(r, op).offers
  {
  }

  lemma OfferOpIsLocal(s: Store, t: TripId, op: Op, r: Ride)
    requires op.MarkOffer? || op.ExpireOffers? || op.InsertOffer?
    ensures Do(s, t, op) == s.(offers := RowsAfter(s.offers, t, op))
    ensures Act(r, op) == r.(offers := Act(r, op).offers)
  {
  }

  lemma OfferOpRefines(s: Store, t: TripId, op: Op)
    requires Consistent(s) && t in s.trips && Fits(s, t, op)
    requires op.MarkOffer? || op.ExpireOffers? || op.InsertOffer?
    ensures Consistent(Do(s, t, op)) && Abs(Do(s, t, op)) == Put(Abs(s), t, Act(Slice(s, t), op))
  {
    hide Act;
    hide Do;
    var offers := RowsAfter(s.offers, t, op);
    forall t' | t' != t ensures OffersOf(offers, t') == OffersOf(s.offers, t') {
      RowsOfOthers(s.offers, t, op, t');
    }
    OffersSaved(s, t, offers);
    RowsOfOwn(s.offers, t, op, Slice(s, t));
    OfferOpIsLocal(s, t, op, Slice(s, t));
  }

  lemma KeysAfter<V>(m: map<TripId, Key<V>>, t: TripId, key: Key<V>)
    ensures m[t := key] - {t} == m - {t} && (m - {t}) - {t} == m - {t}
  {
  }

  lemma KeyOpRefines(s: Store, t: TripId, op: Op)
    requires Consistent(s) && t in s.trips
    requires op.SetLock? || op.SetOtp? || op.SetAttempts? || op.DeleteLock? || op.DeleteOtp? || op.DeleteAttempts?
    ensures Consistent(Do(s, t, op)) && Abs(Do(s, t, op)) == Put(Abs(s), t, Act(Slice(s, t), op))
  {
    hide Consistent;
    hide Abs;
    hide RidesOf;
    hide Put;
    match op
    case SetLock(d, e) => KeysAfter(s.locks, t, Present(d, e)); LocksSaved(s, t, s.locks[t := Present(d, e)]);
    case DeleteLock => KeysAfter(s.locks, t, Absent); LocksSaved(s, t, s.locks - {t});
    case SetOtp(otp, e) => KeysAfter(s.otps, t, Present(otp, e)); OtpsSaved(s, t, s.otps[t := Present(otp, e)]);
    case DeleteOtp => KeysAfter(s.otps, t, Absent); OtpsSaved(s, t, s.otps - {t});
    case SetAttempts(n, e) => KeysAfter(s.attempts, t, Present(n, e)); AttemptsSaved(s, t, s.attempts[t := Present(n, e)]);
    case DeleteAttempts => KeysAfter(s.attempts, t, Absent); AttemptsSaved(s, t, s.attempts - {t});
  }

  lemma TimeoutsOf(q: Queue<JobId<MatchKey>, MatchJob>, t: TripId, t': TripId)
    ensures SeenOf(TimeoutIds(q, t), t') == if t' == t then DelayedTimeouts(QueueOf(q, t)) else {}
  {
  }

  lemma MatchingSaved(s: Store, t: TripId, q: Queue<JobId<MatchKey>, MatchJob>)
    requires Consistent(s) && t in s.trips && QueueWithin(q, s.trips.Keys)
    requires forall t' :: t' != t ==> QueueOf(q, t') == QueueOf(s.matching, t')
    ensures var s' := s.(matching := q); Consistent(s') && Abs(s') == Put(Abs(s), t, Slice(s, t).(matching := QueueOf(q, t)))
  {
    QueuesSaved(s, t, s.requests, q, s.lifecycle);
    assert s.(matching := q) == s.(requests := s.requests, matching := q, lifecycle := s.lifecycle);
  }

  lemma AddMatchingRefines(s: Store, t: TripId, k: MatchKey, job: MatchJob)
    requires Consistent(s) && t in s.trips
    ensures var s', r := s.(matching := s.matching.Add((t, k), job)), Slice(s, t);
            Consistent(s') && Abs(s') == Put(Abs(s), t, r.(matching := r.matching.Add(k, job)))
  {
    forall t' ensures QueueOf(s.matching.Add((t, k), job), t')
                  == if t' == t then QueueOf(s.matching, t).Add(k, job) else QueueOf(s.matching, t') {
      QueueAdd(s.matching, (t, k), job, t');
    }
    MatchingSaved(s, t, s.matching.Add((t, k), job));
  }

  lemma FinishMatchingRefines(s: Store, t: TripId, k: MatchKey)
    requires Consistent(s) && t in s.trips
    ensures var s', r := s.(matching := s.matching.Finish((t, k))), Slice(s, t);
            Consistent(s') && Abs(s') == Put(Abs(s), t, r.(matching := r.matching.Finish(k)))
  {
    forall t' ensures QueueOf(s.matching.Finish((t, k)), t')
                  == if t' == t then QueueOf(s.matching, t).Finish(k) else QueueOf(s.matching, t') {
      QueueFinish(s.matching, (t, k), t');
    }
    MatchingSaved(s, t, s.matching.Finish((t, k)));
  }

  lemma RemoveNothing<K, J>(q: Queue<K, J>)
    ensures q.Remove({}) == q
  {
    assert q.jobs - {} == q.jobs;
  }

  lemma RemoveTimeoutsRefines(s: Store, t: TripId)
    requires Consistent(s) && t in s.trips
    ensures var s', r := s.(matching := s.matching.Remove(TimeoutIds(s.matching, t))), Slice(s, t);
            Consistent(s') && Abs(s') == Put(Abs(s), t, r.(matching := r.matching.Remove(DelayedTimeouts(r.matching))))
  {
    var q := s.matching.Remove(TimeoutIds(s.matching, t));
    forall t' ensures QueueOf(q, t')
                  == if t' == t then QueueOf(s.matching, t).Remove(DelayedTimeouts(QueueOf(s.matching, t))) else QueueOf(s.matching, t') {
      QueueRemove(s.matching, TimeoutIds(s.matching, t), t');
      TimeoutsOf(s.matching, t, t');
      RemoveNothing(QueueOf(s.matching, t'));
    }
    MatchingSaved(s, t, q);
  }

  lemma MatchingOpRefines(s: Store, t: TripId, op: Op)
    requires Consistent(s) && t in s.trips
    requires op.AddMatching? || op.FinishMatching? || op.RemoveTimeouts?
    ensures Consistent(Do(s, t, op)) && Abs(Do(s, t, op)) == Put(Abs(s), t, Act(Slice(s, t), op))
  {
    hide Consistent;
    hide Abs;
    hide Slice;
    hide Put;
    match op
    case AddMatching(k, job) => AddMatchingRefines(s, t, k, job);
    case FinishMatching(k) => FinishMatchingRefines(s, t, k);
    case RemoveTimeouts => RemoveTimeoutsRefines(s, t);
  }

  lemma RequestsSaved(s: Store, t: TripId, q: Queue<JobId<RequestKey>, RequestJob>)
    requires Consistent(s) && t in s.trips && QueueWithin(q, s.trips.Keys)
    requires forall t' :: t' != t ==> QueueOf(q, t') == QueueOf(s.requests, t')
    ensures var s' := s.(requests := q);
            Consistent(s') && Abs(s') == Put(Abs(s), t, Slice(s, t).(requests := QueueOf(q, t)))
  {
    QueuesSaved(s, t, q, s.matching, s.lifecycle);
    assert s.(requests := q) == s.(requests := q, matching := s.matching, lifecycle := s.lifecycle);
  }

  lemma AddRequestRefines(s: Store, t: TripId)
    requires Consistent(s) && t in s.trips
    ensures var s', r := s.(requests := s.requests.Add((t, RideRequest), NewRide)), Slice(s, t);
            Consistent(s') && Abs(s') == Put(Abs(s), t, r.(requests := r.requests.Add(RideRequest, NewRide)))
  {
    forall t' ensures QueueOf(s.requests.Add((t, RideRequest), NewRide), t')
                  == if t' == t then QueueOf(s.requests, t).Add(RideRequest, NewRide) else QueueOf(s.requests, t') {
      QueueAdd(s.requests, (t, RideRequest), NewRide, t');
    }
    RequestsSaved(s, t, s.requests.Add((t, RideRequest), NewRide));
  }

  lemma FinishRequestRefines(s: Store, t: TripId)
    requires Consistent(s) && t in s.trips
    ensures var s', r := s.(requests := s.requests.Finish((t, RideRequest))), Slice(s, t);
            Consistent(s') && Abs(s') == Put(Abs(s), t, r.(requests := r.requests.Finish(RideRequest)))
  {
    forall t' ensures QueueOf(s.requests.Finish((t, RideRequest)), t')
                  == if t' == t then QueueOf(s.requests, t).Finish(RideRequest) else QueueOf(s.requests, t') {
      QueueFinish(s.requests, (t, RideRequest), t');
    }
    RequestsSaved(s, t, s.requests.Finish((t, RideRequest)));
  }

  lemma RequestOpRefines(s: Store, t: TripId, op: Op)
    requires Consistent(s) && t in s.trips && (op.AddRequest? || op.FinishRequest?)
    ensures Consistent(Do(s, t, op)) && Abs(Do(s, t, op)) == Put(Abs(s), t, Act(Slice(s, t), op))
  {
    hide Consistent;
    hide Abs;
    hide Slice;
    hide Put;
    match op
    case AddRequest => AddRequestRefines(s, t);
    case FinishRequest => FinishRequestRefines(s, t);
  }

  lemma LifecycleSaved(s: Store, t: TripId, q: Queue<JobId<LifeKey>, LifeJob>)
    requires Consistent(s) && t in s.trips && QueueWithin(q, s.trips.Keys)
    requires forall t' :: t' != t ==> QueueOf(q, t') == QueueOf(s.lifecycle, t')
    ensures var s' := s.(lifecycle := q);
            Consistent(s') && Abs(s') == Put(Abs(s), t, Slice(s, t).(lifecycle := QueueOf(q, t)))
  {
    QueuesSaved(s, t, s.requests, s.matching, q);
    assert s.(lifecycle := q) == s.(requests := s.requests, matching := s.matching, lifecycle := q);
  }

  lemma AddLifecycleRefines(s: Store, t: TripId, k: LifeKey, job: LifeJob)
    requires Consistent(s) && t in s.trips
    ensures var s', r := s.(lifecycle := s.lifecycle.Add((t, k), job)), Slice(s, t);
            Consistent(s') && Abs(s') == Put(Abs(s), t, r.(lifecycle := r.lifecycle.Add(k, job)))
  {
    forall t' ensures QueueOf(s.lifecycle.Add((t, k), job), t')
                  == if t' == t then QueueOf(s.lifecycle, t).Add(k, job) else QueueOf(s.lifecycle, t') {
      QueueAdd(s.lifecycle, (t, k), job, t');
    }
    LifecycleSaved(s, t, s.lifecycle.Add((t, k), job));
  }

  lemma FinishLifecycleRefines(s: Store, t: TripId, k: LifeKey)
    requires Consistent(s) && t in s.trips
    ensures var s', r := s.(lifecycle := s.lifecycle.Finish((t, k))), Slice(s, t);
            Consistent(s') && Abs(s') == Put(Abs(s), t, r.(lifecycle := r.lifecycle.Finish(k)))
  {
    forall t' ensures QueueOf(s.lifecycle.Finish((t, k)), t')
                  == if t' == t then QueueOf(s.lifecycle, t).Finish(k) else QueueOf(s.lifecycle, t') {
      QueueFinish(s.lifecycle, (t, k), t');
    }
    LifecycleSaved(s, t, s.lifecycle.Finish((t, k)));
  }

  lemma LifecycleOpRefines(s: Store, t: TripId, op: Op)
    requires Consistent(s) && t in s.trips && (op.AddLifecycle? || op.FinishLifecycle?)
    ensures Consistent(Do(s, t, op)) && Abs(Do(s, t, op)) == Put(Abs(s), t, Act(Slice(s, t), op))
  {
    hide Consistent;
    hide Abs;
    hide Slice;
    hide Put;
    match op
    case AddLifecycle(k, job) => AddLifecycleRefines(s, t, k, job);
    case FinishLifecycle(k) => FinishLifecycleRefines(s, t, k);
  }

  lemma SetCallOf(calls: map<JobId<CallId>, Call>, t: TripId, c: CallId, call: Call, t': TripId)
    ensures JobsOf(calls[(t, c) := call], t') == if t' == t then JobsOf(calls, t)[c := call] else JobsOf(calls, t')
  {
  }

  lemma EndCallOf(calls: map<JobId<CallId>, Call>, t: TripId, c: CallId, t': TripId)
    ensures JobsOf(calls - {(t, c)}, t') == if t' == t then JobsOf(calls, t) - {c} else JobsOf(calls, t')
  {
  }

  lemma CallOpRefines(s: Store, t: TripId, op: Op)
    requires Consistent(s) && t in s.trips && (op.SetCall? || op.EndCall?)
    ensures Consistent(Do(s, t, op)) && Abs(Do(s, t, op)) == Put(Abs(s), t, Act(Slice(s, t), op))
  {
    hide JobsOf;
    hide KeysWithin;
    hide QueueWithin;
    hide OffersOf;
    hide QueueOf;
    hide Abs;
    hide Put;
    var calls := Do(s, t, op).calls;
    forall t' ensures JobsOf(calls, t') == if t' == t then Act(Slice(s, t), op).calls else JobsOf(s.calls, t') {
      match op
      case SetCall(c, call) => SetCallOf(s.calls, t, c, call, t');
      case EndCall(c) => EndCallOf(s.calls, t, c, t');
    }
    CallsSaved(s, t, calls);
  }

  lemma SameRides(m: map<TripId, Ride>, m': map<TripId, Ride>, s: Store, s': Store)
    requires m.Keys == m'.Keys == s.trips.Keys == s'.trips.Keys
    requires forall t :: t in m ==> m[t] == Slice(s', t)
    requires forall t :: t in m' ==> m'[t] == Slice(s, t)
    requires s' == s.(env := s'.env)
    ensures m == m'
  {
    forall t | t in m ensures m[t] == m'[t] {
      assert Slice(s', t) == Slice(s, t);
    }
  }

  lemma RidesIgnoreEnv(s: Store, env: Env)
    ensures RidesOf(s.(env := env)) == RidesOf(s)
  {
    SameRides(RidesOf(s.(env := env)), RidesOf(s), s, s.(env := env));
  }

  /** The world after an operation about ride `t`. */
  function WorldAfter(w: World, t: TripId, r: Ride, busy: set<UserId>): World {
    World(w.env.(busy := busy), w.rides[t := r])
  }

  /** `s` holds the world `w`. */
  ghost predicate Represents(s: Store, w: World) {
    Consistent(s) && Abs(s) == w
  }

  lemma RideOpRefines(s: Store, t: TripId, op: Op)
    requires Consistent(s) && t in s.trips && Fits(s, t, op) && !op.AddBusy? && !op.RemoveBusy?
    ensures Represents(Do(s, t, op), Put(Abs(s), t, Act(Slice(s, t), op)))
  {
    if op.SaveTrip? {
      TripSaved(s, t, op.row);
    } else if op.MarkOffer? || op.ExpireOffers? || op.InsertOffer? {
      OfferOpRefines(s, t, op);
    } else if op.AddMatching? || op.FinishMatching? || op.RemoveTimeouts? {
      MatchingOpRefines(s, t, op);
    } else if op.AddRequest? || op.FinishRequest? {
      RequestOpRefines(s, t, op);
    } else if op.AddLifecycle? || op.FinishLifecycle? {
      LifecycleOpRefines(s, t, op);
    } else if op.SetCall? || op.EndCall? {
      CallOpRefines(s, t, op);
    } else {
      KeyOpRefines(s, t, op);
    }
  }

  lemma EnvKeepsConsistent(s: Store, env: Env)
    requires Consistent(s)
    ensures Consistent(s.(env := env))
  {
  }

  lemma BusyOpRefines(s: Store, t: TripId, op: Op)
    requires Consistent(s) && t in s.trips && (op.AddBusy? || op.RemoveBusy?)
    ensures Represents(Do(s, t, op), World(s.env.(busy := ActBusy(s.env.busy, op)), RidesOf(s)))
  {
    hide Consistent;
    hide RidesOf;
    RidesIgnoreEnv(s, s.env.(busy := ActBusy(s.env.busy, op)));
    EnvKeepsConsistent(s, s.env.(busy := ActBusy(s.env.busy, op)));
  }

  lemma WorldAfterIsPut(w: World, t: TripId, r: Ride)
    ensures WorldAfter(w, t, r, w.env.busy) == Put(w, t, r)
  {
  }

  lemma WorldAfterTwice(w: World, t: TripId, r: Ride, busy: set<UserId>, r': Ride, busy': set<UserId>)
    ensures WorldAfter(WorldAfter(w, t, r, busy), t, r', busy') == WorldAfter(w, t, r', busy')
    ensures WorldAfter(w, t, r, busy).rides[t] == r && WorldAfter(w, t, r, busy).env.busy == busy
  {
  }

  lemma WorldUnchanged(w: World, t: TripId)
    requires t in w.rides
    ensures WorldAfter(w, t, w.rides[t], w.env.busy) == w
  {
    assert w.rides[t := w.rides[t]] == w.rides;
  }

  lemma BusyOpLeavesRide(w: World, t: TripId, op: Op)
    requires t in w.rides && (op.AddBusy? || op.RemoveBusy?)
    ensures WorldAfter(w, t, Act(w.rides[t], op), ActBusy(w.env.busy, op)) == World(w.env.(busy := ActBusy(w.env.busy, op)), w.rides)
  {
    assert w.rides[t := w.rides[t]] == w.rides;
  }

  lemma RepresentedTrips(s: Store, w: World)
    requires Represents(s, w)
    ensures w.rides.Keys == s.trips.Keys && w.env == s.env
  {
  }

  lemma RepresentedRide(s: Store, w: World, t: TripId)
    requires Represents(s, w) && t in w.rides
    ensures t in s.trips && w.rides[t] == Slice(s, t) && w.env == s.env
  {
  }

  lemma DoRefines(s: Store, w: World, t: TripId, op: Op)
    requires Represents(s, w) && t in w.rides && Fits(s, t, op)
    ensures Represents(Do(s, t, op), WorldAfter(w, t, Act(w.rides[t], op), ActBusy(w.env.busy, op)))
  {
    hide Consistent;
    hide RidesOf;
    hide Slice;
    hide Do;
    hide Act;
    hide Put;
    hide WorldAfter;
    RepresentedRide(s, w, t);
    if op.AddBusy? || op.RemoveBusy? {
      BusyOpRefines(s, t, op);
      BusyOpLeavesRide(w, t, op);
    } else {
      RideOpRefines(s, t, op);
      WorldAfterIsPut(w, t, Act(w.rides[t], op));
    }
  }

  /** Operations that fit one after the other. */
  ghost predicate AllFit(s: Store, t: TripId, ops: seq<Op>) {
    ops != [] ==> AllFit(s, t, ops[..|ops|-1]) && Fits(DoAll(s, t, ops[..|ops|-1]), t, ops[|ops|-1])
  }

  lemma {:induction false} DoAllRefines(s: Store, w: World, t: TripId, ops: seq<Op>)
    requires Represents(s, w) && t in w.rides && AllFit(s, t, ops)
    ensures Represents(DoAll(s, t, ops), WorldAfter(w, t, ActAll(w.rides[t], ops), ActBusyAll(w.env.busy, ops)))
  {
    if ops == [] {
      WorldUnchanged(w, t);
    } else {
      var before, op := ops[..|ops|-1], ops[|ops|-1];
      var r, busy := ActAll(w.rides[t], before), ActBusyAll(w.env.busy, before);
      DoAllRefines(s, w, t, before);
      WorldAfterTwice(w, t, r, busy, Act(r, op), ActBusy(busy, op));
      DoRefines(DoAll(s, t, before), WorldAfter(w, t, r, busy), t, op);
    }
  }
}
