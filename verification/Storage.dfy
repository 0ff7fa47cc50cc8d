/** The stores as they really lie: one `Trip` and one `RideOffer` table, Redis keys and queues shared by
    all rides. `Abs` regroups them ride by ride; each lemma says what one database, Redis or queue
    operation means for that view. */
module Storage {
  import opened Base
  import opened Rides
  import opened Dispatch

  datatype OfferRow = OfferRow(trip: TripId, offer: Offer)

  // A job id in a shared queue names the trip and the job of that trip.
  type JobId<K> = (TripId, K)

  datatype Store = Store(
    env: Env,
    trips: map<TripId, Trip>,
    offers: map<OfferId, OfferRow>,
    locks: map<TripId, Key<DriverId>>,
    otps: map<TripId, Key<string>>,
    attempts: map<TripId, Key<nat>>,
    requests: Queue<JobId<RequestKey>, RequestJob>,
    matching: Queue<JobId<MatchKey>, MatchJob>,
    lifecycle: Queue<JobId<LifeKey>, LifeJob>,
    calls: map<JobId<CallId>, Call>)  // in the gateways' memory: calls between two awaits

  const EMPTY_STORE := Store(Env(0, Directory(map[], map[]), map[], {}), map[], map[], map[], map[], map[],
                            Queue(map[], {}), Queue(map[], {}), Queue(map[], {}), map[])

  function ReadKey<T>(m: map<TripId, Key<T>>, t: TripId): Key<T> {
    if t in m then m[t] else Absent
  }

  ghost function OffersOf(offers: map<OfferId, OfferRow>, t: TripId): map<OfferId, Offer> {
    map o | o in offers && offers[o].trip == t :: offers[o].offer
  }

  ghost function JobsOf<K(!new), J>(jobs: map<JobId<K>, J>, t: TripId): (own: map<K, J>)
    ensures forall k :: k in own <==> (t, k) in jobs
    ensures forall k :: k in own ==> own[k] == jobs[(t, k)]
  {
    map id | id in jobs && id.0 == t :: id.1 := jobs[id]
  }

  ghost function SeenOf<K(!new)>(seen: set<JobId<K>>, t: TripId): (own: set<K>)
    ensures forall k :: k in own <==> (t, k) in seen
  {
    set id | id in seen && id.0 == t :: id.1
  }

  ghost function QueueOf<K(!new), J>(q: Queue<JobId<K>, J>, t: TripId): Queue<K, J> {
    Queue(JobsOf(q.jobs, t), SeenOf(q.seen, t))
  }

  ghost function Slice(s: Store, t: TripId): Ride
    requires t in s.trips
  {
    Ride(s.trips[t], OffersOf(s.offers, t), ReadKey(s.locks, t), ReadKey(s.otps, t), ReadKey(s.attempts, t),
         QueueOf(s.requests, t), QueueOf(s.matching, t), QueueOf(s.lifecycle, t), JobsOf(s.calls, t))
  }

  ghost function RidesOf(s: Store): (rides: map<TripId, Ride>)
    ensures rides.Keys == s.trips.Keys
    ensures forall t :: t in s.trips ==> rides[t] == Slice(s, t)
  {
    map t | t in s.trips :: Slice(s, t)
  }

  /** The world the stores hold. */
  ghost function Abs(s: Store): World {
    World(s.env, RidesOf(s))
  }

  ghost predicate QueueWithin<K, J>(q: Queue<JobId<K>, J>, trips: set<TripId>) {
    && (forall id :: id in q.jobs ==> id.0 in trips)
    && (forall id :: id in q.seen ==> id.0 in trips)
  }

  ghost predicate KeysWithin<V>(m: map<TripId, Key<V>>, trips: set<TripId>) {
    m.Keys <= trips && forall t :: t in m ==> m[t].Present?
  }

  /** Foreign keys: everything stored belongs to a trip. */
  ghost predicate Consistent(s: Store) {
    && (forall o :: o in s.offers ==> s.offers[o].trip in s.trips)
    && KeysWithin(s.locks, s.trips.Keys) && KeysWithin(s.otps, s.trips.Keys) && KeysWithin(s.attempts, s.trips.Keys)
    && (forall id :: id in s.calls ==> id.0 in s.trips)
    && QueueWithin(s.requests, s.trips.Keys)
    && QueueWithin(s.matching, s.trips.Keys)
    && QueueWithin(s.lifecycle, s.trips.Keys)
  }

  /** `w` with ride `t` replaced. */
  function Put(w: World, t: TripId, r: Ride): World {
    World(w.env, w.rides[t := r])
  }

  // ---- Queues -----------------------------------------------------------------------------

  lemma QueueAdd<K(!new), J>(q: Queue<JobId<K>, J>, id: JobId<K>, j: J, t: TripId)
    ensures QueueOf(q.Add(id, j), t) == if id.0 == t then QueueOf(q, t).Add(id.1, j) else QueueOf(q, t)
  {
    if id !in q.seen {
      if id.0 == t {
        assert JobsOf(q.jobs[id := j], t) == JobsOf(q.jobs, t)[id.1 := j];
        assert SeenOf(q.seen + {id}, t) == SeenOf(q.seen, t) + {id.1};
      } else {
        assert JobsOf(q.jobs[id := j], t) == JobsOf(q.jobs, t);
        assert SeenOf(q.seen + {id}, t) == SeenOf(q.seen, t);
      }
    }
  }

  lemma QueueFinish<K(!new), J>(q: Queue<JobId<K>, J>, id: JobId<K>, t: TripId)
    ensures QueueOf(q.Finish(id), t) == if id.0 == t then QueueOf(q, t).Finish(id.1) else QueueOf(q, t)
  {
    if id.0 == t {
      assert JobsOf(q.jobs - {id}, t) == JobsOf(q.jobs, t) - {id.1};
    } else {
      assert JobsOf(q.jobs - {id}, t) == JobsOf(q.jobs, t);
    }
  }

  lemma QueueRemove<K(!new), J>(q: Queue<JobId<K>, J>, ids: set<JobId<K>>, t: TripId)
    ensures QueueOf(q.Remove(ids), t) == QueueOf(q, t).Remove(SeenOf(ids, t))
  {
    assert JobsOf(q.jobs - ids, t) == JobsOf(q.jobs, t) - SeenOf(ids, t);
    assert SeenOf(q.seen - ids, t) == SeenOf(q.seen, t) - SeenOf(ids, t);
  }

  // ---- Whole stores -----------------------------------------------------------------------

  lemma PointwiseChanged<V>(m: map<TripId, V>, m': map<TripId, V>, keys: set<TripId>, t: TripId)
    requires m.Keys == keys && m'.Keys == keys && t in keys
    requires forall t' :: t' in keys && t' != t ==> m'[t'] == m[t']
    ensures m' == m[t := m'[t]]
  {
  }

  /** An operation that touches only ride `t` replaces only that ride. */
  lemma OneRideChanged(s: Store, s': Store, t: TripId)
    requires t in s.trips && s'.trips.Keys == s.trips.Keys && s'.env == s.env
    requires forall t' :: t' in s.trips && t' != t ==> RidesOf(s')[t'] == RidesOf(s)[t']
    ensures Abs(s') == Put(Abs(s), t, Slice(s', t))
  {
    PointwiseChanged(RidesOf(s), RidesOf(s'), s.trips.Keys, t);
  }

  lemma OneSliceChanged(s: Store, s': Store, t: TripId, r: Ride)
    requires t in s.trips && s'.trips.Keys == s.trips.Keys && s'.env == s.env
    requires forall t' :: t' in s.trips && t' != t ==> Slice(s', t') == Slice(s, t')
    requires Slice(s', t) == r
    ensures Abs(s') == Put(Abs(s), t, r)
  {
    hide Slice;
    OneRideChanged(s, s', t);
  }

  lemma MapChangedAt<V>(m: map<TripId, V>, m': map<TripId, V>, t: TripId)
    requires m'.Keys == m.Keys + {t}
    requires forall t' :: t' in m && t' != t ==> m'[t'] == m[t']
    ensures m' == m[t := m'[t]]
  {
  }

  lemma TripSaved(s: Store, t: TripId, row: Trip)
    requires Consistent(s) && t in s.trips
    ensures var s' := s.(trips := s.trips[t := row]);
            Consistent(s') && Abs(s') == Put(Abs(s), t, Slice(s, t).(trip := row))
  {
    hide KeysWithin;
    hide OffersOf;
    hide JobsOf;
    hide QueueOf;
    hide QueueWithin;
    hide RidesOf;
    hide Abs;
    OneSliceChanged(s, s.(trips := s.trips[t := row]), t, Slice(s, t).(trip := row));
  }

  lemma OffersSaved(s: Store, t: TripId, offers: map<OfferId, OfferRow>)
    requires Consistent(s) && t in s.trips && forall o :: o in offers ==> offers[o].trip in s.trips
    requires forall t' :: t' != t ==> OffersOf(offers, t') == OffersOf(s.offers, t')
    ensures var s' := s.(offers := offers);
            Consistent(s') && Abs(s') == Put(Abs(s), t, Slice(s, t).(offers := OffersOf(offers, t)))
  {
    hide KeysWithin;
    hide OffersOf;
    hide JobsOf;
    hide QueueOf;
    hide QueueWithin;
    hide RidesOf;
    hide Abs;
    OneSliceChanged(s, s.(offers := offers), t, Slice(s, t).(offers := OffersOf(offers, t)));
  }

  lemma SameElsewhere<V>(m: map<TripId, Key<V>>, n: map<TripId, Key<V>>, t: TripId)
    requires m - {t} == n - {t}
    ensures forall t' :: t' != t ==> ReadKey(m, t') == ReadKey(n, t')
    ensures m.Keys <= n.Keys + {t}
    ensures forall t' :: t' in m && t' != t ==> m[t'] == n[t']
  {
    forall t' | t' != t ensures (t' in m <==> t' in n) && (t' in m ==> m[t'] == n[t']) {
      assert t' in m - {t} <==> t' in n - {t};
      assert t' in m ==> (m - {t})[t'] == m[t'];
      assert t' in n ==> (n - {t})[t'] == n[t'];
    }
  }

  lemma KeysStayWithin<V>(m: map<TripId, Key<V>>, n: map<TripId, Key<V>>, trips: set<TripId>, t: TripId)
    requires KeysWithin(n, trips) && m - {t} == n - {t} && t in trips && (t in m ==> m[t].Present?)
    ensures KeysWithin(m, trips)
  {
    SameElsewhere(m, n, t);
  }

  lemma KeysStayInMore<V>(m: map<TripId, Key<V>>, trips: set<TripId>, more: set<TripId>)
    requires KeysWithin(m, trips) && trips <= more
    ensures KeysWithin(m, more)
  {
  }

  lemma LocksSaved(s: Store, t: TripId, locks: map<TripId, Key<DriverId>>)
    requires Consistent(s) && t in s.trips && locks - {t} == s.locks - {t} && (t in locks ==> locks[t].Present?)
    ensures var s' := s.(locks := locks);
            Consistent(s') && Abs(s') == Put(Abs(s), t, Slice(s, t).(lock := ReadKey(locks, t)))
  {
    hide KeysWithin;
    hide OffersOf;
    hide JobsOf;
    hide QueueOf;
    hide QueueWithin;
    hide RidesOf;
    hide Abs;
    KeysStayWithin(locks, s.locks, s.trips.Keys, t);
    SameElsewhere(locks, s.locks, t);
    OneSliceChanged(s, s.(locks := locks), t, Slice(s, t).(lock := ReadKey(locks, t)));
  }

  lemma OtpsSaved(s: Store, t: TripId, otps: map<TripId, Key<string>>)
    requires Consistent(s) && t in s.trips && otps - {t} == s.otps - {t} && (t in otps ==> otps[t].Present?)
    ensures var s' := s.(otps := otps);
            Consistent(s') && Abs(s') == Put(Abs(s), t, Slice(s, t).(otpKey := ReadKey(otps, t)))
  {
    hide KeysWithin;
    hide OffersOf;
    hide JobsOf;
    hide QueueOf;
    hide QueueWithin;
    hide RidesOf;
    hide Abs;
    KeysStayWithin(otps, s.otps, s.trips.Keys, t);
    SameElsewhere(otps, s.otps, t);
    OneSliceChanged(s, s.(otps := otps), t, Slice(s, t).(otpKey := ReadKey(otps, t)));
  }

  lemma AttemptsSaved(s: Store, t: TripId, attempts: map<TripId, Key<nat>>)
    requires Consistent(s) && t in s.trips && attempts - {t} == s.attempts - {t} && (t in attempts ==> attempts[t].Present?)
    ensures var s' := s.(attempts := attempts);
            Consistent(s') && Abs(s') == Put(Abs(s), t, Slice(s, t).(attempts := ReadKey(attempts, t)))
  {
    hide KeysWithin;
    hide OffersOf;
    hide JobsOf;
    hide QueueOf;
    hide QueueWithin;
    hide RidesOf;
    hide Abs;
    KeysStayWithin(attempts, s.attempts, s.trips.Keys, t);
    SameElsewhere(attempts, s.attempts, t);
    OneSliceChanged(s, s.(attempts := attempts), t, Slice(s, t).(attempts := ReadKey(attempts, t)));
  }

  lemma CallsSaved(s: Store, t: TripId, calls: map<JobId<CallId>, Call>)
    requires Consistent(s) && t in s.trips
    requires forall id :: id in calls ==> id.0 in s.trips
    requires forall t' :: t' != t ==> JobsOf(calls, t') == JobsOf(s.calls, t')
    ensures var s' := s.(calls := calls);
            Consistent(s') && Abs(s') == Put(Abs(s), t, Slice(s, t).(calls := JobsOf(calls, t)))
  {
    hide KeysWithin;
    hide OffersOf;
    hide JobsOf;
    hide QueueOf;
    hide QueueWithin;
    hide RidesOf;
    hide Abs;
    OneSliceChanged(s, s.(calls := calls), t, Slice(s, t).(calls := JobsOf(calls, t)));
  }

  lemma QueuesSaved(s: Store, t: TripId, requests: Queue<JobId<RequestKey>, RequestJob>,
                    matching: Queue<JobId<MatchKey>, MatchJob>, lifecycle: Queue<JobId<LifeKey>, LifeJob>)
    requires Consistent(s) && t in s.trips
    requires QueueWithin(requests, s.trips.Keys) && QueueWithin(matching, s.trips.Keys)
    requires QueueWithin(lifecycle, s.trips.Keys)
    requires forall t' :: t' != t ==>
               && QueueOf(requests, t') == QueueOf(s.requests, t')
               && QueueOf(matching, t') == QueueOf(s.matching, t')
               && QueueOf(lifecycle, t') == QueueOf(s.lifecycle, t')
    ensures var s' := s.(requests := requests, matching := matching, lifecycle := lifecycle);
            && Consistent(s')
            && Abs(s') == Put(Abs(s), t, Slice(s, t).(requests := QueueOf(requests, t), matching := QueueOf(matching, t),
                                                       lifecycle := QueueOf(lifecycle, t)))
  {
    hide KeysWithin;
    hide OffersOf;
    hide JobsOf;
    hide QueueOf;
    hide QueueWithin;
    hide RidesOf;
    hide Abs;
    var r := Slice(s, t).(requests := QueueOf(requests, t), matching := QueueOf(matching, t), lifecycle := QueueOf(lifecycle, t));
    OneSliceChanged(s, s.(requests := requests, matching := matching, lifecycle := lifecycle), t, r);
  }

  lemma NothingQueued<K(!new), J>(q: Queue<JobId<K>, J>, trips: set<TripId>, t: TripId)
    requires QueueWithin(q, trips) && t !in trips
    ensures QueueOf(q, t) == Queue(map[], {})
  {
    assert JobsOf(q.jobs, t) == map[];
    assert SeenOf(q.seen, t) == {};
  }

  lemma NewSlice(s: Store, t: TripId, row: Trip)
    requires Consistent(s) && t !in s.trips
    ensures Slice(s.(trips := s.trips[t := row]), t)
         == Ride(row, map[], Absent, Absent, Absent, Queue(map[], {}), Queue(map[], {}), Queue(map[], {}), map[])
  {
    assert OffersOf(s.offers, t) == map[];
    NothingQueued(s.requests, s.trips.Keys, t);
    NothingQueued(s.matching, s.trips.Keys, t);
    NothingQueued(s.lifecycle, s.trips.Keys, t);
    assert JobsOf(s.calls, t) == map[];
  }

  lemma OtherSlices(s: Store, t: TripId, row: Trip)
    requires t !in s.trips
    ensures var s' := s.(trips := s.trips[t := row]); forall t' :: t' in s.trips ==> RidesOf(s')[t'] == RidesOf(s)[t']
  {
    var s' := s.(trips := s.trips[t := row]);
    forall t' | t' in s.trips ensures RidesOf(s')[t'] == RidesOf(s)[t'] {
      assert Slice(s', t') == Slice(s, t');
    }
  }

  /** A new trip starts as a fresh ride: nothing stored mentions its id yet. */
  lemma TripInserted(s: Store, t: TripId, row: Trip)
    requires Consistent(s) && t !in s.trips
    ensures var s' := s.(trips := s.trips[t := row]);
            && Consistent(s')
            && Abs(s') == Put(Abs(s), t, Ride(row, map[], Absent, Absent, Absent, Queue(map[], {}), Queue(map[], {}),
                                              Queue(map[], {}), map[]))
  {
    hide Slice;
    hide RidesOf;
    hide KeysWithin;
    var trips := s.trips[t := row].Keys;
    KeysStayInMore(s.locks, s.trips.Keys, trips);
    KeysStayInMore(s.otps, s.trips.Keys, trips);
    KeysStayInMore(s.attempts, s.trips.Keys, trips);
    NewSlice(s, t, row);
    OtherSlices(s, t, row);
    MapChangedAt(RidesOf(s), RidesOf(s.(trips := s.trips[t := row])), t);
  }

  // ---- Nothing is lost by regrouping ------------------------------------------------------

  lemma SameKeys<V>(m: map<TripId, Key<V>>, n: map<TripId, Key<V>>, trips: set<TripId>)
    requires KeysWithin(m, trips) && KeysWithin(n, trips)
    requires forall t :: t in trips ==> ReadKey(m, t) == ReadKey(n, t)
    ensures m == n
  {
    forall t | t in trips ensures (t in m <==> t in n) && (t in m ==> m[t] == n[t]) {
      assert ReadKey(m, t) == ReadKey(n, t);
    }
  }

  lemma SameJobs<K(!new), J>(m: map<JobId<K>, J>, n: map<JobId<K>, J>, trips: set<TripId>)
    requires (forall id :: id in m ==> id.0 in trips) && (forall id :: id in n ==> id.0 in trips)
    requires forall t :: t in trips ==> JobsOf(m, t) == JobsOf(n, t)
    ensures m == n
  {
    forall id: JobId<K> | id.0 in trips ensures (id in m <==> id in n) && (id in m ==> m[id] == n[id]) {
      assert JobsOf(m, id.0) == JobsOf(n, id.0);
      assert id.1 in JobsOf(m, id.0) <==> (id.0, id.1) in m;
      assert id.1 in JobsOf(n, id.0) <==> (id.0, id.1) in n;
    }
  }

  lemma SameQueue<K(!new), J>(q: Queue<JobId<K>, J>, p: Queue<JobId<K>, J>, trips: set<TripId>)
    requires QueueWithin(q, trips) && QueueWithin(p, trips)
    requires forall t :: t in trips ==> QueueOf(q, t) == QueueOf(p, t)
    ensures q == p
  {
    forall t | t in trips ensures JobsOf(q.jobs, t) == JobsOf(p.jobs, t) && SeenOf(q.seen, t) == SeenOf(p.seen, t) {
      assert QueueOf(q, t) == QueueOf(p, t);
    }
    SameJobs(q.jobs, p.jobs, trips);
    forall id: JobId<K> | id.0 in trips ensures id in q.seen <==> id in p.seen {
      assert SeenOf(q.seen, id.0) == SeenOf(p.seen, id.0);
      assert id.1 in SeenOf(q.seen, id.0) <==> (id.0, id.1) in q.seen;
      assert id.1 in SeenOf(p.seen, id.0) <==> (id.0, id.1) in p.seen;
    }
    assert q.seen == p.seen;
  }

  lemma SameOffers(m: map<OfferId, OfferRow>, n: map<OfferId, OfferRow>, trips: set<TripId>)
    requires (forall o :: o in m ==> m[o].trip in trips) && (forall o :: o in n ==> n[o].trip in trips)
    requires forall t :: t in trips ==> OffersOf(m, t) == OffersOf(n, t)
    ensures m == n
  {
    forall o | o in m ensures o in n && n[o] == m[o] {
      assert o in OffersOf(m, m[o].trip) && OffersOf(m, m[o].trip) == OffersOf(n, m[o].trip);
    }
    forall o | o in n ensures o in m {
      assert o in OffersOf(n, n[o].trip) && OffersOf(m, n[o].trip) == OffersOf(n, n[o].trip);
    }
  }

  ghost predicate AgreeAt(s: Store, s': Store, t: TripId) {
    && t in s.trips && t in s'.trips && s.trips[t] == s'.trips[t]
    && OffersOf(s.offers, t) == OffersOf(s'.offers, t)
    && ReadKey(s.locks, t) == ReadKey(s'.locks, t) && ReadKey(s.otps, t) == ReadKey(s'.otps, t)
    && ReadKey(s.attempts, t) == ReadKey(s'.attempts, t) && JobsOf(s.calls, t) == JobsOf(s'.calls, t)
    && QueueOf(s.requests, t) == QueueOf(s'.requests, t) && QueueOf(s.matching, t) == QueueOf(s'.matching, t)
    && QueueOf(s.lifecycle, t) == QueueOf(s'.lifecycle, t)
  }

  lemma SameSlices(s: Store, s': Store, t: TripId)
    requires t in s.trips && t in s'.trips && Slice(s, t) == Slice(s', t)
    ensures AgreeAt(s, s', t)
  {
  }

  lemma SlicesAgree(s: Store, s': Store)
    requires Abs(s) == Abs(s')
    ensures s.env == s'.env && s.trips.Keys == s'.trips.Keys
    ensures forall t :: t in s.trips ==> Slice(s, t) == Slice(s', t)
  {
    hide Slice;
    forall t | t in s.trips ensures t in s'.trips && Slice(s, t) == Slice(s', t) {
      assert t in RidesOf(s) && RidesOf(s)[t] == RidesOf(s')[t];
    }
    assert RidesOf(s).Keys == RidesOf(s').Keys;
  }

  lemma AgreeEverywhere(s: Store, s': Store)
    requires Consistent(s) && Consistent(s') && s.env == s'.env && s.trips.Keys == s'.trips.Keys
    requires forall t :: t in s.trips ==> AgreeAt(s, s', t)
    ensures s == s'
  {
    hide KeysWithin;
    hide QueueWithin;
    hide OffersOf;
    hide JobsOf;
    hide QueueOf;
    var trips := s.trips.Keys;
    assert s.trips == s'.trips;
    SameOffers(s.offers, s'.offers, trips);
    SameKeys(s.locks, s'.locks, trips);
    SameKeys(s.otps, s'.otps, trips);
    SameKeys(s.attempts, s'.attempts, trips);
    SameQueue(s.requests, s'.requests, trips);
    SameQueue(s.matching, s'.matching, trips);
    SameQueue(s.lifecycle, s'.lifecycle, trips);
    SameJobs(s.calls, s'.calls, trips);
  }

  /** Two stores that hold the same world are the same, table by table, key by key and queue by queue. */
  lemma AbsIsInjective(s: Store, s': Store)
    requires Consistent(s) && Consistent(s') && Abs(s) == Abs(s')
    ensures s == s'
  {
    hide Consistent;
    hide AgreeAt;
    hide Slice;
    SlicesAgree(s, s');
    hide Abs;
    forall t | t in s.trips ensures AgreeAt(s, s', t) {
      SameSlices(s, s', t);
    }
    AgreeEverywhere(s, s');
  }
}
