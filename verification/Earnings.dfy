/** `getDriverStats`: what drivers are told they earned is what the completed rides cost. */
module Earnings {
  import opened Base
  import opened Fare
  import opened Rides
  import opened Dispatch
  import opened Invariants
  import opened Runs
  import opened Sums

  predicate CompletedBy(r: Ride, d: DriverId) {
    r.trip.status.Completed? && r.trip.driver == Some(d)
  }

  /** The fares and the stored distances of a driver's completed trips. */
  function FaresOf(w: World, d: DriverId): map<TripId, real> {
    map t | t in w.rides && CompletedBy(w.rides[t], d) :: w.rides[t].trip.fare.GetOr(0.0)
  }

  function DistancesOf(w: World, d: DriverId): map<TripId, real> {
    map t | t in w.rides && CompletedBy(w.rides[t], d) :: w.rides[t].trip.distance.GetOr(0.0)
  }

  datatype DriverStats = DriverStats(totalRides: nat, totalEarnings: real, totalDistance: real)

  /** `getDriverStats` of a driver who exists. */
  ghost function StatsOf(w: World, d: DriverId): DriverStats {
    DriverStats(|FaresOf(w, d)|, Sum(FaresOf(w, d)), Sum(DistancesOf(w, d)))
  }

  /** What each registered driver is told he earned. */
  ghost function EarningsByDriver(w: World): map<DriverId, real> {
    map d | d in w.env.directory.byId :: StatsOf(w, d).totalEarnings
  }

  function CompletedFares(w: World): map<TripId, real> {
    map t | t in w.rides && w.rides[t].trip.status.Completed? :: w.rides[t].trip.fare.GetOr(0.0)
  }

  lemma CompletedRow(w: World, t: TripId)
    requires WorldInv(w) && t in w.rides && w.rides[t].trip.status.Completed?
    ensures var trip := w.rides[t].trip;
            && trip.driver.Some? && trip.driver.value in w.env.directory.byId
            && trip.fare == Some(FareOf(trip.meters)) && trip.distance == Some(StoredKm(trip.meters))
            && trip.fare.value >= 50.0 && trip.distance.value >= 0.0
            && -0.065 <= trip.fare.value - (50.0 + 12.0 * trip.distance.value) <= 0.065
  {
    assert RideInv(w.env.now, w.env.directory, w.rides[t]);
    FareMatchesStoredDistance(w.rides[t].trip.meters);
  }

  function DriverOfCompleted(w: World): map<TripId, DriverId> {
    map t | t in w.rides && w.rides[t].trip.status.Completed? :: w.rides[t].trip.driver.GetOr("")
  }

  lemma FaresByDriver(w: World, d: DriverId)
    requires WorldInv(w)
    ensures DriverOfCompleted(w).Keys == CompletedFares(w).Keys
    ensures GroupOf(CompletedFares(w), DriverOfCompleted(w), d) == FaresOf(w, d)
  {
    hide WorldInv;
    forall t | t in w.rides && w.rides[t].trip.status.Completed? ensures w.rides[t].trip.driver.Some? {
      CompletedRow(w, t);
    }
  }

  lemma WorldConservesEarnings(w: World)
    requires WorldInv(w)
    ensures Sum(EarningsByDriver(w)) == Sum(CompletedFares(w))
  {
    var drivers, fares, driverOf := w.env.directory.byId.Keys, CompletedFares(w), DriverOfCompleted(w);
    FaresByDriver(w, "");
    forall t | t in fares ensures driverOf[t] in drivers {
      CompletedRow(w, t);
    }
    SumByGroups(fares, driverOf, drivers);
    forall d | d in drivers ensures GroupSums(fares, driverOf, drivers)[d] == EarningsByDriver(w)[d] {
      FaresByDriver(w, d);
    }
    assert GroupSums(fares, driverOf, drivers) == EarningsByDriver(w);
  }

  /** The earnings reported to all drivers add up to the fares of all completed rides, each counted
      once. */
  lemma EarningsAreConserved(es: seq<Event>)
    ensures Sum(EarningsByDriver(Exec(es))) == Sum(CompletedFares(Exec(es)))
  {
    ReachableInv(es);
    WorldConservesEarnings(Exec(es));
  }

  lemma {:induction false} Subset(a: set<TripId>, b: set<TripId>)
    requires a <= b
    ensures |a| <= |b|
    decreases a
  {
    if x :| x in a {
      Subset(a - {x}, b - {x});
    }
  }

  lemma FewerEntries(m: map<TripId, real>, n: map<TripId, real>)
    requires forall t :: t in m ==> t in n
    ensures |m| <= |n|
  {
    assert m.Keys <= n.Keys;
    Subset(m.Keys, n.Keys);
    assert |m| == |m.Keys| && |n| == |n.Keys|;
  }

  /** A driver's totals never fall. */
  lemma TotalsNeverFall(es: seq<Event>, i: nat, j: nat, d: DriverId)
    requires i <= j <= |es|
    ensures var a, b := StatsOf(Exec(es[..i]), d), StatsOf(Exec(es[..j]), d);
            a.totalRides <= b.totalRides && a.totalEarnings <= b.totalEarnings && a.totalDistance <= b.totalDistance
  {
    var w, w' := Exec(es[..i]), Exec(es[..j]);
    ReachableInv(es[..i]);
    ReachableInv(es[..j]);
    forall t | t in FaresOf(w, d)
      ensures t in FaresOf(w', d) && FaresOf(w', d)[t] == FaresOf(w, d)[t]
      ensures DistancesOf(w', d)[t] == DistancesOf(w, d)[t]
    {
      RunIsLater(es, i, j, t);
      CompletedRow(w, t);
      assert RideInv(w'.env.now, w'.env.directory, w'.rides[t]);
    }
    forall t | t in FaresOf(w', d) ensures FaresOf(w', d)[t] >= 0.0 && DistancesOf(w', d)[t] >= 0.0 {
      CompletedRow(w', t);
    }
    SumOfSubmap(FaresOf(w, d), FaresOf(w', d));
    SumOfSubmap(DistancesOf(w, d), DistancesOf(w', d));
    FewerEntries(FaresOf(w, d), FaresOf(w', d));
  }

  lemma {:induction false} SumsFollowTariff(fares: map<TripId, real>, distances: map<TripId, real>)
    requires fares.Keys == distances.Keys
    requires forall t :: t in fares ==> -0.065 <= fares[t] - (50.0 + 12.0 * distances[t]) <= 0.065
    ensures var n := |fares| as real;
            -0.065 * n <= Sum(fares) - (50.0 * n + 12.0 * Sum(distances)) <= 0.065 * n
    decreases |fares|
  {
    if t :| t in fares {
      var fares', distances' := fares - {t}, distances - {t};
      assert fares'.Keys == fares.Keys - {t} == distances'.Keys;
      assert |fares| == |fares.Keys| && |fares'| == |fares'.Keys|;
      SumsFollowTariff(fares', distances');
      SumWithout(fares, t);
      SumWithout(distances, t);
      assert |fares| as real == |fares'| as real + 1.0;
    } else {
      assert distances == map[] && fares == map[];
    }
  }

  /** A driver's earnings follow the tariff on his reported distance, up to 6.5 cents a ride of
      rounding. */
  lemma EarningsFollowTariff(es: seq<Event>, d: DriverId)
    ensures var stats := StatsOf(Exec(es), d);
            var n := stats.totalRides as real;
            -0.065 * n <= stats.totalEarnings - (50.0 * n + 12.0 * stats.totalDistance) <= 0.065 * n
  {
    ReachableInv(es);
    var w := Exec(es);
    forall t | t in FaresOf(w, d)
      ensures -0.065 <= FaresOf(w, d)[t] - (50.0 + 12.0 * DistancesOf(w, d)[t]) <= 0.065
    {
      CompletedRow(w, t);
    }
    SumsFollowTariff(FaresOf(w, d), DistancesOf(w, d));
  }
}
