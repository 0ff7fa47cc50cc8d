/** Fare, distance and ETA arithmetic over the reals. */
module Fare {
  import opened Constants

  /** JavaScript's `Math.round`. */
  function Round(x: real): int {
    (x + 0.5).Floor
  }

  /** `Math.round(x * 100) / 100` */
  function RoundToCents(x: real): real {
    Round(x * 100.0) as real / 100.0
  }

  function Max(x: real, y: real): real {
    if x < y then y else x
  }

  /** A geodesic distance in metres. */
  type Meters = m: real | m >= 0.0

  function FareOf(meters: Meters): real {
    RoundToCents(Max(MIN_FARE, BASE_FARE + meters / 1000.0 * PER_KM_RATE))
  }

  function StoredKm(meters: Meters): real {
    RoundToCents(meters / 1000.0)
  }

  function EtaMinutes(remainingKm: real): real {
    Round(remainingKm / CITY_AVG_SPEED_KMH * 60.0 * 10.0) as real / 10.0
  }

  /** `x` is a whole number of n-ths. */
  predicate IsWhole(x: real, n: int) {
    x * n as real == (x * n as real).Floor as real
  }

  /** The nearest whole number of cents; halves are rounded up. */
  lemma RoundToCentsIsNearest(x: real)
    ensures IsWhole(RoundToCents(x), 100)
    ensures -0.005 < RoundToCents(x) - x <= 0.005
  {
    var n := Round(x * 100.0);
    assert x * 100.0 - 0.5 < n as real <= x * 100.0 + 0.5;
    assert RoundToCents(x) * 100 as real == n as real;
  }

  /** The fare is the tariff to the cent: 50 and 12 a kilometre, halves of a cent rounded up. */
  lemma FareIsTariff(meters: Meters)
    ensures IsWhole(FareOf(meters), 100)
    ensures -0.005 < FareOf(meters) - (50.0 + 12.0 * (meters / 1000.0)) <= 0.005
    ensures FareOf(meters) >= 50.0
    ensures IsWhole(StoredKm(meters), 100) && -0.005 < StoredKm(meters) - meters / 1000.0 <= 0.005
  {
    var km := meters / 1000.0;
    RoundToCentsIsNearest(km);
    RoundToCentsIsNearest(BASE_FARE + km * PER_KM_RATE);
    assert Round((BASE_FARE + km * PER_KM_RATE) * 100.0) >= 5000;
  }

  /** The stored fare and the stored distance are rounded separately, so they agree with the
      tariff only up to 6.5 cents; and no ride costs less than the minimum fare. */
  lemma FareMatchesStoredDistance(meters: Meters)
    ensures -0.065 <= FareOf(meters) - (50.0 + 12.0 * StoredKm(meters)) <= 0.065
    ensures FareOf(meters) >= 50.0
    ensures StoredKm(meters) >= 0.0
  {
    FareIsTariff(meters);
    assert Round(meters / 1000.0 * 100.0) >= 0;
  }

  lemma RoundToCentsIsMonotone(x: real, y: real)
    requires x <= y
    ensures RoundToCents(x) <= RoundToCents(y)
  {
    assert Round(x * 100.0) <= Round(y * 100.0);
  }

  /** A longer ride never costs less. */
  lemma FareIsMonotone(a: Meters, b: Meters)
    requires a <= b
    ensures FareOf(a) <= FareOf(b)
  {
    RoundToCentsIsMonotone(Max(MIN_FARE, BASE_FARE + a / 1000.0 * PER_KM_RATE),
                           Max(MIN_FARE, BASE_FARE + b / 1000.0 * PER_KM_RATE));
  }

  /** The ETA of a distance is two minutes a kilometre to the tenth of a minute, halves rounded up. */
  lemma EtaIsNearest(km: real)
    ensures IsWhole(EtaMinutes(km), 10)
    ensures -0.05 < EtaMinutes(km) - 2.0 * km <= 0.05
  {
    assert km / CITY_AVG_SPEED_KMH * 60.0 * 10.0 == km * 20.0;
    var n := Round(km * 20.0);
    assert km * 20.0 - 0.5 < n as real <= km * 20.0 + 0.5;
    assert EtaMinutes(km) * 10 as real == n as real;
  }

  /** The broadcast ETA is two minutes per remaining kilometre, up to the two roundings. */
  lemma EtaError(meters: Meters)
    ensures -0.06 <= EtaMinutes(StoredKm(meters)) - 2.0 * (meters / 1000.0) <= 0.06
  {
    RoundToCentsIsNearest(meters / 1000.0);
    EtaIsNearest(StoredKm(meters));
  }
}
