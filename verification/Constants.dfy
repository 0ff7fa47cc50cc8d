/** The constants of the matching, OTP, fare and throttle code. Times are in milliseconds. */
module Constants {
  const MATCHING_RADIUS_KM: real := 5.0
  const MATCHING_EXPANDED_RADIUS_KM: real := 10.0
  const OFFER_TIMEOUT_MS: nat := 30 * 1000
  const MAX_CASCADE_ATTEMPTS: nat := 10
  const MAX_OTP_ATTEMPTS: int := 3
  const OTP_TTL_MS: nat := 15 * 60 * 1000
  const RIDE_LOCK_TTL_MS: nat := 300 * 1000
  const HEARTBEAT_TTL_MS: nat := 60 * 1000
  const LOCATION_THROTTLE_MS: nat := 3 * 1000
  const BASE_FARE: real := 50.0
  const PER_KM_RATE: real := 12.0
  const MIN_FARE: real := 50.0
  const CITY_AVG_SPEED_KMH: real := 30.0
}
