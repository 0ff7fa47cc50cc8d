/** Everything the three processes store about one ride: the Postgres rows, the Redis keys, the
    ride's jobs in the three queues, and the gateway calls about it that are between two awaits. */
module Rides {
  import opened Base
  import opened Fare
  import opened StateMachine

  // ---- Postgres -------------------------------------------------------------------------

  datatype Trip = Trip(
    rider: RiderId,
    status: Status,
    driver: Option<DriverId>,
    otp: Option<string>,
    fare: Option<real>,
    distance: Option<real>,
    completedAt: Option<nat>,
    meters: Meters)  // ST_DistanceSphere(pickup, dropoff); the locations never change

  datatype OfferStatus = Pending | OfferAccepted | Rejected | Expired

  datatype Offer = Offer(driver: DriverId, status: OfferStatus, expiresAt: nat)

  // ---- BullMQ ---------------------------------------------------------------------------

  // The job ids of one ride; each string id of the source also embeds the trip id.
  datatype RequestKey = RideRequest                    // {tripId}
  datatype RequestJob = NewRide
  datatype MatchKey =
    | First                                            // match:{tripId}
    | Next(attempt: nat)                               // match:{tripId}:{attempt}
    | TimeoutOf(offer: OfferId)                        // timeout:{tripId}:{offerId}
    | RejectOf(offer: OfferId)                         // reject-cascade:{tripId}:{offerId}
  datatype LifeKey =
    | AcceptKey                                        // accept:{tripId}
    | VerifyKey(at: nat)                               // verify-otp:{tripId}:{Date.now()}
    | CancelKey                                        // cancel:{tripId}
    | DriverCancelKey                                  // driver-cancel:{tripId}
    | CompleteKey                                      // complete:{tripId}

  datatype MatchName = MatchDriver | CascadeExpanded | CascadeSkip | CascadeReject | OfferTimeout(offer: OfferId)

  /** `delayedUntil` is Some while the job sits in BullMQ's delayed set. */
  datatype MatchJob = MatchJob(
    name: MatchName,
    attempt: Option<nat>,
    skipped: Option<seq<UserId>>,
    delayedUntil: Option<nat>)
  {
    // The default of the dispatcher when a job carries no attempt number
    function Attempt(): nat { attempt.GetOr(1) }
    function Skipped(): seq<UserId> { skipped.GetOr([]) }
  }

  // The job a request queues
  const FIRST_JOB := MatchJob(MatchDriver, None, None, None)

  datatype CancelReason = NoDrivers | RiderCancelled | DriverCancelled(driver: DriverId)

  datatype LifeJob =
    | Accept(driver: DriverId, offer: OfferId)
    | VerifyOtp(driver: DriverId, otp: string)
    | Cancel(reason: CancelReason)
    | Complete(driver: DriverId)

  // ---- The gateway ----------------------------------------------------------------------

  /** A gateway call after its checks and before its last write. */
  datatype Call =
    | Creating
    | AcceptChecked(driver: DriverId, offer: OfferId)  // offer read, lock not tried yet
    | AcceptLocked(driver: DriverId, offer: OfferId)   // lock taken, job not queued yet
    | Rejecting(user: UserId, offer: OfferId)          // offer marked, cascade not queued yet
    | VerifyChecked(driver: DriverId, otp: string)
    | RiderCancelChecked
    | DriverCancelChecked(driver: DriverId)
    | CompleteChecked(driver: DriverId)

  datatype Ride = Ride(
    trip: Trip,
    offers: map<OfferId, Offer>,
    lock: Key<DriverId>,
    otpKey: Key<string>,
    attempts: Key<nat>,
    requests: Queue<RequestKey, RequestJob>,
    matching: Queue<MatchKey, MatchJob>,
    lifecycle: Queue<LifeKey, LifeJob>,
    calls: map<CallId, Call>)

  /** What a ride's handlers read from outside the ride. */
  datatype Env = Env(now: nat, directory: Directory, riders: map<UserId, RiderId>, busy: set<UserId>)

  /** The row `createRide` inserts. */
  function NewTrip(rider: RiderId, meters: Meters): Trip {
    Trip(rider, Requested, None, None, None, None, None, meters)
  }

  function FreshRide(rider: RiderId, meters: Meters, calls: map<CallId, Call>): Ride {
    Ride(NewTrip(rider, meters), map[], Absent, Absent, Absent,
         Queue(map[], {}), Queue(map[], {}), Queue(map[], {}), calls)
  }

  function SetStatus(offers: map<OfferId, Offer>, o: OfferId, status: OfferStatus): map<OfferId, Offer>
    requires o in offers
  {
    offers[o := offers[o].(status := status)]
  }

  /** `updateMany` of the ride's PENDING offers to EXPIRED. */
  function ExpirePending(offers: map<OfferId, Offer>): map<OfferId, Offer> {
    map o | o in offers :: if offers[o].status.Pending? then offers[o].(status := Expired) else offers[o]
  }
}
