/** The gateway's ride calls, cut at the awaits where another process can interleave:
    `Begin` runs a call's reads and guards, `TryLock` is the SETNX of `acceptRide`, and
    `Conclude` queues the job the call ends with. */
module Gateway {
  import opened Base
  import opened Constants
  import opened StateMachine
  import opened Rides

  datatype Request =
    | AcceptRide(user: UserId, offer: OfferId)
    | RejectRide(user: UserId, offer: OfferId)
    | SubmitOtp(user: UserId, otp: string)
    | CancelRide(user: UserId)
    | DriverCancelRide(user: UserId)
    | CompleteRide(user: UserId)

  predicate OwnsOffer(env: Env, r: Ride, user: UserId, o: OfferId) {
    && user in env.directory.byUser
    && o in r.offers
    && r.offers[o].driver == env.directory.byUser[user]
  }

  predicate DrivesInStatus(env: Env, r: Ride, user: UserId, status: Status) {
    && user in env.directory.byUser
    && r.trip.driver == Some(env.directory.byUser[user])
    && r.trip.status == status
  }

  /** The guards of each call; None is an error reply. */
  function Admit(env: Env, r: Ride, req: Request): Option<Call> {
    match req
    case AcceptRide(u, o) =>
      if OwnsOffer(env, r, u, o) && r.offers[o].status.Pending?
      then Some(AcceptChecked(env.directory.byUser[u], o)) else None
    case RejectRide(u, o) =>
      if OwnsOffer(env, r, u, o) then Some(Rejecting(u, o)) else None
    case SubmitOtp(u, otp) =>
      if DrivesInStatus(env, r, u, Accepted) then Some(VerifyChecked(env.directory.byUser[u], otp)) else None
    case CancelRide(u) =>
      // A user without a rider record filters by no rider: the query's `riderId` is undefined.
      if (u in env.riders ==> r.trip.rider == env.riders[u]) && r.trip.status in {Requested, Accepted}
      then Some(RiderCancelChecked) else None
    case DriverCancelRide(u) =>
      if DrivesInStatus(env, r, u, Accepted) then Some(DriverCancelChecked(env.directory.byUser[u])) else None
    case CompleteRide(u) =>
      if DrivesInStatus(env, r, u, Started) then Some(CompleteChecked(env.directory.byUser[u])) else None
  }

  function Begin(env: Env, r: Ride, c: CallId, req: Request): Ride {
    var call := Admit(env, r, req);
    if c in r.calls || call.None? then r
    else
      var r1 := r.(calls := r.calls[c := call.value]);
      if req.RejectRide? then r1.(offers := SetStatus(r.offers, req.offer, Rejected)) else r1
  }

  /** `SET lock driver EX 300 NX`: the call goes on only if no unexpired lock is there. */
  function TryLock(env: Env, r: Ride, c: CallId): Ride {
    if c !in r.calls || !r.calls[c].AcceptChecked? then r
    else
      var call := r.calls[c];
      if r.lock.Get(env.now).Some? then r.(calls := r.calls - {c})
      else r.(lock := Present(call.driver, env.now + RIDE_LOCK_TTL_MS),
              calls := r.calls[c := AcceptLocked(call.driver, call.offer)])
  }

  function Conclude(env: Env, r: Ride, c: CallId): Ride {
    if c !in r.calls || r.calls[c].AcceptChecked? then r
    else
      var r1 := r.(calls := r.calls - {c});
      match r.calls[c]
      case Creating => r1.(requests := r.requests.Add(RideRequest, NewRide))
      case AcceptChecked(_, _) => r
      case AcceptLocked(d, o) => r1.(lifecycle := r.lifecycle.Add(AcceptKey, Accept(d, o)))
      case Rejecting(u, o) =>
        r1.(matching := r.matching.Add(RejectOf(o), MatchJob(CascadeReject, Some(1), Some([u]), None)))
      case VerifyChecked(d, otp) => r1.(lifecycle := r.lifecycle.Add(VerifyKey(env.now), VerifyOtp(d, otp)))
      case RiderCancelChecked => r1.(lifecycle := r.lifecycle.Add(CancelKey, Cancel(RiderCancelled)))
      case DriverCancelChecked(d) => r1.(lifecycle := r.lifecycle.Add(DriverCancelKey, Cancel(DriverCancelled(d))))
      case CompleteChecked(d) => r1.(lifecycle := r.lifecycle.Add(CompleteKey, Complete(d)))
  }
}
