/** The whole system as one transition system: the clock, the tables, the busy set and every ride.
    A run is any sequence of events; an event that is not enabled changes nothing. */
module Dispatch {
  import opened Base
  import opened Fare
  import opened Rides
  import opened Gateway
  import opened Cascade
  import opened Lifecycle

  datatype RideEvent =
    | Begin(call: CallId, req: Request)
    | TryLock(call: CallId)
    | Conclude(call: CallId)
    | RunRequest
    | Promote(key: MatchKey)
    | RunMatching(key: MatchKey, geo: Geo, newId: OfferId)
    | RunLifecycle(job: LifeKey, otp: string)

  datatype Event =
    | Tick(ms: nat)
    | RegisterDriver(user: UserId, driver: DriverId)
    | RegisterRider(user: UserId, rider: RiderId)
    | CreateRide(user: UserId, trip: TripId, call: CallId, meters: Meters)
    | On(trip: TripId, event: RideEvent)

  datatype World = World(env: Env, rides: map<TripId, Ride>)

  const EMPTY_WORLD := World(Env(0, Directory(map[], map[]), map[], {}), map[])

  function RideStep(env: Env, r: Ride, e: RideEvent): Step {
    match e
    case Begin(c, req) => Step(Gateway.Begin(env, r, c, req), Keep, Done)
    case TryLock(c) => Step(Gateway.TryLock(env, r, c), Keep, Done)
    case Conclude(c) => Step(Gateway.Conclude(env, r, c), Keep, Done)
    case RunRequest => Step(Cascade.RunRequest(r), Keep, Done)
    case Promote(k) => Step(Cascade.Promote(env, r, k), Keep, Done)
    case RunMatching(k, geo, newId) => Step(Cascade.RunMatching(env, r, k, geo, newId), Keep, Done)
    case RunLifecycle(k, otp) => Lifecycle.RunLifecycle(env, r, k, otp)
  }

  function Commit(w: World, t: TripId, s: Step): World {
    World(w.env.(busy := s.effect.On(w.env.busy)), w.rides[t := s.ride])
  }

  function Apply(w: World, e: Event): World {
    match e
    case Tick(ms) => w.(env := w.env.(now := w.env.now + ms))
    case RegisterDriver(u, d) =>
      if u in w.env.directory.byUser || d in w.env.directory.byId then w
      else w.(env := w.env.(directory := Directory(w.env.directory.byUser[u := d], w.env.directory.byId[d := u])))
    case RegisterRider(u, rider) =>
      if u in w.env.riders then w else w.(env := w.env.(riders := w.env.riders[u := rider]))
    case CreateRide(u, t, c, meters) =>
      if u !in w.env.riders || t in w.rides then w
      else w.(rides := w.rides[t := FreshRide(w.env.riders[u], meters, map[c := Creating])])
    case On(t, event) =>
      if t !in w.rides then w else Commit(w, t, RideStep(w.env, w.rides[t], event))
  }

  /** The state a run ends in. */
  function Exec(es: seq<Event>): World {
    if es == [] then EMPTY_WORLD else Apply(Exec(es[..|es|-1]), es[|es|-1])
  }
}
