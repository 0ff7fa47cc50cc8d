/** The request worker and the matching worker: one cascade run, and the offer timeout. */
module Cascade {
  import opened Base
  import opened Constants
  import opened Rides

  /** What Redis answers at the moment of a search: the active members, nearest first, their distances from the
      pickup, and the members whose busy lookup fails, who count as busy. */
  datatype Geo = Geo(ranked: seq<UserId>, km: map<UserId, real>, failed: set<UserId>) {
    ghost predicate Valid() {
      && (forall i :: 0 <= i < |ranked| ==> ranked[i] in km)
      && (forall u :: u in km ==> u in ranked)
      && (forall i, j :: 0 <= i < j < |ranked| ==> ranked[i] != ranked[j] && km[ranked[i]] <= km[ranked[j]])
    }
  }

  /** The members a cascade run considers, in GEOSEARCH order. */
  predicate Eligible(geo: Geo, radius: real, busy: set<UserId>, skipped: seq<UserId>, u: UserId) {
    u in geo.km && geo.km[u] <= radius && u !in busy && u !in geo.failed && u !in skipped
  }

  function Available(ranked: seq<UserId>, geo: Geo, radius: real, busy: set<UserId>,
                     skipped: seq<UserId>): seq<UserId> {
    if ranked == [] then []
    else
      var rest := Available(ranked[1..], geo, radius, busy, skipped);
      if Eligible(geo, radius, busy, skipped, ranked[0]) then [ranked[0]] + rest else rest
  }

  function Radius(attempt: nat): real {
    if attempt == 1 then MATCHING_RADIUS_KM else MATCHING_EXPANDED_RADIUS_KM
  }

  function CancelNoDrivers(r: Ride): Ride {
    r.(lifecycle := r.lifecycle.Add(CancelKey, Cancel(NoDrivers)))
  }

  /** How one cascade run ends. */
  datatype Decision =
    | GiveUp                                              // queue the no-drivers CANCEL
    | Continue(name: MatchName, skipped: seq<UserId>)     // queue another run
    | MakeOffer(user: UserId, driver: DriverId)

  function Decide(env: Env, attempt: nat, skipped: seq<UserId>, geo: Geo): Decision {
    if attempt > MAX_CASCADE_ATTEMPTS then GiveUp
    else
      var radius := Radius(attempt);
      var available := Available(geo.ranked, geo, radius, env.busy, skipped);
      if available == [] then
        if radius == MATCHING_RADIUS_KM then Continue(CascadeExpanded, skipped) else GiveUp
      else
        var target := available[0];
        if target in env.directory.byUser then MakeOffer(target, env.directory.byUser[target])
        else Continue(CascadeSkip, skipped + [target])
  }

  /** `runCascadeMatching`; `newId` is the id the database gives a new offer. */
  function RunCascade(env: Env, r: Ride, attempt: nat, skipped: seq<UserId>, geo: Geo, newId: OfferId): Ride {
    match Decide(env, attempt, skipped, geo)
    case GiveUp => CancelNoDrivers(r)
    case Continue(name, skip) =>
      r.(matching := r.matching.Add(Next(attempt + 1), MatchJob(name, Some(attempt + 1), Some(skip), None)))
    case MakeOffer(user, driver) =>
      r.(offers := r.offers[newId := Offer(driver, Pending, env.now + OFFER_TIMEOUT_MS)],
         matching := r.matching.Add(TimeoutOf(newId),
           MatchJob(OfferTimeout(newId), Some(attempt + 1), Some(skipped + [user]), Some(env.now + OFFER_TIMEOUT_MS))))
  }

  /** `processRideRequest` */
  function RunRequest(r: Ride): Ride {
    if RideRequest !in r.requests.jobs then r
    else r.(requests := r.requests.Finish(RideRequest),
            matching := r.matching.Add(First, FIRST_JOB))
  }

  /** BullMQ moves a delayed job that is due to the waiting list. */
  function Promote(env: Env, r: Ride, k: MatchKey): Ride {
    if k in r.matching.jobs && r.matching.jobs[k].delayedUntil.Some? && r.matching.jobs[k].delayedUntil.value <= env.now
    then r.(matching := r.matching.(jobs := r.matching.jobs[k := r.matching.jobs[k].(delayedUntil := None)]))
    else r
  }

  predicate Ready(r: Ride, k: MatchKey, newId: OfferId) {
    k in r.matching.jobs && r.matching.jobs[k].delayedUntil.None? && newId !in r.offers
  }

  /** A timeout whose offer is no longer PENDING does nothing. */
  predicate Inert(r: Ride, job: MatchJob) {
    job.name.OfferTimeout? && !(job.name.offer in r.offers && r.offers[job.name.offer].status.Pending?)
  }

  /** The ride a cascade run starts from: its job is done and, after a timeout, its offer EXPIRED. */
  function BeforeCascade(r: Ride, k: MatchKey): Ride
    requires k in r.matching.jobs && !Inert(r, r.matching.jobs[k])
  {
    var job := r.matching.jobs[k];
    var r1 := r.(matching := r.matching.Finish(k));
    if job.name.OfferTimeout? then r1.(offers := SetStatus(r.offers, job.name.offer, Expired)) else r1
  }

  /** `processRideMatching` */
  function RunMatching(env: Env, r: Ride, k: MatchKey, geo: Geo, newId: OfferId): Ride {
    if !Ready(r, k, newId) then r
    else
      var job := r.matching.jobs[k];
      if Inert(r, job) then r.(matching := r.matching.Finish(k))
      else RunCascade(env, BeforeCascade(r, k), job.Attempt(), job.Skipped(), geo, newId)
  }
}
