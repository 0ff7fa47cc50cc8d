/** What a successful ACCEPT leaves of the ride's matching. */
module AcceptCloses {
  import opened Base
  import opened Rides
  import opened Cascade
  import opened Lifecycle
  import opened Invariants

  /** After an ACCEPT job succeeds: the chosen offer is ACCEPTED and was the accepting driver's, every other
      offer that was PENDING is EXPIRED and the rest are as they were; exactly the delayed timeouts are
      gone from the matching queue; and a timeout that had already left the delayed set does nothing
      but finish. */
  lemma AcceptClosesMatching(env: Env, r: Ride, otp: string, geo: Geo, newId: OfferId)
    requires RideInv(env.now, env.directory, r)
    requires AcceptKey in r.lifecycle.jobs && r.trip.status.Requested?
    ensures var r' := Lifecycle.RunLifecycle(env, r, AcceptKey, otp).ride;
            var job := r.lifecycle.jobs[AcceptKey];
            && job.Accept? && r'.trip.status.Accepted? && r'.trip.driver == Some(job.driver)
            && r'.offers.Keys == r.offers.Keys && job.offer in r.offers && r.offers[job.offer].driver == job.driver
            && (forall o :: o in r.offers ==>
                  r'.offers[o].status ==
                    if o == job.offer then OfferAccepted
                    else if r.offers[o].status.Pending? then Expired
                    else r.offers[o].status)
            && (forall k :: k in r.matching.jobs && k !in r'.matching.jobs <==>
                  k in r.matching.jobs && r.matching.jobs[k].name.OfferTimeout? && r.matching.jobs[k].delayedUntil.Some?)
            && (forall k :: k in r'.matching.jobs ==> k in r.matching.jobs && r'.matching.jobs[k] == r.matching.jobs[k])
            && (forall k :: Ready(r', k, newId) && r'.matching.jobs[k].name.OfferTimeout? ==>
                  Cascade.RunMatching(env, r', k, geo, newId) == r'.(matching := r'.matching.Finish(k)))
  {
    assert LifeJobInv(env.directory, r, AcceptKey, r.lifecycle.jobs[AcceptKey]);
  }
}
