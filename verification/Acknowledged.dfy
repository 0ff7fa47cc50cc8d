/** What a success reply of the gateway is worth. The lifecycle queue drops a job whose id it has seen, and
    the reply does not tell. A cancellation or completion is dropped only when the job that used the id is
    still waiting or has done its work; a guess or an acceptance can be lost. */
module Acknowledged {
  import opened Base
  import opened StateMachine
  import opened Rides
  import opened Gateway
  import opened Lifecycle
  import opened Dispatch
  import opened Frames
  import opened Invariants
  import opened Runs
  import opened NoLostRide
  import opened Acceptance

  ghost predicate Waits(r: Ride, k: LifeKey) {
    k in r.lifecycle.seen ==> k in r.lifecycle.jobs
  }

  /** Until a cancellation or completion has taken effect, an id of one that was used is the id of one that
      waits; and no completion comes before the start. */
  ghost predicate Kept(r: Ride) {
    && (r.trip.status in {Requested, Accepted} ==>
          Waits(r, CancelKey) && Waits(r, DriverCancelKey) && CompleteKey !in r.lifecycle.seen)
    && (r.trip.status.Started? ==> Waits(r, CompleteKey))
  }

  /** A completion is queued only by a call that found the trip STARTED. */
  lemma ConcludedCompletion(env: Env, r: Ride, e: RideEvent)
    requires IsGatewayEvent(e) && RideInv(env.now, env.directory, r)
    requires CompleteKey in RideStep(env, r, e).ride.lifecycle.seen && CompleteKey !in r.lifecycle.seen
    ensures r.trip.status in {Started, Completed}
  {
    if e.Conclude? && e.call in r.calls {
      assert CallInv(env.directory, r, r.calls[e.call]);
    }
  }

  lemma GatewayKeeps(env: Env, r: Ride, e: RideEvent)
    requires IsGatewayEvent(e) && RideInv(env.now, env.directory, r) && Kept(r)
    ensures Kept(RideStep(env, r, e).ride)
  {
    GatewayFrame(env, r, e);
    if CompleteKey in RideStep(env, r, e).ride.lifecycle.seen && CompleteKey !in r.lifecycle.seen {
      ConcludedCompletion(env, r, e);
    }
    hide RideStep;
    hide RideInv;
  }

  lemma MatchingKeeps(env: Env, r: Ride, e: RideEvent)
    requires e.RunRequest? || e.Promote? || e.RunMatching?
    requires Kept(r)
    ensures Kept(RideStep(env, r, e).ride)
  {
    MatchingFrame(env, r, e);
    hide RideStep;
  }

  lemma LifecycleKeeps(env: Env, r: Ride, k: LifeKey, otp: string)
    requires RideInv(env.now, env.directory, r) && Kept(r)
    ensures Kept(Lifecycle.RunLifecycle(env, r, k, otp).ride)
  {
    LifecycleFrame(env, r, k, otp);
    if k in r.lifecycle.jobs {
      assert LifeJobInv(env.directory, r, k, r.lifecycle.jobs[k]);
    }
  }

  lemma StepKeeps(env: Env, r: Ride, e: RideEvent)
    requires RideInv(env.now, env.directory, r) && Kept(r)
    ensures Kept(RideStep(env, r, e).ride)
  {
    hide RideInv;
    hide Kept;
    if IsGatewayEvent(e) {
      GatewayKeeps(env, r, e);
    } else if e.RunLifecycle? {
      LifecycleKeeps(env, r, e.job, e.otp);
    } else {
      MatchingKeeps(env, r, e);
    }
  }

  lemma {:induction false} KeptHolds(es: seq<Event>, t: TripId)
    requires t in Exec(es).rides
    ensures Kept(Exec(es).rides[t])
  {
    hide RideInv;
    hide RideStep;
    var before, e := es[..|es|-1], es[|es|-1];
    var w := Exec(before);
    if t in w.rides {
      KeptHolds(before, t);
      ReachableInv(before);
      hide Kept;
      if e.On? && e.trip == t {
        StepKeeps(w.env, w.rides[t], e.event);
      }
    }
  }

  /** The queue holds a job that does what an acknowledged call asked for, unless the trip has moved on since
      the call's check. */
  ghost predicate IsServed(r: Ride, call: Call, jobs: map<LifeKey, LifeJob>) {
    match call
    case RiderCancelChecked =>
      r.trip.status in {Requested, Accepted} ==> CancelKey in jobs && jobs[CancelKey].Cancel?
    case DriverCancelChecked(d) =>
      r.trip.status.Accepted? ==> DriverCancelKey in jobs && jobs[DriverCancelKey] == Cancel(DriverCancelled(d))
    case CompleteChecked(d) =>
      r.trip.status.Started? ==> CompleteKey in jobs && jobs[CompleteKey] == Complete(d)
    case _ => true
  }

  lemma EndedCallIsServed(env: Env, r: Ride, c: CallId)
    requires RideInv(env.now, env.directory, r) && Kept(r) && c in r.calls
    ensures IsServed(r, r.calls[c], Gateway.Conclude(env, r, c).lifecycle.jobs)
  {
    assert CallInv(env.directory, r, r.calls[c]);
    forall k | k in r.lifecycle.jobs ensures LifeJobInv(env.directory, r, k, r.lifecycle.jobs[k]) {
    }
  }

  /** In any run: when a cancellation or completion is acknowledged, a job that will do it waits in the queue,
      although the queue may have dropped the call's own. */
  lemma AcknowledgedIsServed(es: seq<Event>, t: TripId, c: CallId)
    requires t in Exec(es).rides && c in Exec(es).rides[t].calls
    ensures var r := Exec(es).rides[t];
            IsServed(r, r.calls[c], Gateway.Conclude(Exec(es).env, r, c).lifecycle.jobs)
  {
    hide RideInv;
    hide WorldInv;
    KeptHolds(es, t);
    ReachableInv(es);
    InvOf(Exec(es), t);
    EndedCallIsServed(Exec(es).env, Exec(es).rides[t], c);
  }

  // ---- What can be lost -------------------------------------------------------------------

  /** The call that ends queues a guess, at time `ms`. */
  predicate QueuesGuess(env: Env, r: Ride, e: RideEvent, ms: nat) {
    e.Conclude? && e.call in r.calls && r.calls[e.call].VerifyChecked? && env.now == ms
  }

  function GuessesAt(es: seq<Event>, t: TripId, ms: nat): nat {
    Count(es, t, (env, r, e) => QueuesGuess(env, r, e, ms))
  }

  lemma StepUsesGuessId(env: Env, r: Ride, e: RideEvent, ms: nat)
    ensures VerifyKey(ms) in RideStep(env, r, e).ride.lifecycle.seen
            <==> VerifyKey(ms) in r.lifecycle.seen || QueuesGuess(env, r, e, ms)
  {
    if e.RunLifecycle? {
      LifecycleFrame(env, r, e.job, e.otp);
      hide RideStep;
    } else if !IsGatewayEvent(e) {
      MatchingFrame(env, r, e);
      hide RideStep;
    }
  }

  /** The id of a guess is the clock's reading, so it is used exactly if a guess was queued at that reading. */
  lemma {:induction false} GuessIdIsUsedIff(es: seq<Event>, t: TripId, ms: nat)
    ensures t in Exec(es).rides ==> (VerifyKey(ms) in Exec(es).rides[t].lifecycle.seen <==> GuessesAt(es, t, ms) > 0)
    ensures t !in Exec(es).rides ==> GuessesAt(es, t, ms) == 0
  {
    hide RideStep;
    hide QueuesGuess;
    if es != [] {
      var before, e := es[..|es|-1], es[|es|-1];
      GuessIdIsUsedIff(before, t, ms);
      if e.On? && e.trip == t && t in Exec(before).rides {
        StepUsesGuessId(Exec(before).env, Exec(before).rides[t], e.event, ms);
      }
    }
  }

  /** A guess that is acknowledged is dropped if and only if another one for the trip was queued within the
      same millisecond. */
  lemma GuessIsDroppedIff(es: seq<Event>, t: TripId, c: CallId)
    requires t in Exec(es).rides && c in Exec(es).rides[t].calls && Exec(es).rides[t].calls[c].VerifyChecked?
    ensures var w := Exec(es);
            var q := w.rides[t].lifecycle;
            Gateway.Conclude(w.env, w.rides[t], c).lifecycle == q <==> GuessesAt(es, t, w.env.now) > 0
  {
    hide RideStep;
    GuessIdIsUsedIff(es, t, Exec(es).env.now);
  }

  /** An acceptance that is acknowledged is dropped if and only if one of the trip was queued before. */
  lemma AcceptIsDroppedIff(es: seq<Event>, t: TripId, c: CallId)
    requires t in Exec(es).rides && c in Exec(es).rides[t].calls && Exec(es).rides[t].calls[c].AcceptLocked?
    ensures var w := Exec(es);
            Gateway.Conclude(w.env, w.rides[t], c).lifecycle == w.rides[t].lifecycle <==> AcceptEnqueues(es, t) > 0
  {
    AtMostOneAcceptJob(es, t);
  }
}
