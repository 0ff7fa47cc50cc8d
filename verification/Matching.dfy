/** Whom a ride is offered to: the nearest eligible driver, and never the same one twice within a
    chain. */
module Matching {
  import opened Base
  import opened Constants
  import opened Rides
  import opened Gateway
  import opened Cascade
  import opened Lifecycle
  import opened Dispatch
  import opened Frames
  import opened Invariants
  import opened Runs
  import opened Chain
  import opened NoLostRide

  /** `v` may be asked: a member of the GEO set within `km` kilometres whom a successful lookup finds free and who
      has not been skipped. */
  ghost predicate CanBeAsked(geo: Geo, km: real, busy: set<UserId>, skipped: seq<UserId>, v: UserId) {
    v in geo.ranked && v in geo.km && geo.km[v] <= km && v !in busy && v !in geo.failed && v !in skipped
  }

  /** `u` may be asked and nobody who may is nearer. */
  ghost predicate Nearest(geo: Geo, km: real, busy: set<UserId>, skipped: seq<UserId>, u: UserId) {
    && CanBeAsked(geo, km, busy, skipped, u)
    && forall v :: CanBeAsked(geo, km, busy, skipped, v) ==> geo.km[u] <= geo.km[v]
  }

  ghost predicate NobodyCanBeAsked(geo: Geo, km: real, busy: set<UserId>, skipped: seq<UserId>) {
    forall v :: !CanBeAsked(geo, km, busy, skipped, v)
  }

  // The attempt of a job and whom it skips: a job without these fields is the first and skips nobody.

  ghost function AttemptOf(job: MatchJob): nat {
    if job.attempt == None then 1 else job.attempt.value
  }

  ghost function SkippedOf(job: MatchJob): seq<UserId> {
    if job.skipped == None then [] else job.skipped.value
  }

  /** Filtering keeps exactly the members within the radius who are neither busy nor skipped and whose lookup
      succeeded, nearest first. */
  lemma {:induction false} AvailableIsEligible(ranked: seq<UserId>, geo: Geo, radius: real, busy: set<UserId>,
                                               skipped: seq<UserId>)
    requires forall i :: 0 <= i < |ranked| ==> ranked[i] in geo.km
    requires forall i, j :: 0 <= i < j < |ranked| ==> geo.km[ranked[i]] <= geo.km[ranked[j]]
    ensures var a := Available(ranked, geo, radius, busy, skipped);
            && (forall u :: u in a <==>
                  u in ranked && geo.km[u] <= radius && u !in busy && u !in geo.failed && u !in skipped)
            && (forall i, j :: 0 <= i < j < |a| ==> a[i] in geo.km && a[j] in geo.km && geo.km[a[i]] <= geo.km[a[j]])
  {
    if ranked != [] {
      AvailableIsEligible(ranked[1..], geo, radius, busy, skipped);
      var rest := Available(ranked[1..], geo, radius, busy, skipped);
      forall u | u in rest ensures u in geo.km && geo.km[ranked[0]] <= geo.km[u] {
        assert u in ranked[1..];
      }
      assert ranked == [ranked[0]] + ranked[1..];
      forall i | 0 <= i < |rest| ensures geo.km[ranked[0]] <= geo.km[rest[i]] {
        assert rest[i] in rest;
      }
    }
  }

  /** What a cascade run decides, for every GEO state, busy set and skip list. The first attempt asks within 5 km,
      the others within 10. An offer goes to a nearest of those who may be asked; the ride is given up exactly
      after ten attempts, or when there is nobody within 10 km and it is not the first; the first attempt, if
      there is nobody, is followed by a second; and a member without a driver record is skipped. */
  lemma DecisionIsRight(env: Env, attempt: nat, skipped: seq<UserId>, geo: Geo)
    requires geo.Valid()
    ensures var d := Decide(env, attempt, skipped, geo);
            var km := if attempt == 1 then 5.0 else 10.0;
            && (d.GiveUp? <==> attempt > 10 || (attempt != 1 && NobodyCanBeAsked(geo, 10.0, env.busy, skipped)))
            && (d == Continue(CascadeExpanded, skipped) <==>
                  attempt == 1 && NobodyCanBeAsked(geo, 5.0, env.busy, skipped))
            && (d.MakeOffer? ==>
                  && Nearest(geo, km, env.busy, skipped, d.user)
                  && d.user in env.directory.byUser && d.driver == env.directory.byUser[d.user])
            && (d.Continue? && d != Continue(CascadeExpanded, skipped) ==>
                  && |d.skipped| == |skipped| + 1 && d == Continue(CascadeSkip, skipped + [d.skipped[|skipped|]])
                  && Nearest(geo, km, env.busy, skipped, d.skipped[|skipped|])
                  && d.skipped[|skipped|] !in env.directory.byUser)
  {
    if attempt <= MAX_CASCADE_ATTEMPTS {
      var radius := Radius(attempt);
      AvailableIsEligible(geo.ranked, geo, radius, env.busy, skipped);
      var available := Available(geo.ranked, geo, radius, env.busy, skipped);
      forall v ensures CanBeAsked(geo, radius, env.busy, skipped, v) <==> v in available {
      }
      if available != [] {
        assert available[0] in available;
        forall v | v in available ensures geo.km[available[0]] <= geo.km[v] {
        }
      }
    }
  }

  // ---- Chains -----------------------------------------------------------------------------

  /** Event `e` is a cascade run that queues job `k` to go on with its chain. */
  predicate Queues(env: Env, r: Ride, e: RideEvent, k: MatchKey) {
    && RunsCascade(r, e) && !DecisionOf(env, r, e).GiveUp?
    && Continuation(env, r, e).0 == k && k !in r.matching.seen
  }

  /** The chain that leads to a matching job: the job it began with, and the offers made on the way. */
  datatype Lineage = Lineage(root: MatchKey, offers: seq<OfferId>)

  function Extended(env: Env, r: Ride, e: RideEvent, l: Lineage): Lineage
    requires RunsCascade(r, e)
  {
    Lineage(l.root, l.offers + if DecisionOf(env, r, e).MakeOffer? then [e.newId] else [])
  }

  /** The chain that led to job `k` of ride `t`; a job that no cascade run queued is the root of its own. */
  function LineageOf(es: seq<Event>, t: TripId, k: MatchKey): Lineage {
    if es == [] then Lineage(k, [])
    else
      var before, e := es[..|es|-1], es[|es|-1];
      var w := Exec(before);
      if e.On? && e.trip == t && t in w.rides && Queues(w.env, w.rides[t], e.event, k)
      then Extended(w.env, w.rides[t], e.event, LineageOf(before, t, e.event.key))
      else LineageOf(before, t, k)
  }

  /** First jobs and restarts are roots. */
  lemma {:induction false} RootsAreAlone(es: seq<Event>, t: TripId, k: MatchKey)
    requires k.First? || k.RejectOf?
    ensures LineageOf(es, t, k) == Lineage(k, [])
  {
    if es != [] {
      RootsAreAlone(es[..|es|-1], t, k);
    }
  }

  /** The offers of a chain go to registered drivers, pairwise different, and not to the one whose reject
      started it. */
  ghost predicate OfferedOnce(dir: Directory, r: Ride, l: Lineage) {
    && (forall i :: 0 <= i < |l.offers| ==> l.offers[i] in r.offers && r.offers[l.offers[i]].driver in dir.byId)
    && (forall i, j :: 0 <= i < j < |l.offers| ==> r.offers[l.offers[i]].driver != r.offers[l.offers[j]].driver)
    && (l.root.RejectOf? && l.root.offer in r.offers ==>
          forall i :: 0 <= i < |l.offers| ==> r.offers[l.offers[i]].driver != r.offers[l.root.offer].driver)
  }

  /** A job that goes on with the chain skips all of them. */
  ghost predicate JobSkips(dir: Directory, r: Ride, job: MatchJob, l: Lineage) {
    && (forall i :: 0 <= i < |l.offers| ==>
          && l.offers[i] in r.offers && r.offers[l.offers[i]].driver in dir.byId
          && dir.byId[r.offers[l.offers[i]].driver] in job.Skipped())
    && (l.root.RejectOf? ==>
          && l.root.offer in r.offers && r.offers[l.root.offer].driver in dir.byId
          && dir.byId[r.offers[l.root.offer].driver] in job.Skipped())
  }

  ghost predicate LineageInv(dir: Directory, r: Ride, k: MatchKey, l: Lineage) {
    && OfferedOnce(dir, r, l)
    && (k in r.matching.jobs ==> JobSkips(dir, r, r.matching.jobs[k], l))
  }

  /** Whoever is rejecting an offer owns it. */
  ghost predicate RejectersOwn(dir: Directory, r: Ride) {
    forall c :: c in r.calls && r.calls[c].Rejecting? ==>
      && r.calls[c].offer in r.offers
      && r.calls[c].user in dir.byUser && dir.byUser[r.calls[c].user] == r.offers[r.calls[c].offer].driver
  }

  // ---- One event --------------------------------------------------------------------------

  ghost predicate OffersStayOwned(r: Ride, r': Ride) {
    forall o :: o in r.offers ==> o in r'.offers && r'.offers[o].driver == r.offers[o].driver
  }

  lemma OfferedOnceStays(dir: Directory, r: Ride, dir': Directory, r': Ride, l: Lineage)
    requires OfferedOnce(dir, r, l) && OffersStayOwned(r, r') && dir'.Extends(dir)
    requires l.root.RejectOf? && l.offers != [] ==> l.root.offer in r.offers
    ensures OfferedOnce(dir', r', l)
  {
  }

  lemma JobSkipsStays(dir: Directory, r: Ride, dir': Directory, r': Ride, job: MatchJob, job': MatchJob, l: Lineage)
    requires JobSkips(dir, r, job, l) && OffersStayOwned(r, r') && dir'.Extends(dir)
    requires job'.Skipped() == job.Skipped()
    ensures JobSkips(dir', r', job', l)
  {
  }

  lemma CascadeJobsComeFrom(env: Env, r: Ride, e: RideEvent, k: MatchKey)
    requires e.RunMatching? && k in RideStep(env, r, e).ride.matching.jobs
    ensures var jobs' := RideStep(env, r, e).ride.matching.jobs;
            || (k in r.matching.jobs && jobs'[k] == r.matching.jobs[k])
            || (Queues(env, r, e, k) && jobs'[k] == Continuation(env, r, e).1)
  {
    hide Lifecycle.RunLifecycle;
    hide Gateway.Conclude;
  }

  lemma ConcludedJobsComeFrom(env: Env, r: Ride, c: CallId, k: MatchKey)
    requires k in Gateway.Conclude(env, r, c).matching.jobs
    ensures var jobs' := Gateway.Conclude(env, r, c).matching.jobs;
            || (k in r.matching.jobs && jobs'[k] == r.matching.jobs[k])
            || (c in r.calls && r.calls[c].Rejecting? && k == RejectOf(r.calls[c].offer)
                && jobs'[k].Skipped() == [r.calls[c].user])
  {
  }

  lemma OtherJobsComeFrom(env: Env, r: Ride, e: RideEvent, k: MatchKey)
    requires e.Begin? || e.TryLock? || e.RunRequest? || e.Promote?
    requires k in RideStep(env, r, e).ride.matching.jobs
    ensures var jobs' := RideStep(env, r, e).ride.matching.jobs;
            || (k in r.matching.jobs && jobs'[k].Skipped() == r.matching.jobs[k].Skipped())
            || (k == First && e.RunRequest? && jobs'[k].Skipped() == [])
  {
    hide Lifecycle.RunLifecycle;
    hide Gateway.Conclude;
    hide Cascade.RunMatching;
  }

  /** Where the matching jobs of a ride come from. */
  lemma JobsComeFrom(env: Env, r: Ride, e: RideEvent, k: MatchKey)
    requires k in RideStep(env, r, e).ride.matching.jobs
    ensures var jobs' := RideStep(env, r, e).ride.matching.jobs;
            || (k in r.matching.jobs && jobs'[k].Skipped() == r.matching.jobs[k].Skipped())
            || (Queues(env, r, e, k) && jobs'[k] == Continuation(env, r, e).1)
            || (k == First && e.RunRequest? && jobs'[k].Skipped() == [])
            || (e.Conclude? && e.call in r.calls && r.calls[e.call].Rejecting?
                && k == RejectOf(r.calls[e.call].offer) && jobs'[k].Skipped() == [r.calls[e.call].user])
  {
    hide Lifecycle.RunLifecycle;
    hide Gateway.Conclude;
    match e
    case RunMatching(_, _, _) =>
      hide RideStep;
      CascadeJobsComeFrom(env, r, e, k);
    case RunLifecycle(key, otp) => OffersOnlyClose(env, r, key, otp);
    case Conclude(c) => ConcludedJobsComeFrom(env, r, c, k);
    case _ =>
      hide RideStep;
      OtherJobsComeFrom(env, r, e, k);
  }

  lemma OffersStay(env: Env, r: Ride, e: RideEvent)
    requires RideInv(env.now, env.directory, r)
    ensures OffersStayOwned(r, RideStep(env, r, e).ride)
  {
    hide RideInv;
    hide RideStep;
    StepIsLater(env, r, e);
  }

  /** What a run offers, and what its continuation skips. */
  lemma ContinuationSkips(env: Env, r: Ride, e: RideEvent)
    requires RunsCascade(r, e) && !DecisionOf(env, r, e).GiveUp? && e.geo.Valid()
    ensures var skipped, skipped' := r.matching.jobs[e.key].Skipped(), Continuation(env, r, e).1.Skipped();
            && (forall u :: u in skipped ==> u in skipped')
            && (DecisionOf(env, r, e).MakeOffer? ==>
                  var offers, d := RideStep(env, r, e).ride.offers, DecisionOf(env, r, e);
                  && e.newId !in r.offers && e.newId in offers && offers[e.newId].driver == d.driver
                  && d.user in env.directory.byUser && env.directory.byUser[d.user] == d.driver
                  && d.user !in skipped && d.user in skipped')
  {
    DecisionIsRight(env, r.matching.jobs[e.key].Attempt(), r.matching.jobs[e.key].Skipped(), e.geo);
  }

  /** The chain goes on: its new offer is to someone it has not asked. */
  lemma ExtendedIsGood(dir: Directory, r: Ride, r': Ride, l: Lineage, l': Lineage, job: MatchJob, job': MatchJob,
                       newId: OfferId, u: UserId)
    requires dir.Consistent() && OfferedOnce(dir, r, l) && JobSkips(dir, r, job, l) && OffersStayOwned(r, r')
    requires forall v :: v in job.Skipped() ==> v in job'.Skipped()
    requires l' == l || (l' == Lineage(l.root, l.offers + [newId]) && newId in r'.offers
                         && u in dir.byUser && dir.byUser[u] == r'.offers[newId].driver
                         && u !in job.Skipped() && u in job'.Skipped())
    ensures OfferedOnce(dir, r', l') && JobSkips(dir, r', job', l')
  {
    forall i | 0 <= i < |l.offers|
      ensures l.offers[i] in r'.offers && r'.offers[l.offers[i]].driver == r.offers[l.offers[i]].driver
    {
    }
  }

  lemma QueuedJob(env: Env, r: Ride, e: RideEvent, k: MatchKey)
    requires Queues(env, r, e, k)
    ensures var jobs := RideStep(env, r, e).ride.matching.jobs; k in jobs && jobs[k] == Continuation(env, r, e).1
  {
  }

  lemma QueuedLineage(env: Env, r: Ride, e: RideEvent, k: MatchKey, l: Lineage)
    requires env.directory.Consistent() && RideInv(env.now, env.directory, r) && Queues(env, r, e, k) && e.geo.Valid()
    requires LineageInv(env.directory, r, e.key, l)
    ensures LineageInv(env.directory, RideStep(env, r, e).ride, k, Extended(env, r, e, l))
  {
    var r', d := RideStep(env, r, e).ride, DecisionOf(env, r, e);
    OffersStay(env, r, e);
    ContinuationSkips(env, r, e);
    QueuedJob(env, r, e, k);
    var u := if d.MakeOffer? then d.user else "";
    var l' := Extended(env, r, e, l);
    assert !d.MakeOffer? ==> l'.offers == l.offers;
    hide OfferedOnce;
    hide JobSkips;
    ExtendedIsGood(env.directory, r, r', l, l', r.matching.jobs[e.key], Continuation(env, r, e).1, e.newId, u);
  }

  /** Every other job keeps its chain; a first job or a restart begins one. */
  lemma OldLineage(env: Env, r: Ride, e: RideEvent, k: MatchKey, l: Lineage)
    requires env.directory.Consistent() && RideInv(env.now, env.directory, r) && !Queues(env, r, e, k)
    requires LineageInv(env.directory, r, k, l) && RejectersOwn(env.directory, r)
    requires l.root.RejectOf? && l.offers != [] ==> l.root.offer in r.offers
    requires k.First? || k.RejectOf? ==> l == Lineage(k, [])
    ensures LineageInv(env.directory, RideStep(env, r, e).ride, k, l)
  {
    var r' := RideStep(env, r, e).ride;
    OffersStay(env, r, e);
    if k in r'.matching.jobs {
      JobsComeFrom(env, r, e, k);
    }
    hide RideStep;
    hide RideInv;
    hide Queues;
    OfferedOnceStays(env.directory, r, env.directory, r', l);
    if k in r'.matching.jobs {
      if k in r.matching.jobs && r'.matching.jobs[k].Skipped() == r.matching.jobs[k].Skipped() {
        JobSkipsStays(env.directory, r, env.directory, r', r.matching.jobs[k], r'.matching.jobs[k], l);
      }
    }
  }

  lemma BeginKeepsRejecters(env: Env, r: Ride, c: CallId, req: Request)
    requires RejectersOwn(env.directory, r)
    ensures RejectersOwn(env.directory, Gateway.Begin(env, r, c, req))
  {
  }

  lemma TryLockKeepsRejecters(env: Env, r: Ride, c: CallId)
    requires RejectersOwn(env.directory, r)
    ensures RejectersOwn(env.directory, Gateway.TryLock(env, r, c))
  {
  }

  lemma StepKeepsRejecters(env: Env, r: Ride, e: RideEvent)
    requires RideInv(env.now, env.directory, r) && RejectersOwn(env.directory, r)
    ensures RejectersOwn(env.directory, RideStep(env, r, e).ride)
  {
    OffersStay(env, r, e);
    hide RideInv;
    match e
    case Begin(c, req) => BeginKeepsRejecters(env, r, c, req);
    case TryLock(c) => TryLockKeepsRejecters(env, r, c);
    case Conclude(c) =>
      ConcludeFrame(env, r, c);
      hide RideStep;
    case RunLifecycle(k, otp) =>
      LifecycleFrame(env, r, k, otp);
      hide Lifecycle.RunLifecycle;
    case _ =>
      MatchingFrame(env, r, e);
      hide RideStep;
  }

  // ---- Over runs --------------------------------------------------------------------------

  /** Every GEO search of the run returned what a GEOSEARCH can return. */
  ghost predicate GeoIsValid(es: seq<Event>) {
    forall i :: 0 <= i < |es| && es[i].On? && es[i].event.RunMatching? ==> es[i].event.geo.Valid()
  }

  lemma RejectersUnderLater(dir: Directory, dir': Directory, r: Ride)
    requires RejectersOwn(dir, r) && dir'.Extends(dir)
    ensures RejectersOwn(dir', r)
  {
  }

  lemma ApplyKeepsRejecters(w: World, e: Event, t: TripId)
    requires WorldInv(w) && t in w.rides && RejectersOwn(w.env.directory, w.rides[t])
    ensures t in Apply(w, e).rides && RejectersOwn(Apply(w, e).env.directory, Apply(w, e).rides[t])
  {
    hide RideStep;
    hide RideInv;
    hide RejectersOwn;
    if e.On? && e.trip == t {
      StepKeepsRejecters(w.env, w.rides[t], e.event);
    } else {
      ApplyExtendsEnv(w, e);
      RejectersUnderLater(w.env.directory, Apply(w, e).env.directory, w.rides[t]);
    }
  }

  lemma {:induction false} RejectersHold(es: seq<Event>, t: TripId)
    ensures t in Exec(es).rides ==> RejectersOwn(Exec(es).env.directory, Exec(es).rides[t])
  {
    if es != [] {
      var before, e := es[..|es|-1], es[|es|-1];
      RejectersHold(before, t);
      ReachableInv(before);
      hide WorldInv;
      if t in Exec(before).rides {
        hide RejectersOwn;
        ApplyKeepsRejecters(Exec(before), e, t);
      }
    }
  }

  /** What holds of the chain of job `k`, and that the offer whose reject began it is there. */
  ghost predicate ChainIsGood(w: World, t: TripId, k: MatchKey, l: Lineage) {
    t in w.rides ==>
      && LineageInv(w.env.directory, w.rides[t], k, l)
      && (l.root.RejectOf? && l.offers != [] ==> l.root.offer in w.rides[t].offers)
  }

  lemma LineageUnderLater(dir: Directory, dir': Directory, r: Ride, k: MatchKey, l: Lineage)
    requires LineageInv(dir, r, k, l) && dir'.Extends(dir)
    requires l.root.RejectOf? && l.offers != [] ==> l.root.offer in r.offers
    ensures LineageInv(dir', r, k, l)
  {
    hide OfferedOnce;
    hide JobSkips;
    OfferedOnceStays(dir, r, dir', r, l);
    if k in r.matching.jobs {
      JobSkipsStays(dir, r, dir', r, r.matching.jobs[k], r.matching.jobs[k], l);
    }
  }

  lemma RideStepKeepsChain(env: Env, r: Ride, e: RideEvent, k: MatchKey, l: Lineage, from: Lineage)
    requires env.directory.Consistent() && RideInv(env.now, env.directory, r) && RejectersOwn(env.directory, r)
    requires e.RunMatching? ==> e.geo.Valid()
    requires LineageInv(env.directory, r, k, l) && (l.root.RejectOf? && l.offers != [] ==> l.root.offer in r.offers)
    requires k.First? || k.RejectOf? ==> l == Lineage(k, [])
    requires e.RunMatching? ==> LineageInv(env.directory, r, e.key, from)
    ensures var r', l' := RideStep(env, r, e).ride, if Queues(env, r, e, k) then Extended(env, r, e, from) else l;
            && LineageInv(env.directory, r', k, l')
            && (l'.root.RejectOf? && l'.offers != [] ==> l'.root.offer in r'.offers)
  {
    OffersStay(env, r, e);
    hide RideInv;
    hide OfferedOnce;
    if Queues(env, r, e, k) {
      QueuedLineage(env, r, e, k, from);
    } else {
      hide RideStep;
      hide JobSkips;
      OldLineage(env, r, e, k, l);
    }
  }

  lemma EventLeavesDirectory(w: World, t: TripId, e: RideEvent)
    ensures Apply(w, On(t, e)).env.directory == w.env.directory
  {
    hide RideStep;
  }

  lemma ApplyKeepsGood(w: World, e: Event, t: TripId, k: MatchKey, l: Lineage, from: Lineage)
    requires WorldInv(w) && t in w.rides && RejectersOwn(w.env.directory, w.rides[t])
    requires ChainIsGood(w, t, k, l) && (k.First? || k.RejectOf? ==> l == Lineage(k, []))
    requires e.On? && e.event.RunMatching? ==> e.event.geo.Valid() && ChainIsGood(w, t, e.event.key, from)
    ensures ChainIsGood(Apply(w, e), t, k,
              if e.On? && e.trip == t && Queues(w.env, w.rides[t], e.event, k)
              then Extended(w.env, w.rides[t], e.event, from) else l)
  {
    InvOf(w, t);
    hide WorldInv;
    hide RideStep;
    hide RideInv;
    hide LineageInv;
    hide Queues;
    hide RejectersOwn;
    hide Apply;
    RideAfter(w, e, t);
    if e.On? && e.trip == t {
      RideStepKeepsChain(w.env, w.rides[t], e.event, k, l, from);
      EventLeavesDirectory(w, t, e.event);
    } else {
      ApplyExtendsEnv(w, e);
      LineageUnderLater(w.env.directory, Apply(w, e).env.directory, w.rides[t], k, l);
    }
  }

  lemma FreshChain(dir: Directory, rider: RiderId, meters: Fare.Meters, c: CallId, k: MatchKey)
    ensures LineageInv(dir, FreshRide(rider, meters, map[c := Creating]), k, Lineage(k, []))
  {
  }

  lemma NewRideIsGood(w: World, e: Event, t: TripId, k: MatchKey)
    requires t !in w.rides
    ensures ChainIsGood(Apply(w, e), t, k, Lineage(k, []))
  {
    if t in Apply(w, e).rides {
      FreshChain(Apply(w, e).env.directory, w.env.riders[e.user], e.meters, e.call, k);
    }
  }

  lemma {:induction false} NoRideNoLineage(es: seq<Event>, t: TripId, k: MatchKey)
    requires t !in Exec(es).rides
    ensures LineageOf(es, t, k) == Lineage(k, [])
  {
    if es != [] {
      var before := es[..|es|-1];
      assert t !in Exec(before).rides by {
        hide RideStep;
      }
      NoRideNoLineage(before, t, k);
    }
  }

  lemma ChainNext(es: seq<Event>, t: TripId, k: MatchKey)
    requires es != [] && GeoIsValid(es)
    requires ChainIsGood(Exec(es[..|es|-1]), t, k, LineageOf(es[..|es|-1], t, k))
    requires var e := es[|es|-1];
             e.On? && e.event.RunMatching? ==>
               ChainIsGood(Exec(es[..|es|-1]), t, e.event.key, LineageOf(es[..|es|-1], t, e.event.key))
    ensures ChainIsGood(Exec(es), t, k, LineageOf(es, t, k))
  {
    var before, e := es[..|es|-1], es[|es|-1];
    var w := Exec(before);
    ReachableInv(before);
    RejectersHold(before, t);
    if k.First? || k.RejectOf? {
      RootsAreAlone(before, t, k);
    }
    hide WorldInv;
    hide Apply;
    hide ChainIsGood;
    hide RejectersOwn;
    hide Queues;
    if t in w.rides {
      var l := LineageOf(before, t, k);
      var from := if e.On? && e.event.RunMatching? then LineageOf(before, t, e.event.key) else l;
      ApplyKeepsGood(w, e, t, k, l, from);
    } else {
      NoRideNoLineage(before, t, k);
      NewRideIsGood(w, e, t, k);
    }
  }

  lemma {:induction false} ChainHoldsGood(es: seq<Event>, t: TripId, k: MatchKey)
    requires GeoIsValid(es)
    ensures ChainIsGood(Exec(es), t, k, LineageOf(es, t, k))
    decreases |es|
  {
    if es != [] {
      var before, e := es[..|es|-1], es[|es|-1];
      assert GeoIsValid(before);
      ChainHoldsGood(before, t, k);
      if e.On? && e.event.RunMatching? {
        ChainHoldsGood(before, t, e.event.key);
      }
      ChainNext(es, t, k);
    }
  }

  // ---- Never twice ------------------------------------------------------------------------

  /** In any run, with rejects of any kind: everyone the chain of a queued job was offered to is in the job's
      skip list. */
  lemma SkippedHolds(es: seq<Event>, t: TripId, k: MatchKey, i: nat)
    requires GeoIsValid(es) && t in Exec(es).rides && k in Exec(es).rides[t].matching.jobs
    requires i < |LineageOf(es, t, k).offers|
    ensures var r, dir, o := Exec(es).rides[t], Exec(es).env.directory, LineageOf(es, t, k).offers[i];
            o in r.offers && r.offers[o].driver in dir.byId && dir.byId[r.offers[o].driver] in r.matching.jobs[k].Skipped()
  {
    ChainHoldsGood(es, t, k);
  }

  /** In any run, with rejects of any kind: no chain offers the ride to the same driver twice. */
  lemma NeverOfferedTwice(es: seq<Event>, t: TripId, k: MatchKey, i: nat, j: nat)
    requires GeoIsValid(es) && t in Exec(es).rides && i < j < |LineageOf(es, t, k).offers|
    ensures var r, chain := Exec(es).rides[t], LineageOf(es, t, k).offers;
            chain[i] in r.offers && chain[j] in r.offers && r.offers[chain[i]].driver != r.offers[chain[j]].driver
  {
    ChainHoldsGood(es, t, k);
  }

  /** In any run: the chain that a reject restarts never offers the ride to the driver who rejected it. */
  lemma RejecterIsSpared(es: seq<Event>, t: TripId, k: MatchKey, i: nat, ro: OfferId)
    requires GeoIsValid(es) && t in Exec(es).rides && i < |LineageOf(es, t, k).offers|
    requires LineageOf(es, t, k).root == RejectOf(ro)
    ensures var r, o := Exec(es).rides[t], LineageOf(es, t, k).offers[i];
            ro in r.offers && o in r.offers && r.offers[o].driver != r.offers[ro].driver
  {
    ChainHoldsGood(es, t, k);
  }

  // ---- While there is one chain -----------------------------------------------------------

  /** Nobody rejects ride `t` from event `i` on, and the rejects before hit PENDING offers. */
  ghost predicate OneChainSince(es: seq<Event>, i: nat, t: TripId)
    requires i <= |es|
  {
    RejectsHitPending(es, t) && Rejects(es, t) == Rejects(es[..i], t)
  }

  lemma {:induction false} RejectsGrow(es: seq<Event>, i: nat, t: TripId)
    requires i <= |es|
    ensures Rejects(es[..i], t) <= Rejects(es, t) && StaleRejects(es[..i], t) <= StaleRejects(es, t)
    decreases |es|
  {
    if i == |es| {
      assert es[..i] == es;
    } else {
      assert es[..|es|-1][..i] == es[..i];
      RejectsGrow(es[..|es|-1], i, t);
    }
  }

  /** The chain up to the event before last is one chain, and the last event is no reject. */
  lemma OneChainBefore(es: seq<Event>, i: nat, t: TripId)
    requires i < |es| && OneChainSince(es, i, t)
    ensures OneChainSince(es[..|es|-1], i, t)
    ensures var w, e := Exec(es[..|es|-1]), es[|es|-1];
            && (e.On? && e.trip == t && t in w.rides ==> !MarksReject(w.env, w.rides[t], e.event))
            && (t in w.rides ==> ChainInv(w.rides[t]))
  {
    assert es[..|es|-1][..i] == es[..i];
    RejectsGrow(es[..|es|-1], i, t);
    ChainHolds(es[..|es|-1], t);
  }

  predicate IsNew(r: Ride, earlier: set<OfferId>, o: OfferId) {
    o in r.offers && o !in earlier
  }

  /** All new offers are offers of the chain of job `k`, which is the only one left once there are any; and
      with a root given, the ride's one chain comes from the reject of that offer. */
  ghost predicate Covers(r: Ride, earlier: set<OfferId>, root: Option<OfferId>, k: MatchKey, l: Lineage) {
    && (forall o :: IsNew(r, earlier, o) ==> o in l.offers)
    && ((exists o :: IsNew(r, earlier, o)) ==>
          && (forall a :: IsToken(r, a) ==> a == JobToken(k))
          && (root.Some? ==> l.root == RejectOf(root.value)))
    && (root.Some? ==> forall a :: IsToken(r, a) ==>
          || (a == JobToken(k) && l.root == RejectOf(root.value))
          || (a.CallToken? && r.calls[a.call].Rejecting? && r.calls[a.call].offer == root.value))
  }

  lemma ConcludedTokensStay(env: Env, r: Ride, c: CallId, a: Token)
    requires IsToken(Gateway.Conclude(env, r, c), a)
    ensures || (IsToken(r, a) && (a.CallToken? ==> Gateway.Conclude(env, r, c).calls[a.call] == r.calls[a.call]))
            || (a == RequestToken && IsToken(r, CallToken(c)) && r.calls[c].Creating?)
            || (IsToken(r, CallToken(c)) && r.calls[c].Rejecting? && a == JobToken(RejectOf(r.calls[c].offer)))
  {
  }

  /** Outside cascade runs and rejects, tokens stay, go, or are handed on before any offer. */
  lemma TokensStay(env: Env, r: Ride, e: RideEvent, a: Token)
    requires RideInv(env.now, env.directory, r) && ChainInv(r) && !RunsCascade(r, e) && !MarksReject(env, r, e)
    requires IsToken(RideStep(env, r, e).ride, a)
    ensures || (IsToken(r, a) && (a.CallToken? ==> RideStep(env, r, e).ride.calls[a.call] == r.calls[a.call]))
            || (a == JobToken(First) && IsToken(r, RequestToken))
            || (a == RequestToken && e.Conclude? && IsToken(r, CallToken(e.call)) && r.calls[e.call].Creating?)
            || (e.Conclude? && IsToken(r, CallToken(e.call)) && r.calls[e.call].Rejecting?
                && a == JobToken(RejectOf(r.calls[e.call].offer)))
  {
    hide Gateway.Conclude;
    hide Lifecycle.RunLifecycle;
    match e
    case Begin(_, _) =>
    case TryLock(_) =>
    case Conclude(c) => ConcludedTokensStay(env, r, c, a);
    case RunRequest =>
    case Promote(k) => PromoteKeepsTokens(env, r, k);
    case RunMatching(k, geo, newId) =>
      if Ready(r, k, newId) {
        InertRunKeepsTokens(env, r, k, geo, newId);
      }
    case RunLifecycle(k, otp) =>
      LifecycleFrame(env, r, k, otp);
      OffersOnlyClose(env, r, k, otp);
  }

  /** `e` ends a reject call. */
  predicate IsRestart(r: Ride, e: RideEvent) {
    e.Conclude? && e.call in r.calls && r.calls[e.call].Rejecting?
  }

  /** Which job's chain covers the new offers after an event. */
  function NextCover(env: Env, r: Ride, e: RideEvent, k: MatchKey): MatchKey {
    if RunsCascade(r, e) && !DecisionOf(env, r, e).GiveUp? && Queues(env, r, e, Continuation(env, r, e).0)
    then Continuation(env, r, e).0
    else if e.Conclude? && e.call in r.calls && r.calls[e.call].Rejecting? then RejectOf(r.calls[e.call].offer)
    else k
  }

  lemma ConcludedIsGone(env: Env, r: Ride, c: CallId)
    requires c in r.calls && r.calls[c].Rejecting?
    ensures !IsToken(Gateway.Conclude(env, r, c), CallToken(c))
  {
  }

  lemma OtherStepsCover(env: Env, r: Ride, e: RideEvent, earlier: set<OfferId>, root: Option<OfferId>, k: MatchKey,
                        l: Lineage, l': Lineage)
    requires RideInv(env.now, env.directory, r) && ChainInv(r) && !RunsCascade(r, e) && !MarksReject(env, r, e)
    requires Covers(r, earlier, root, k, l)
    requires var k' := NextCover(env, r, e, k);
             if e.Conclude? && e.call in r.calls && r.calls[e.call].Rejecting? then l' == Lineage(k', []) else l' == l
    ensures Covers(RideStep(env, r, e).ride, earlier, root, NextCover(env, r, e, k), l')
  {
    var r', k' := RideStep(env, r, e).ride, NextCover(env, r, e, k);
    OffersOfOtherSteps(env, r, e);
    forall a | IsToken(r', a)
      ensures || (IsToken(r, a) && (a.CallToken? ==> r'.calls[a.call] == r.calls[a.call]))
              || (a == JobToken(First) && IsToken(r, RequestToken))
              || (a == RequestToken && e.Conclude? && IsToken(r, CallToken(e.call)) && r.calls[e.call].Creating?)
              || (e.Conclude? && IsToken(r, CallToken(e.call)) && r.calls[e.call].Rejecting?
                  && a == JobToken(RejectOf(r.calls[e.call].offer)))
    {
      TokensStay(env, r, e, a);
    }
    assert forall o :: IsNew(r', earlier, o) <==> IsNew(r, earlier, o);
    if e.Conclude? && e.call in r.calls && r.calls[e.call].Rejecting? {
      ConcludedIsGone(env, r, e.call);
      assert IsToken(r, CallToken(e.call)) && !IsToken(r', CallToken(e.call));
    }
    hide RideStep;
    hide RideInv;
  }

  /** Its only token, a job, has been handed on to job `k'` of the same chain. */
  lemma MovedCovers(r: Ride, r': Ride, earlier: set<OfferId>, root: Option<OfferId>, k: MatchKey, l: Lineage,
                    j: MatchKey, from: Lineage, k': MatchKey, l': Lineage, added: set<OfferId>)
    requires Covers(r, earlier, root, k, l) && IsToken(r, JobToken(j)) && (j == k ==> from == l)
    requires forall a :: IsToken(r', a) ==> a == JobToken(k')
    requires r'.offers.Keys == r.offers.Keys + added
    requires l'.root == from.root && (forall o :: o in from.offers || o in added ==> o in l'.offers)
    ensures Covers(r', earlier, root, k', l')
  {
    forall o | IsNew(r', earlier, o) ensures o in l'.offers {
      assert o !in added ==> IsNew(r, earlier, o);
    }
  }

  lemma GoneCovers(r: Ride, r': Ride, earlier: set<OfferId>, root: Option<OfferId>, k: MatchKey, l: Lineage)
    requires Covers(r, earlier, root, k, l) && r'.offers.Keys == r.offers.Keys && forall a :: !IsToken(r', a)
    ensures Covers(r', earlier, root, k, l)
  {
    assert forall o :: IsNew(r', earlier, o) <==> IsNew(r, earlier, o);
  }

  lemma OfferIsQueued(env: Env, r: Ride, e: RideEvent)
    requires RideInv(env.now, env.directory, r) && RunsCascade(r, e) && DecisionOf(env, r, e).MakeOffer?
    ensures Queues(env, r, e, TimeoutOf(e.newId)) && Continuation(env, r, e).0 == TimeoutOf(e.newId)
  {
  }

  lemma CascadeMoves(env: Env, r: Ride, e: RideEvent, k: MatchKey)
    requires RideInv(env.now, env.directory, r) && ChainInv(r) && RunsCascade(r, e)
    ensures var r', k' := RideStep(env, r, e).ride, NextCover(env, r, e, k);
            if Queues(env, r, e, k') then
              && (forall a :: IsToken(r', a) ==> a == JobToken(k'))
              && r'.offers.Keys == r.offers.Keys + if DecisionOf(env, r, e).MakeOffer? then {e.newId} else {}
            else k' == k && r'.offers.Keys == r.offers.Keys && forall a :: !IsToken(r', a)
  {
    var r' := RideStep(env, r, e).ride;
    assert IsToken(r, JobToken(e.key));
    match DecisionOf(env, r, e)
    case GiveUp =>
      GiveUpConsumes(env, r, e);
    case Continue(_, _) =>
      ContinueMovesToken(env, r, e);
    case MakeOffer(_, _) =>
      OfferMovesToken(env, r, e);
      CascadeOffers(env, r, e);
      OfferIsQueued(env, r, e);
  }

  lemma CascadeCovers(env: Env, r: Ride, e: RideEvent, earlier: set<OfferId>, root: Option<OfferId>, k: MatchKey,
                      l: Lineage, from: Lineage)
    requires RideInv(env.now, env.directory, r) && ChainInv(r) && RunsCascade(r, e)
    requires Covers(r, earlier, root, k, l) && (e.key == k ==> from == l)
    ensures var k' := NextCover(env, r, e, k);
            Covers(RideStep(env, r, e).ride, earlier, root, k', if Queues(env, r, e, k') then Extended(env, r, e, from) else l)
  {
    var r', k' := RideStep(env, r, e).ride, NextCover(env, r, e, k);
    assert IsToken(r, JobToken(e.key));
    CascadeMoves(env, r, e, k);
    if Queues(env, r, e, k') {
      var added := if DecisionOf(env, r, e).MakeOffer? then {e.newId} else {};
      var l' := Extended(env, r, e, from);
      hide RideStep;
      hide Covers;
      MovedCovers(r, r', earlier, root, k, l, e.key, from, k', l', added);
    } else {
      GoneCovers(r, r', earlier, root, k, l);
    }
  }

  lemma StepCovers(env: Env, r: Ride, e: RideEvent, earlier: set<OfferId>, root: Option<OfferId>, k: MatchKey,
                   l: Lineage, from: Lineage, l': Lineage)
    requires RideInv(env.now, env.directory, r) && ChainInv(r) && !MarksReject(env, r, e)
    requires Covers(r, earlier, root, k, l) && (e.RunMatching? && e.key == k ==> from == l)
    requires var k' := NextCover(env, r, e, k);
             l' == if Queues(env, r, e, k') then Extended(env, r, e, from)
                   else if IsRestart(r, e) then Lineage(k', []) else l
    ensures Covers(RideStep(env, r, e).ride, earlier, root, NextCover(env, r, e, k), l')
  {
    hide RideInv;
    hide ChainInv;
    hide Covers;
    hide RideStep;
    if RunsCascade(r, e) {
      CascadeCovers(env, r, e, earlier, root, k, l, from);
    } else {
      OtherStepsCover(env, r, e, earlier, root, k, l, l');
    }
  }

  lemma NextCoverIs(env: Env, r: Ride, e: RideEvent, k: MatchKey)
    ensures var k' := NextCover(env, r, e, k);
            && (Queues(env, r, e, k') ==> e.RunMatching?)
            && (!Queues(env, r, e, k') && !IsRestart(r, e) ==> k' == k)
            && (IsRestart(r, e) ==> k'.RejectOf? && !Queues(env, r, e, k'))
  {
  }

  /** The chain of the job that covers the new offers after an event of the ride. */
  lemma NextLineage(es: seq<Event>, t: TripId, k: MatchKey)
    requires es != [] && es[|es|-1].On? && es[|es|-1].trip == t && t in Exec(es[..|es|-1]).rides
    ensures var before, w, e := es[..|es|-1], Exec(es[..|es|-1]), es[|es|-1].event;
            var k' := NextCover(w.env, w.rides[t], e, k);
            LineageOf(es, t, k') ==
              if Queues(w.env, w.rides[t], e, k') then Extended(w.env, w.rides[t], e, LineageOf(before, t, e.key))
              else if IsRestart(w.rides[t], e) then Lineage(k', []) else LineageOf(before, t, k)
  {
    var w, e := Exec(es[..|es|-1]), es[|es|-1].event;
    NextCoverIs(w.env, w.rides[t], e, k);
    hide Apply;
    hide Queues;
    if IsRestart(w.rides[t], e) {
      RootsAreAlone(es, t, NextCover(w.env, w.rides[t], e, k));
    }
  }

  lemma RideEventCovers(es: seq<Event>, t: TripId, earlier: set<OfferId>, root: Option<OfferId>, k: MatchKey,
                        w: World, e: RideEvent)
    requires es != [] && es[|es|-1] == On(t, e) && Exec(es[..|es|-1]) == w && t in w.rides
    requires RideInv(w.env.now, w.env.directory, w.rides[t]) && ChainInv(w.rides[t])
    requires !MarksReject(w.env, w.rides[t], e)
    requires Covers(w.rides[t], earlier, root, k, LineageOf(es[..|es|-1], t, k))
    ensures var k' := NextCover(w.env, w.rides[t], e, k);
            Covers(RideStep(w.env, w.rides[t], e).ride, earlier, root, k', LineageOf(es, t, k'))
  {
    hide RideInv;
    hide RideStep;
    hide ChainInv;
    hide Covers;
    hide Queues;
    hide RunsCascade;
    hide Exec;
    hide NextCover;
    NextLineage(es, t, k);
    hide LineageOf;
    var before, k' := es[..|es|-1], NextCover(w.env, w.rides[t], e, k);
    var from := if e.RunMatching? then LineageOf(before, t, e.key) else Lineage(k, []);
    NextCoverIs(w.env, w.rides[t], e, k);
    StepCovers(w.env, w.rides[t], e, earlier, root, k, LineageOf(before, t, k), from, LineageOf(es, t, k'));
  }

  lemma OtherEventsCover(es: seq<Event>, t: TripId, k: MatchKey)
    requires es != [] && t in Exec(es[..|es|-1]).rides && !(es[|es|-1].On? && es[|es|-1].trip == t)
    ensures t in Exec(es).rides && Exec(es).rides[t] == Exec(es[..|es|-1]).rides[t]
    ensures LineageOf(es, t, k) == LineageOf(es[..|es|-1], t, k)
  {
    hide RideStep;
  }

  lemma CoverNext(es: seq<Event>, t: TripId, earlier: set<OfferId>, root: Option<OfferId>, k: MatchKey)
    returns (k': MatchKey)
    requires es != [] && t in Exec(es[..|es|-1]).rides
    requires var w, e := Exec(es[..|es|-1]), es[|es|-1];
             ChainInv(w.rides[t]) && (e.On? && e.trip == t ==> !MarksReject(w.env, w.rides[t], e.event))
    requires Covers(Exec(es[..|es|-1]).rides[t], earlier, root, k, LineageOf(es[..|es|-1], t, k))
    ensures t in Exec(es).rides && Covers(Exec(es).rides[t], earlier, root, k', LineageOf(es, t, k'))
  {
    hide RideInv;
    hide WorldInv;
    hide RideStep;
    hide ChainInv;
    hide Covers;
    hide LineageOf;
    hide MarksReject;
    var before, e := es[..|es|-1], es[|es|-1];
    var w := Exec(before);
    if e.On? && e.trip == t {
      ReachableInv(before);
      InvOf(w, t);
      k' := NextCover(w.env, w.rides[t], e.event, k);
      RideEventCovers(es, t, earlier, root, k, w, e.event);
    } else {
      k' := k;
      OtherEventsCover(es, t, k);
    }
  }

  function OffersAt(w: World, t: TripId): set<OfferId> {
    if t in w.rides then w.rides[t].offers.Keys else {}
  }

  /** A trip that is new now did not exist at event `i`. */
  lemma FreshNext(es: seq<Event>, i: nat, t: TripId)
    requires i < |es| && t !in Exec(es[..|es|-1]).rides
    ensures t !in Exec(es[..i]).rides
  {
    if t in Exec(es[..i]).rides {
      RunIsLater(es, i, |es| - 1, t);
      assert false;
    }
  }

  /** While nobody rejects, one chain makes all the offers. */
  lemma {:induction false} OneChainMakesAllOffers(es: seq<Event>, i: nat, t: TripId,
                                                  root: Option<OfferId>) returns (k: MatchKey)
    requires i <= |es| && OneChainSince(es, i, t)
    requires var w := Exec(es[..i]);
             if t in w.rides then Covers(w.rides[t], w.rides[t].offers.Keys, root, First, LineageOf(es[..i], t, First))
             else root.None?
    ensures t in Exec(es).rides ==> Covers(Exec(es).rides[t], OffersAt(Exec(es[..i]), t), root, k, LineageOf(es, t, k))
    decreases |es|
  {
    if i == |es| {
      assert es[..i] == es;
      k := First;
    } else {
      var before := es[..|es|-1];
      assert before[..i] == es[..i];
      OneChainBefore(es, i, t);
      k := OneChainMakesAllOffers(before, i, t, root);
      if t in Exec(before).rides {
        k := CoverNext(es, t, OffersAt(Exec(es[..i]), t), root, k);
      } else if t in Exec(es).rides {
        FreshNext(es, i, t);
        assert Exec(es).rides[t].offers == map[];
      }
    }
  }

  lemma NothingNew(r: Ride, k: MatchKey, l: Lineage)
    ensures Covers(r, r.offers.Keys, None, k, l)
  {
  }

  lemma NewIsCovered(r: Ride, earlier: set<OfferId>, k: MatchKey, l: Lineage, o: OfferId)
    requires Covers(r, earlier, None, k, l) && o in r.offers && o !in earlier
    ensures o in l.offers
  {
    assert IsNew(r, earlier, o);
  }

  lemma ChainOffersDiffer(es: seq<Event>, t: TripId, k: MatchKey, o: OfferId, o': OfferId)
    requires GeoIsValid(es) && t in Exec(es).rides && o != o'
    requires o in LineageOf(es, t, k).offers && o' in LineageOf(es, t, k).offers
    ensures var offers := Exec(es).rides[t].offers; o in offers && o' in offers && offers[o].driver != offers[o'].driver
  {
    hide Exec;
    hide LineageOf;
    var chain := LineageOf(es, t, k).offers;
    var x :| 0 <= x < |chain| && chain[x] == o;
    var y :| 0 <= y < |chain| && chain[y] == o';
    NeverOfferedTwice(es, t, k, if x < y then x else y, if x < y then y else x);
  }

  /** Counted from any moment on after which nobody rejects, no driver is offered the ride twice. */
  lemma OneChainNeverOffersTwice(es: seq<Event>, i: nat, t: TripId, o: OfferId, o': OfferId)
    requires i <= |es| && OneChainSince(es, i, t) && GeoIsValid(es) && t in Exec(es).rides
    requires o in Exec(es).rides[t].offers && o' in Exec(es).rides[t].offers && o != o'
    requires o !in OffersAt(Exec(es[..i]), t) && o' !in OffersAt(Exec(es[..i]), t)
    ensures Exec(es).rides[t].offers[o].driver != Exec(es).rides[t].offers[o'].driver
  {
    var w, earlier := Exec(es[..i]), OffersAt(Exec(es[..i]), t);
    if t in w.rides {
      NothingNew(w.rides[t], First, LineageOf(es[..i], t, First));
    }
    var k := OneChainMakesAllOffers(es, i, t, None);
    var chain := LineageOf(es, t, k).offers;
    NewIsCovered(Exec(es).rides[t], earlier, k, LineageOf(es, t, k), o);
    NewIsCovered(Exec(es).rides[t], earlier, k, LineageOf(es, t, k), o');
    hide Covers;
    hide OneChainSince;
    hide GeoIsValid;
    ChainOffersDiffer(es, t, k, o, o');
  }

  /** The state just after a reject of a PENDING offer: its restart is the only thing under way. */
  lemma RejectIsCovered(env: Env, r: Ride, c: CallId, u: UserId, ro: OfferId, k: MatchKey, l: Lineage)
    requires RideInv(env.now, env.directory, r) && ChainInv(r)
    requires MarksReject(env, r, Begin(c, RejectRide(u, ro))) && r.offers[ro].status.Pending?
    ensures var r' := Gateway.Begin(env, r, c, RejectRide(u, ro));
            r'.offers.Keys == r.offers.Keys && Covers(r', r.offers.Keys, Some(ro), k, l)
  {
    var r' := Gateway.Begin(env, r, c, RejectRide(u, ro));
    BeginMovesToken(env, r, c, RejectRide(u, ro));
    assert IsToken(r', CallToken(c)) && r'.calls[c] == Rejecting(u, ro);
    assert forall o :: !IsNew(r', r.offers.Keys, o);
  }

  lemma AfterReject(es: seq<Event>, i: nat, t: TripId, c: CallId, u: UserId, ro: OfferId)
    requires i < |es| && es[i] == On(t, Begin(c, RejectRide(u, ro)))
    requires var w := Exec(es[..i]); t in w.rides && MarksReject(w.env, w.rides[t], es[i].event)
    requires RejectsHitPending(es, t)
    ensures var w, w' := Exec(es[..i]), Exec(es[..i + 1]);
            && t in w'.rides && w'.rides[t].offers.Keys == w.rides[t].offers.Keys
            && Covers(w'.rides[t], w'.rides[t].offers.Keys, Some(ro), First, LineageOf(es[..i + 1], t, First))
  {
    hide Covers;
    hide RideInv;
    hide ChainInv;
    hide Gateway.Begin;
    hide LineageOf;
    var w := Exec(es[..i]);
    assert es[..i + 1][..i] == es[..i];
    ReachableInv(es[..i]);
    RejectsGrow(es, i, t);
    RejectsGrow(es, i + 1, t);
    ChainHolds(es[..i], t);
    assert RejectHitsPending(w.env, w.rides[t], es[i].event);
    RejectIsCovered(w.env, w.rides[t], c, u, ro, First, LineageOf(es[..i + 1], t, First));
    assert Exec(es[..i + 1]) == Apply(w, es[i]);
  }

  /** After a reject of a PENDING offer, and until the next reject, nobody but others is offered the ride. */
  lemma RejecterIsNotAskedAgain(es: seq<Event>, i: nat, t: TripId, c: CallId, u: UserId, ro: OfferId, o: OfferId)
    requires i < |es| && es[i] == On(t, Begin(c, RejectRide(u, ro)))
    requires var w := Exec(es[..i]); t in w.rides && MarksReject(w.env, w.rides[t], es[i].event)
    requires OneChainSince(es, i + 1, t) && GeoIsValid(es) && t in Exec(es).rides
    requires o in Exec(es).rides[t].offers && o !in Exec(es[..i]).rides[t].offers
    ensures ro in Exec(es).rides[t].offers
    ensures Exec(es).rides[t].offers[o].driver != Exec(es).rides[t].offers[ro].driver
  {
    var w, w' := Exec(es[..i]), Exec(es[..i + 1]);
    AfterReject(es, i, t, c, u, ro);
    var k := OneChainMakesAllOffers(es, i + 1, t, Some(ro));
    var chain := LineageOf(es, t, k).offers;
    assert IsNew(Exec(es).rides[t], OffersAt(w', t), o);
    var x :| 0 <= x < |chain| && chain[x] == o;
    RejecterIsSpared(es, t, k, x, ro);
  }

  // ---- Every offer is some chain's ---------------------------------------------------------

  lemma TimeoutIsQueuedOnce(env: Env, r: Ride, e: RideEvent, o: OfferId)
    requires o in r.offers
    ensures !Queues(env, r, e, TimeoutOf(o))
  {
  }

  lemma NewOfferIsQueued(env: Env, r: Ride, e: RideEvent, o: OfferId)
    requires RideInv(env.now, env.directory, r) && o in RideStep(env, r, e).ride.offers && o !in r.offers
    ensures Queues(env, r, e, TimeoutOf(o)) && DecisionOf(env, r, e).MakeOffer? && e.newId == o
  {
    hide RideInv;
    if !RunsCascade(r, e) {
      OffersOfOtherSteps(env, r, e);
    } else {
      match DecisionOf(env, r, e)
      case GiveUp => GiveUpConsumes(env, r, e);
      case Continue(_, _) => ContinueMovesToken(env, r, e);
      case MakeOffer(_, _) =>
        OfferIsQueued(env, r, e);
        CascadeOffers(env, r, e);
    }
    hide RideStep;
    hide RunsCascade;
  }

  lemma OfferNext(es: seq<Event>, t: TripId, o: OfferId, w: World, e: RideEvent)
    requires es != [] && es[|es|-1] == On(t, e) && Exec(es[..|es|-1]) == w && t in w.rides
    requires RideInv(w.env.now, w.env.directory, w.rides[t]) && o in RideStep(w.env, w.rides[t], e).ride.offers
    requires o in w.rides[t].offers ==> o in LineageOf(es[..|es|-1], t, TimeoutOf(o)).offers
    ensures o in LineageOf(es, t, TimeoutOf(o)).offers
  {
    hide RideInv;
    hide RideStep;
    hide Queues;
    hide Exec;
    if o in w.rides[t].offers {
      TimeoutIsQueuedOnce(w.env, w.rides[t], e, o);
    } else {
      NewOfferIsQueued(w.env, w.rides[t], e, o);
    }
  }

  /** In any run, with rejects of any kind: each offer was made by the chain that its timeout job goes on with,
      so what is said of chains is said of all offers. */
  lemma {:induction false} EveryOfferHasAChain(es: seq<Event>, t: TripId, o: OfferId)
    requires t in Exec(es).rides && o in Exec(es).rides[t].offers
    ensures o in LineageOf(es, t, TimeoutOf(o)).offers
  {
    hide WorldInv;
    hide RideInv;
    hide RideStep;
    hide LineageOf;
    var before, e := es[..|es|-1], es[|es|-1];
    var w := Exec(before);
    if t in w.rides {
      if o in w.rides[t].offers {
        EveryOfferHasAChain(before, t, o);
      }
      if e.On? && e.trip == t {
        ReachableInv(before);
        InvOf(w, t);
        OfferNext(es, t, o, w, e.event);
      } else {
        OtherEventsCover(es, t, TimeoutOf(o));
      }
    }
  }
}
