/** The cascade is bounded, in offers and in runs, by potentials that no event raises except a reject: what
    can still start cascade runs counts the offers, or the runs, it could at most lead to. */
module BoundedCascade {
  import opened Base
  import opened Constants
  import opened Rides
  import opened Gateway
  import opened Cascade
  import opened Lifecycle
  import opened Dispatch
  import opened Frames
  import opened Runs
  import opened Chain
  import opened NoLostRide
  import opened Sums

  /** What is counted: the offers made, or the cascade runs. */
  datatype Measure = Offers | Runs

  /** How many of them a chain may cost. */
  function ChainCost(m: Measure): nat {
    if m.Offers? then MAX_CASCADE_ATTEMPTS else MAX_CASCADE_ATTEMPTS + 1
  }

  /** How many a chain can still cost from this attempt number on. */
  function Allowance(m: Measure, attempt: nat): real {
    if attempt <= MAX_CASCADE_ATTEMPTS then (ChainCost(m) + 1 - attempt) as real
    else if m.Offers? then 0.0 else 1.0
  }

  function JobPotential(m: Measure, job: MatchJob): real {
    Allowance(m, job.Attempt())
  }

  function CallPotential(m: Measure, call: Call): real {
    if call.Creating? || call.Rejecting? then ChainCost(m) as real else 0.0
  }

  ghost function JobsPotential(m: Measure, jobs: map<MatchKey, MatchJob>): real {
    Sum(map k | k in jobs :: JobPotential(m, jobs[k]))
  }

  ghost function CallsPotential(m: Measure, calls: map<CallId, Call>): real {
    Sum(map c: CallId | c in calls :: CallPotential(m, calls[c]))
  }

  ghost function Potential(m: Measure, r: Ride): real {
    JobsPotential(m, r.matching.jobs) + CallsPotential(m, r.calls)
    + if RideRequest in r.requests.jobs then ChainCost(m) as real else 0.0
  }

  lemma JobsWithout(m: Measure, jobs: map<MatchKey, MatchJob>, k: MatchKey)
    requires k in jobs
    ensures JobsPotential(m, jobs - {k}) == JobsPotential(m, jobs) - JobPotential(m, jobs[k])
  {
    var weights := map key | key in jobs :: JobPotential(m, jobs[key]);
    SumWithout(weights, k);
    assert weights - {k} == map key | key in jobs - {k} :: JobPotential(m, (jobs - {k})[key]);
  }

  lemma JobsWith(m: Measure, jobs: map<MatchKey, MatchJob>, k: MatchKey, job: MatchJob)
    ensures JobsPotential(m, jobs[k := job]) == JobsPotential(m, jobs - {k}) + JobPotential(m, job)
  {
    JobsWithout(m, jobs[k := job], k);
    assert jobs[k := job] - {k} == jobs - {k};
  }

  lemma JobsSubset(m: Measure, jobs: map<MatchKey, MatchJob>, ks: set<MatchKey>)
    ensures 0.0 <= JobsPotential(m, jobs - ks) <= JobsPotential(m, jobs)
  {
    var rest := map k | k in jobs - ks :: JobPotential(m, (jobs - ks)[k]);
    SumOfSubmap(rest, map k | k in jobs :: JobPotential(m, jobs[k]));
    SumOfSubmap(rest, rest);
  }

  lemma AddJob(m: Measure, q: Queue<MatchKey, MatchJob>, k: MatchKey, job: MatchJob)
    requires q.WellFormed()
    ensures JobsPotential(m, q.Add(k, job).jobs) <= JobsPotential(m, q.jobs) + JobPotential(m, job)
  {
    if k !in q.seen {
      JobsWith(m, q.jobs, k, job);
      assert q.jobs - {k} == q.jobs;
    }
  }

  lemma CallsWithout(m: Measure, calls: map<CallId, Call>, c: CallId)
    requires c in calls
    ensures CallsPotential(m, calls - {c}) == CallsPotential(m, calls) - CallPotential(m, calls[c])
  {
    var weights := map c': CallId | c' in calls :: CallPotential(m, calls[c']);
    SumWithout(weights, c);
    assert weights - {c} == map c': CallId | c' in calls - {c} :: CallPotential(m, (calls - {c})[c']);
  }

  lemma CallsWith(m: Measure, calls: map<CallId, Call>, c: CallId, call: Call)
    ensures CallsPotential(m, calls[c := call]) == CallsPotential(m, calls - {c}) + CallPotential(m, call)
  {
    CallsWithout(m, calls[c := call], c);
    assert calls[c := call] - {c} == calls - {c};
  }

  // ---- No event but a reject raises the potential, and every cascade run pays from it ---------

  /** Of the calls a client can begin only a reject restarts a chain. */
  lemma AdmittedCall(env: Env, r: Ride, req: Request)
    ensures var call := Admit(env, r, req);
            call.Some? ==> !call.value.Creating? && (call.value.Rejecting? <==> req.RejectRide?)
  {
  }

  lemma BeginRaises(m: Measure, env: Env, r: Ride, c: CallId, req: Request)
    ensures Potential(m, Gateway.Begin(env, r, c, req))
            <= Potential(m, r) + if MarksReject(env, r, Begin(c, req)) then ChainCost(m) as real else 0.0
  {
    hide JobsPotential;
    hide CallsPotential;
    var call := Admit(env, r, req);
    if c !in r.calls && call.Some? {
      CallsWith(m, r.calls, c, call.value);
      assert r.calls - {c} == r.calls;
      AdmittedCall(env, r, req);
      hide Admit;
    }
  }

  lemma TryLockRaises(m: Measure, env: Env, r: Ride, c: CallId)
    ensures Potential(m, Gateway.TryLock(env, r, c)) <= Potential(m, r)
  {
    if c in r.calls && r.calls[c].AcceptChecked? {
      CallsWithout(m, r.calls, c);
      CallsWith(m, r.calls, c, AcceptLocked(r.calls[c].driver, r.calls[c].offer));
    }
  }

  lemma ConcludeRejectRaises(m: Measure, env: Env, r: Ride, c: CallId)
    requires r.matching.WellFormed() && c in r.calls && r.calls[c].Rejecting?
    ensures Potential(m, Gateway.Conclude(env, r, c)) <= Potential(m, r)
  {
    hide JobsPotential;
    hide CallsPotential;
    CallsWithout(m, r.calls, c);
    AddJob(m, r.matching, RejectOf(r.calls[c].offer), MatchJob(CascadeReject, Some(1), Some([r.calls[c].user]), None));
  }

  /** Only the creation of a ride and a reject queue anything that leads to a cascade run. */
  lemma ConcludeOtherLeaves(env: Env, r: Ride, c: CallId)
    requires c in r.calls && !r.calls[c].AcceptChecked? && !r.calls[c].Creating? && !r.calls[c].Rejecting?
    ensures var r' := Gateway.Conclude(env, r, c);
            r'.calls == r.calls - {c} && r'.matching == r.matching && r'.requests == r.requests
  {
  }

  lemma ConcludeCreatingRaises(m: Measure, env: Env, r: Ride, c: CallId)
    requires c in r.calls && r.calls[c].Creating?
    ensures Potential(m, Gateway.Conclude(env, r, c)) <= Potential(m, r)
  {
    hide JobsPotential;
    hide CallsPotential;
    CallsWithout(m, r.calls, c);
  }

  lemma ConcludeRaises(m: Measure, env: Env, r: Ride, c: CallId)
    requires r.matching.WellFormed()
    ensures Potential(m, Gateway.Conclude(env, r, c)) <= Potential(m, r)
  {
    hide JobsPotential;
    hide CallsPotential;
    if c !in r.calls || r.calls[c].AcceptChecked? {
      assert Gateway.Conclude(env, r, c) == r;
    } else if r.calls[c].Creating? {
      ConcludeCreatingRaises(m, env, r, c);
    } else if r.calls[c].Rejecting? {
      ConcludeRejectRaises(m, env, r, c);
    } else {
      hide Gateway.Conclude;
      ConcludeOtherLeaves(env, r, c);
      CallsWithout(m, r.calls, c);
    }
  }

  lemma RunRequestRaises(m: Measure, r: Ride)
    requires r.matching.WellFormed()
    ensures Potential(m, Cascade.RunRequest(r)) <= Potential(m, r)
  {
    hide JobsPotential;
    hide CallsPotential;
    AddJob(m, r.matching, First, FIRST_JOB);
  }

  lemma PromoteRaises(m: Measure, env: Env, r: Ride, k: MatchKey)
    ensures Potential(m, Cascade.Promote(env, r, k)) <= Potential(m, r)
  {
    hide JobsPotential;
    hide CallsPotential;
    if k in r.matching.jobs {
      JobsWithout(m, r.matching.jobs, k);
      JobsWith(m, r.matching.jobs, k, r.matching.jobs[k].(delayedUntil := None));
    }
  }

  lemma BeforeCascadePotential(m: Measure, r: Ride, k: MatchKey)
    requires k in r.matching.jobs && !Inert(r, r.matching.jobs[k])
    ensures Potential(m, BeforeCascade(r, k)) == Potential(m, r) - JobPotential(m, r.matching.jobs[k])
  {
    JobsWithout(m, r.matching.jobs, k);
  }

  lemma AllowanceDescends(m: Measure, attempt: nat)
    ensures 0.0 <= Allowance(m, attempt + 1) <= Allowance(m, attempt)
    ensures attempt <= MAX_CASCADE_ATTEMPTS ==> Allowance(m, attempt + 1) + 1.0 == Allowance(m, attempt)
    ensures m.Runs? ==> Allowance(m, attempt) >= 1.0
  {
  }

  /** What a cascade run with this outcome costs. */
  function RunCost(m: Measure, d: Decision): real {
    if m.Runs? || d.MakeOffer? then 1.0 else 0.0
  }

  /** A run at attempt a is paid from what attempt a is allowed, and what it queues is allowed the rest. */
  lemma RunCascadeRaises(m: Measure, env: Env, r: Ride, attempt: nat, skipped: seq<UserId>, geo: Geo, newId: OfferId)
    requires r.matching.WellFormed()
    ensures Potential(m, RunCascade(env, r, attempt, skipped, geo, newId)) + RunCost(m, Decide(env, attempt, skipped, geo))
            <= Potential(m, r) + Allowance(m, attempt)
  {
    hide JobsPotential;
    hide CallsPotential;
    hide Allowance;
    AllowanceDescends(m, attempt);
    match Decide(env, attempt, skipped, geo)
    case GiveUp =>
    case Continue(name, skip) =>
      AddJob(m, r.matching, Next(attempt + 1), MatchJob(name, Some(attempt + 1), Some(skip), None));
    case MakeOffer(user, driver) =>
      var due := env.now + OFFER_TIMEOUT_MS;
      AddJob(m, r.matching, TimeoutOf(newId),
             MatchJob(OfferTimeout(newId), Some(attempt + 1), Some(skipped + [user]), Some(due)));
  }

  /** What an event costs. */
  function EventCost(m: Measure, env: Env, r: Ride, e: RideEvent): real {
    if RunsCascade(r, e) then RunCost(m, DecisionOf(env, r, e)) else 0.0
  }

  lemma CascadeRaises(m: Measure, env: Env, r: Ride, e: RideEvent)
    requires r.matching.WellFormed() && RunsCascade(r, e)
    ensures Potential(m, RideStep(env, r, e).ride) + EventCost(m, env, r, e) <= Potential(m, r)
  {
    hide Potential;
    hide RunCascade;
    var job := r.matching.jobs[e.key];
    BeforeCascadePotential(m, r, e.key);
    RunCascadeRaises(m, env, BeforeCascade(r, e.key), job.Attempt(), job.Skipped(), e.geo, e.newId);
  }

  lemma InertRunRaises(m: Measure, env: Env, r: Ride, e: RideEvent)
    requires e.RunMatching? && !RunsCascade(r, e)
    ensures Potential(m, RideStep(env, r, e).ride) <= Potential(m, r)
  {
    hide JobsPotential;
    hide CallsPotential;
    if e.key in r.matching.jobs {
      JobsSubset(m, r.matching.jobs, {e.key});
    }
  }

  lemma LifecycleLeavesJobs(env: Env, r: Ride, k: LifeKey, otp: string)
    ensures var jobs := Lifecycle.RunLifecycle(env, r, k, otp).ride.matching.jobs;
            jobs == r.matching.jobs || jobs == r.matching.jobs - DelayedTimeouts(r.matching)
  {
  }

  lemma LifecycleRaises(m: Measure, env: Env, r: Ride, k: LifeKey, otp: string)
    ensures Potential(m, Lifecycle.RunLifecycle(env, r, k, otp).ride) <= Potential(m, r)
  {
    hide JobsPotential;
    hide CallsPotential;
    LifecycleFrame(env, r, k, otp);
    LifecycleLeavesJobs(env, r, k, otp);
    hide Lifecycle.RunLifecycle;
    JobsSubset(m, r.matching.jobs, DelayedTimeouts(r.matching));
  }

  lemma NoRunNoCost(m: Measure, env: Env, r: Ride, e: RideEvent)
    requires !RunsCascade(r, e)
    ensures EventCost(m, env, r, e) == 0.0
  {
  }

  lemma RideStepRaises(m: Measure, env: Env, r: Ride, e: RideEvent)
    requires r.matching.WellFormed()
    ensures Potential(m, RideStep(env, r, e).ride) + EventCost(m, env, r, e)
            <= Potential(m, r) + if MarksReject(env, r, e) then ChainCost(m) as real else 0.0
  {
    hide Potential;
    hide EventCost;
    if RunsCascade(r, e) {
      CascadeRaises(m, env, r, e);
    } else {
      assert EventCost(m, env, r, e) == 0.0 by {
        NoRunNoCost(m, env, r, e);
      }
      match e
      case Begin(c, req) => BeginRaises(m, env, r, c, req);
      case TryLock(c) => TryLockRaises(m, env, r, c);
      case Conclude(c) => ConcludeRaises(m, env, r, c);
      case RunRequest => RunRequestRaises(m, r);
      case Promote(k) => PromoteRaises(m, env, r, k);
      case RunMatching(_, _, _) => InertRunRaises(m, env, r, e);
      case RunLifecycle(k, otp) => LifecycleRaises(m, env, r, k, otp);
    }
  }

  // ---- Over runs --------------------------------------------------------------------------

  /** The offers of ride `t`, or its cascade runs, in a run. */
  function Spent(m: Measure, es: seq<Event>, t: TripId): nat {
    match m
    case Offers => if t in Exec(es).rides then |Exec(es).rides[t].offers| else 0
    case Runs => CascadeRuns(es, t)
  }

  lemma OffersGrow(env: Env, r: Ride, e: RideEvent)
    ensures |RideStep(env, r, e).ride.offers| as real == |r.offers| as real + EventCost(Offers, env, r, e)
  {
    var offers := RideStep(env, r, e).ride.offers;
    assert |offers| == |offers.Keys| && |r.offers| == |r.offers.Keys|;
    if RunsCascade(r, e) {
      CascadeOffers(env, r, e);
      assert e.newId !in r.offers;
    } else {
      OffersOfOtherSteps(env, r, e);
    }
    hide RideStep;
  }

  /** An event adds its cost to what the run has spent. */
  lemma SpentGrows(m: Measure, es: seq<Event>, t: TripId)
    requires es != [] && t in Exec(es[..|es|-1]).rides
    ensures var w, e := Exec(es[..|es|-1]), es[|es|-1];
            Spent(m, es, t) as real == Spent(m, es[..|es|-1], t) as real +
              if e.On? && e.trip == t then EventCost(m, w.env, w.rides[t], e.event) else 0.0
  {
    hide RideStep;
    hide RunsCascade;
    hide Apply;
    hide CascadeRuns;
    var w, e := Exec(es[..|es|-1]), es[|es|-1];
    RideAfter(w, e, t);
    CountNext(es, t);
    if e.On? && e.trip == t {
      OffersGrow(w.env, w.rides[t], e.event);
    }
  }

  lemma FreshPotential(m: Measure, rider: RiderId, meters: Fare.Meters, c: CallId)
    ensures Potential(m, FreshRide(rider, meters, map[c := Creating])) == ChainCost(m) as real
  {
    CallsWith(m, map[], c, Creating);
    assert map[][c := Creating] == map[c := Creating];
  }

  lemma OneChainMore(m: Measure, rejects: nat)
    ensures (ChainCost(m) * (1 + rejects + 1)) as real == (ChainCost(m) * (1 + rejects)) as real + ChainCost(m) as real
  {
  }

  /** What is spent and what is left stay within the costs of the chains started. */
  ghost predicate Within(m: Measure, r: Ride, spent: nat, rejects: nat) {
    Potential(m, r) + spent as real <= (ChainCost(m) * (1 + rejects)) as real
  }

  lemma StepStaysWithin(m: Measure, env: Env, r: Ride, e: RideEvent, spent: nat, rejects: nat, spent': nat)
    requires r.matching.WellFormed() && Within(m, r, spent, rejects)
    requires spent' as real == spent as real + EventCost(m, env, r, e)
    ensures Within(m, RideStep(env, r, e).ride, spent', rejects + if MarksReject(env, r, e) then 1 else 0)
  {
    hide Potential;
    hide RideStep;
    hide MarksReject;
    hide EventCost;
    RideStepRaises(m, env, r, e);
    OneChainMore(m, rejects);
  }

  lemma FreshIsWithin(m: Measure, rider: RiderId, meters: Fare.Meters, c: CallId)
    ensures Within(m, FreshRide(rider, meters, map[c := Creating]), 0, 0)
  {
    hide Potential;
    FreshPotential(m, rider, meters, c);
  }

  lemma QueueIsWellFormed(es: seq<Event>, t: TripId)
    requires t in Exec(es).rides
    ensures Exec(es).rides[t].matching.WellFormed()
  {
    ReachableInv(es);
    InvOf(Exec(es), t);
  }

  lemma {:induction false} PotentialBound(m: Measure, es: seq<Event>, t: TripId)
    ensures t in Exec(es).rides ==> Within(m, Exec(es).rides[t], Spent(m, es, t), Rejects(es, t))
    ensures t !in Exec(es).rides ==> Spent(m, es, t) == 0 && Rejects(es, t) == 0
  {
    hide Within;
    hide RideStep;
    hide RunsCascade;
    hide MarksReject;
    hide EventCost;
    if es != [] {
      var before, e := es[..|es|-1], es[|es|-1];
      var w := Exec(before);
      PotentialBound(m, before, t);
      CountNext(es, t);
      if t in w.rides {
        hide Spent;
        hide Rejects;
        RideAfter(w, e, t);
        SpentGrows(m, es, t);
        if e.On? && e.trip == t {
          QueueIsWellFormed(before, t);
          StepStaysWithin(m, w.env, w.rides[t], e.event, Spent(m, before, t), Rejects(before, t), Spent(m, es, t));
        }
      } else if t in Exec(es).rides {
        FreshIsWithin(m, w.env.riders[e.user], e.meters, e.call);
      }
    }
  }

  lemma PotentialIsPositive(m: Measure, r: Ride)
    ensures Potential(m, r) >= 0.0
  {
    JobsSubset(m, r.matching.jobs, {});
    SumOfSubmap(map[], map c: CallId | c in r.calls :: CallPotential(m, r.calls[c]));
  }

  /** In any run, with rejects of any kind, a ride is offered at most ten times, and ten times more per
      reject. */
  lemma BoundedOffers(es: seq<Event>, t: TripId)
    requires t in Exec(es).rides
    ensures |Exec(es).rides[t].offers| <= 10 * (1 + Rejects(es, t))
  {
    hide Potential;
    PotentialBound(Offers, es, t);
    PotentialIsPositive(Offers, Exec(es).rides[t]);
  }

  /** And its cascade runs at most eleven times, and eleven times more per reject. */
  lemma BoundedRuns(es: seq<Event>, t: TripId)
    ensures CascadeRuns(es, t) <= 11 * (1 + Rejects(es, t))
  {
    hide Potential;
    PotentialBound(Runs, es, t);
    if t in Exec(es).rides {
      PotentialIsPositive(Runs, Exec(es).rides[t]);
    }
  }
}
