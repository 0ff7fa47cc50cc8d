/** Lifecycle jobs of different rides run concurrently. They share the tables, the queues and the busy
    set; they commute unless one marks busy the very user the other one frees. */
module Commute {
  import opened Base
  import opened Rides
  import opened Lifecycle
  import opened Dispatch
  import opened Invariants
  import opened Runs
  import opened Busy
  import opened Storage
  import opened Refinement
  import opened HandlerRefinement
  import opened StoreRuns

  // ---- On the world of rides --------------------------------------------------------------

  predicate Conflict(a: BusyEffect, b: BusyEffect) {
    || (a.MarkBusy? && b.MarkFree? && a.user == b.user)
    || (a.MarkFree? && b.MarkBusy? && a.user == b.user)
  }

  lemma HandlersIgnoreBusy(env: Env, busy: set<UserId>, r: Ride, k: LifeKey, otp: string)
    ensures Lifecycle.RunLifecycle(env.(busy := busy), r, k, otp) == Lifecycle.RunLifecycle(env, r, k, otp)
  {
  }

  lemma EffectsCommuteIff(busy: set<UserId>, a: BusyEffect, b: BusyEffect)
    ensures a.On(b.On(busy)) == b.On(a.On(busy)) <==> !Conflict(a, b)
  {
    if Conflict(a, b) {
      assert a.user in a.On(b.On(busy)) <==> a.user !in b.On(a.On(busy));
    }
  }

  function EffectOf(w: World, t: TripId, k: LifeKey, otp: string): BusyEffect
    requires t in w.rides
  {
    Lifecycle.RunLifecycle(w.env, w.rides[t], k, otp).effect
  }

  lemma AfterOther(w: World, t: TripId, k: LifeKey, otp: string, t': TripId, k': LifeKey, otp': string)
    requires t in w.rides && t' in w.rides && t != t'
    ensures var one := Apply(w, On(t, RideEvent.RunLifecycle(k, otp)));
            var both := Apply(one, On(t', RideEvent.RunLifecycle(k', otp')));
            && both.env == w.env.(busy := EffectOf(w, t', k', otp').On(EffectOf(w, t, k, otp).On(w.env.busy)))
            && both.rides == w.rides[t := Lifecycle.RunLifecycle(w.env, w.rides[t], k, otp).ride]
                                    [t' := Lifecycle.RunLifecycle(w.env, w.rides[t'], k', otp').ride]
  {
    HandlersIgnoreBusy(w.env, EffectOf(w, t, k, otp).On(w.env.busy), w.rides[t'], k', otp');
  }

  /** In the world, where each ride is on its own, only the busy set can tell the order. */
  lemma EventsCommuteIff(w: World, t: TripId, k: LifeKey, otp: string, t': TripId, k': LifeKey, otp': string)
    requires t in w.rides && t' in w.rides && t != t'
    ensures var e, e' := On(t, RideEvent.RunLifecycle(k, otp)), On(t', RideEvent.RunLifecycle(k', otp'));
            Apply(Apply(w, e), e') == Apply(Apply(w, e'), e)
            <==> !Conflict(EffectOf(w, t, k, otp), EffectOf(w, t', k', otp'))
  {
    AfterOther(w, t, k, otp, t', k', otp');
    AfterOther(w, t', k', otp', t, k, otp);
    EffectsCommuteIff(w.env.busy, EffectOf(w, t, k, otp), EffectOf(w, t', k', otp'));
  }

  // ---- On the shared stores ---------------------------------------------------------------

  /** Job `work` is an ACCEPT that would make `u` busy, as its trip's row now stands. */
  predicate WorkMarks(s: Store, work: Work, u: UserId)
    requires work.LifeWork? && Enabled(s, work)
  {
    Marks(s.env.directory, s.trips[work.trip], s.lifecycle.jobs[(work.trip, work.lifeKey)], u)
  }

  /** Job `work` is a CANCEL, a third wrong guess or a COMPLETE that would let `u` go, who drives its trip. */
  predicate WorkFrees(s: Store, work: Work, u: UserId)
    requires work.LifeWork? && Enabled(s, work)
  {
    Frees(s.env.directory, s.env.now, s.trips[work.trip], ReadKey(s.otps, work.trip), ReadKey(s.attempts, work.trip),
          s.lifecycle.jobs[(work.trip, work.lifeKey)], u)
  }

  /** One job would make a user busy whom the other would free. */
  ghost predicate Disagree(s: Store, a: Work, b: Work)
    requires a.LifeWork? && b.LifeWork? && Enabled(s, a) && Enabled(s, b)
  {
    exists u :: (WorkMarks(s, a, u) && WorkFrees(s, b, u)) || (WorkFrees(s, a, u) && WorkMarks(s, b, u))
  }

  /** Each job can still run after the other, and the stores end up the same: every row, key and queue. */
  ghost predicate OrderDoesNotMatter(s: Store, a: Work, b: Work)
    requires Enabled(s, a) && Enabled(s, b)
  {
    && Enabled(Perform(s, a), b) && Enabled(Perform(s, b), a)
    && Perform(Perform(s, a), b) == Perform(Perform(s, b), a)
  }

  lemma WorkReadsItsRide(s: Store, r: Ride, work: Work, u: UserId)
    requires work.LifeWork? && Enabled(s, work) && Mirrors(s, work.trip, r)
    ensures var k, dir := work.lifeKey, s.env.directory;
            && k in r.lifecycle.jobs
            && (WorkMarks(s, work, u) <==> Marks(dir, r.trip, r.lifecycle.jobs[k], u))
            && (WorkFrees(s, work, u) <==> Frees(dir, s.env.now, r.trip, r.otpKey, r.attempts, r.lifecycle.jobs[k], u))
  {
    hide Marks;
    hide Frees;
  }

  lemma EffectIsWorks(s: Store, w: World, work: Work, u: UserId)
    requires Represents(s, w) && WorldInv(w) && work.LifeWork? && Enabled(s, work) && work.trip in w.rides
    ensures var effect := EffectOf(w, work.trip, work.lifeKey, work.otp);
            (effect == MarkBusy(u) <==> WorkMarks(s, work, u)) && (effect == MarkFree(u) <==> WorkFrees(s, work, u))
  {
    SliceMirrors(s, w, work.trip);
    RepresentedTrips(s, w);
    hide Represents;
    hide RideInv;
    hide Mirrors;
    hide Enabled;
    hide WorkMarks;
    hide WorkFrees;
    hide Marks;
    hide Frees;
    hide Lifecycle.RunLifecycle;
    WorkReadsItsRide(s, w.rides[work.trip], work, u);
    EffectIsForeseen(w.env, w.rides[work.trip], work.lifeKey, work.otp, u);
  }

  lemma ConflictIsDisagreement(s: Store, w: World, a: Work, b: Work)
    requires Represents(s, w) && WorldInv(w) && a.LifeWork? && b.LifeWork? && Enabled(s, a) && Enabled(s, b)
    requires a.trip in w.rides && b.trip in w.rides
    ensures Conflict(EffectOf(w, a.trip, a.lifeKey, a.otp), EffectOf(w, b.trip, b.lifeKey, b.otp)) <==> Disagree(s, a, b)
  {
    hide Represents;
    hide WorldInv;
    hide EffectOf;
    hide WorkMarks;
    hide WorkFrees;
    var x, y := EffectOf(w, a.trip, a.lifeKey, a.otp), EffectOf(w, b.trip, b.lifeKey, b.otp);
    forall u
      ensures (x == MarkBusy(u) <==> WorkMarks(s, a, u)) && (x == MarkFree(u) <==> WorkFrees(s, a, u))
      ensures (y == MarkBusy(u) <==> WorkMarks(s, b, u)) && (y == MarkFree(u) <==> WorkFrees(s, b, u))
    {
      EffectIsWorks(s, w, a, u);
      EffectIsWorks(s, w, b, u);
    }
    if Conflict(x, y) {
      assert WorkMarks(s, a, x.user) || WorkFrees(s, a, x.user);
    }
  }

  /** The event a lifecycle job is. */
  function LifeEvent(work: Work): Event
    requires work.LifeWork?
  {
    On(work.trip, RideEvent.RunLifecycle(work.lifeKey, work.otp))
  }

  lemma LifecycleOf(s: Store, t: TripId)
    requires t in s.trips
    ensures Slice(s, t).lifecycle.jobs == JobsOf(s.lifecycle.jobs, t)
  {
    hide JobsOf;
    hide OffersOf;
    hide SeenOf;
  }

  lemma WaitingIsEnabled(s: Store, b: Work)
    requires b.LifeWork? && b.trip in s.trips
    ensures b.lifeKey in Slice(s, b.trip).lifecycle.jobs <==> Enabled(s, b)
  {
    LifecycleOf(s, b.trip);
    hide Slice;
    hide SeenOf;
  }

  lemma EnabledHasTrip(s: Store, work: Work)
    requires work.LifeWork? && Enabled(s, work)
    ensures work.trip in s.trips
  {
  }

  /** A job waits on while a job of another trip runs. */
  lemma StaysEnabled(works: seq<Work>, a: Work, b: Work)
    requires NameOwnOffers(works) && a.LifeWork? && b.LifeWork? && a.trip != b.trip
    requires Enabled(PerformAll(works), a) && Enabled(PerformAll(works), b)
    ensures Enabled(Perform(PerformAll(works), a), b)
  {
    var s := PerformAll(works);
    EnabledHasTrip(s, b);
    hide Perform;
    hide PerformAll;
    hide Enabled;
    hide Slice;
    WaitingIsEnabled(s, b);
    OtherTripsUntouched(works, a, b.trip);
    WaitingIsEnabled(Perform(s, a), b);
  }

  lemma LifeWorkRefines(s: Store, w: World, a: Work, s1: Store)
    requires a.LifeWork? && Enabled(s, a) && s1 == Perform(s, a) && Represents(s, w) && WorldInv(w)
    ensures Represents(s1, Apply(w, LifeEvent(a))) && WorldInv(Apply(w, LifeEvent(a)))
  {
    hide Represents;
    hide WorldInv;
    hide Enabled;
    hide Perform;
    hide Apply;
    WorkRefines(s, w, a);
    ThenShort(w, LifeEvent(a), LifeEvent(a), LifeEvent(a));
    ApplyKeepsInv(w, LifeEvent(a));
  }

  lemma BothRefine(s: Store, w: World, a: Work, b: Work, s1: Store)
    requires a.LifeWork? && b.LifeWork? && Enabled(s, a) && s1 == Perform(s, a) && Enabled(s1, b)
    requires Represents(s, w) && WorldInv(w)
    ensures Represents(Perform(s1, b), Apply(Apply(w, LifeEvent(a)), LifeEvent(b)))
  {
    hide Represents;
    hide WorldInv;
    hide Enabled;
    hide Perform;
    hide Apply;
    hide LifeEvent;
    LifeWorkRefines(s, w, a, s1);
    LifeWorkRefines(s1, Apply(w, LifeEvent(a)), b, Perform(s1, b));
  }

  lemma SameWorldSameStore(s: Store, w: World, s': Store, w': World)
    requires Represents(s, w) && Represents(s', w')
    ensures s == s' <==> w == w'
  {
    if w == w' {
      AbsIsInjective(s, s');
    }
  }

  lemma WorksCommuteIff(s: Store, w: World, a: Work, b: Work, sa: Store, sb: Store)
    requires a.LifeWork? && b.LifeWork? && a.trip != b.trip && Enabled(s, a) && Enabled(s, b)
    requires sa == Perform(s, a) && sb == Perform(s, b) && Enabled(sa, b) && Enabled(sb, a)
    requires Represents(s, w) && WorldInv(w) && a.trip in w.rides && b.trip in w.rides
    ensures Perform(sa, b) == Perform(sb, a) <==> !Disagree(s, a, b)
  {
    hide Represents;
    hide WorldInv;
    hide Enabled;
    hide Perform;
    hide Apply;
    hide EffectOf;
    hide Conflict;
    hide Disagree;
    BothRefine(s, w, a, b, sa);
    BothRefine(s, w, b, a, sb);
    ConflictIsDisagreement(s, w, a, b);
    EventsCommuteIff(w, a.trip, a.lifeKey, a.otp, b.trip, b.lifeKey, b.otp);
    SameWorldSameStore(Perform(sa, b), Apply(Apply(w, LifeEvent(a)), LifeEvent(b)),
                       Perform(sb, a), Apply(Apply(w, LifeEvent(b)), LifeEvent(a)));
  }

  /** Two lifecycle jobs of different trips leave the shared tables, keys and queues the same in either
      order, unless one is an ACCEPT of a REQUESTED trip and the other ends the active trip of the same
      user; and then they do not. */
  lemma JobsCommuteIff(works: seq<Work>, a: Work, b: Work)
    requires NameOwnOffers(works) && a.LifeWork? && b.LifeWork? && a.trip != b.trip
    requires Enabled(PerformAll(works), a) && Enabled(PerformAll(works), b)
    ensures OrderDoesNotMatter(PerformAll(works), a, b) <==> !Disagree(PerformAll(works), a, b)
  {
    var s, w := PerformAll(works), Exec(AllEvents(works));
    EnabledHasTrip(s, a);
    EnabledHasTrip(s, b);
    hide NameOwnOffers;
    hide AllEvents;
    hide Enabled;
    hide Perform;
    hide PerformAll;
    hide Exec;
    hide Represents;
    hide WorldInv;
    hide Disagree;
    StoresFollowWorld(works);
    ReachableInv(AllEvents(works));
    RepresentedTrips(s, w);
    StaysEnabled(works, a, b);
    StaysEnabled(works, b, a);
    WorksCommuteIff(s, w, a, b, Perform(s, a), Perform(s, b));
  }

  /** So as long as everyone who drives is marked busy, jobs of different trips commute unless one accepts a
      trip for a busy driver. */
  lemma JobsCommuteWhileBusyAgrees(works: seq<Work>, a: Work, b: Work)
    requires NameOwnOffers(works) && a.LifeWork? && b.LifeWork? && a.trip != b.trip
    requires Enabled(PerformAll(works), a) && Enabled(PerformAll(works), b)
    requires forall u, t :: DrivesTrip(PerformAll(works), u, t) ==> u in PerformAll(works).env.busy
    requires forall u :: WorkMarks(PerformAll(works), a, u) || WorkMarks(PerformAll(works), b, u) ==>
               u !in PerformAll(works).env.busy
    ensures OrderDoesNotMatter(PerformAll(works), a, b)
  {
    var s := PerformAll(works);
    forall u ensures !(WorkMarks(s, a, u) && WorkFrees(s, b, u)) && !(WorkFrees(s, a, u) && WorkMarks(s, b, u)) {
      assert WorkFrees(s, a, u) ==> DrivesTrip(s, u, a.trip);
      assert WorkFrees(s, b, u) ==> DrivesTrip(s, u, b.trip);
    }
    hide Enabled;
    JobsCommuteIff(works, a, b);
  }
}
