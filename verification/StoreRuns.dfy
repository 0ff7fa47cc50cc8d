/** Whole runs of the shared stores. Any sequence of calls, jobs and clock ticks on the stores is a run
    of the world of rides, so what is proved about every run holds of the rows, keys and queues
    themselves. */
module StoreRuns {
  import opened Base
  import opened Fare
  import opened StateMachine
  import opened Rides
  import opened Gateway
  import opened Cascade
  import opened Lifecycle
  import opened Dispatch
  import opened Invariants
  import opened Runs
  import opened Chain
  import opened NoLostRide
  import opened Busy
  import opened Storage
  import opened StoreOps
  import opened Refinement
  import opened HandlerRefinement
  import opened StoresRefineWorld

  /** One unit of work of the three processes, or a change of the clock or the user tables. */
  datatype Work =
    | Wait(ms: nat)
    | AddDriver(user: UserId, driver: DriverId)
    | AddRider(user: UserId, rider: RiderId)
    | NewTripCall(user: UserId, trip: TripId, meters: Meters)
    | Call(trip: TripId, call: CallId, req: Request)       // uninterrupted
    | TripOpens(user: UserId, trip: TripId, call: CallId, meters: Meters)
    | CallBegins(trip: TripId, call: CallId, req: Request)
    | CallLocks(trip: TripId, call: CallId)
    | CallEnds(trip: TripId, call: CallId)
    | RequestWork(trip: TripId)
    | MatchWork(trip: TripId, matchKey: MatchKey, geo: Geo, newId: OfferId)
    | LifeWork(trip: TripId, lifeKey: LifeKey, otp: string)
    | Due(trip: TripId, dueKey: MatchKey)

  /** A job is there and waiting, and a new id is new. */
  predicate Enabled(s: Store, work: Work) {
    match work
    case Wait(_) => true
    case AddDriver(u, d) => u !in s.env.directory.byUser && d !in s.env.directory.byId
    case AddRider(u, _) => u !in s.env.riders
    case NewTripCall(u, t, _) => u in s.env.riders && t !in s.trips
    case Call(t, c, _) => t in s.trips && (t, c) !in s.calls
    case TripOpens(u, t, _, _) => u in s.env.riders && t !in s.trips
    case CallBegins(t, _, _) => t in s.trips
    case CallLocks(t, _) => t in s.trips
    case CallEnds(t, _) => t in s.trips
    case RequestWork(t) => t in s.trips && (t, RideRequest) in s.requests.jobs
    case MatchWork(t, k, _, newId) =>
      t in s.trips && (t, k) in s.matching.jobs && s.matching.jobs[(t, k)].delayedUntil.None? && newId !in s.offers
    case LifeWork(t, k, _) => t in s.trips && (t, k) in s.lifecycle.jobs
    case Due(t, k) =>
      t in s.trips && (t, k) in s.matching.jobs
      && s.matching.jobs[(t, k)].delayedUntil.Some? && s.matching.jobs[(t, k)].delayedUntil.value <= s.env.now
  }

  /** The offer a client names is one of the trip he names: what neither `acceptRide` nor `rejectRide` checks. */
  predicate NamesOwnOffer(s: Store, work: Work) {
    match work
    case Call(t, _, req) => OfferOfTrip(s, t, req)
    case CallBegins(t, _, req) => OfferOfTrip(s, t, req)
    case _ => true
  }

  /** The delayed job `id` joins the waiting list. */
  function PromoteIn(q: Queue<JobId<MatchKey>, MatchJob>, id: JobId<MatchKey>): Queue<JobId<MatchKey>, MatchJob>
    requires id in q.jobs
  {
    q.(jobs := q.jobs[id := q.jobs[id].(delayedUntil := None)])
  }

  function Perform(s: Store, work: Work): Store
    requires Enabled(s, work)
  {
    match work
    case Wait(ms) => s.(env := s.env.(now := s.env.now + ms))
    case AddDriver(u, d) =>
      s.(env := s.env.(directory := Directory(s.env.directory.byUser[u := d], s.env.directory.byId[d := u])))
    case AddRider(u, rider) => s.(env := s.env.(riders := s.env.riders[u := rider]))
    case NewTripCall(u, t, meters) => DoAll(s, t, [SaveTrip(NewTrip(s.env.riders[u], meters)), AddRequest])
    case Call(t, _, req) => DoAll(s, t, CallOps(s, t, req))
    case TripOpens(u, t, c, meters) => DoAll(s, t, [SaveTrip(NewTrip(s.env.riders[u], meters)), SetCall(c, Creating)])
    case CallBegins(t, c, req) => DoAll(s, t, BeginOps(s, t, c, req))
    case CallLocks(t, c) => DoAll(s, t, TryLockOps(s, t, c))
    case CallEnds(t, c) => DoAll(s, t, ConcludeOps(s, t, c))
    case RequestWork(t) => DoAll(s, t, REQUEST_OPS)
    case MatchWork(t, k, geo, newId) => DoAll(s, t, MatchingOps(s, t, k, geo, newId))
    case LifeWork(t, k, otp) => DoAll(s, t, LifecycleOps(s, t, k, otp))
    case Due(t, k) => s.(matching := PromoteIn(s.matching, (t, k)))
  }

  /** The stores after `works`; what is not enabled changes nothing. */
  function PerformAll(works: seq<Work>): Store {
    if works == [] then EMPTY_STORE
    else
      var s := PerformAll(works[..|works|-1]);
      if Enabled(s, works[|works|-1]) then Perform(s, works[|works|-1]) else s
  }

  /** No call of the run names an offer of another trip. */
  ghost predicate NameOwnOffers(works: seq<Work>) {
    works != [] ==>
      && NameOwnOffers(works[..|works|-1])
      && NamesOwnOffer(PerformAll(works[..|works|-1]), works[|works|-1])
  }

  // ---- Each work is a short run of the world ----------------------------------------------

  function EventsOf(work: Work): seq<Event> {
    match work
    case Wait(ms) => [Tick(ms)]
    case AddDriver(u, d) => [RegisterDriver(u, d)]
    case AddRider(u, rider) => [RegisterRider(u, rider)]
    case NewTripCall(u, t, meters) => [CreateRide(u, t, 0, meters), On(t, RideEvent.Conclude(0))]
    case Call(t, c, req) => [On(t, RideEvent.Begin(c, req)), On(t, RideEvent.TryLock(c)), On(t, RideEvent.Conclude(c))]
    case TripOpens(u, t, c, meters) => [CreateRide(u, t, c, meters)]
    case CallBegins(t, c, req) => [On(t, RideEvent.Begin(c, req))]
    case CallLocks(t, c) => [On(t, RideEvent.TryLock(c))]
    case CallEnds(t, c) => [On(t, RideEvent.Conclude(c))]
    case RequestWork(t) => [On(t, RideEvent.RunRequest)]
    case MatchWork(t, k, geo, newId) => [On(t, RideEvent.RunMatching(k, geo, newId))]
    case LifeWork(t, k, otp) => [On(t, RideEvent.RunLifecycle(k, otp))]
    case Due(t, k) => [On(t, RideEvent.Promote(k))]
  }

  function AllEvents(works: seq<Work>): seq<Event> {
    if works == [] then []
    else
      var before := works[..|works|-1];
      AllEvents(before) + if Enabled(PerformAll(before), works[|works|-1]) then EventsOf(works[|works|-1]) else []
  }

  /** The world `w` after more events. */
  function Then(w: World, es: seq<Event>): World {
    if es == [] then w else Apply(Then(w, es[..|es|-1]), es[|es|-1])
  }

  lemma {:induction false} ExecThen(es: seq<Event>, more: seq<Event>)
    ensures Exec(es + more) == Then(Exec(es), more)
    decreases |more|
  {
    if more == [] {
      assert es + more == es;
    } else {
      ExecThen(es, more[..|more|-1]);
      assert (es + more)[..|es + more|-1] == es + more[..|more|-1];
    }
  }

  lemma ThenShort(w: World, x: Event, y: Event, z: Event)
    ensures Then(w, [x]) == Apply(w, x)
    ensures Then(w, [x, y]) == Apply(Apply(w, x), y)
    ensures Then(w, [x, y, z]) == Apply(Apply(Apply(w, x), y), z)
  {
    assert [x][..0] == [] && [x, y][..1] == [x] && [x, y, z][..2] == [x, y];
  }

  lemma RideNamesOwnOffers(s: Store, env: Env, r: Ride, t: TripId)
    requires Mirrors(s, t, r) && RideInv(env.now, env.directory, r)
    ensures JobsNameOwnOffers(s, t)
  {
    forall k | (t, k) in s.lifecycle.jobs && s.lifecycle.jobs[(t, k)].Accept?
      ensures s.lifecycle.jobs[(t, k)].offer in r.offers {
      assert LifeJobInv(env.directory, r, k, r.lifecycle.jobs[k]);
    }
    forall k | (t, k) in s.matching.jobs && s.matching.jobs[(t, k)].name.OfferTimeout?
      ensures s.matching.jobs[(t, k)].name.offer in r.offers {
      assert MatchJobInv(r, k, r.matching.jobs[k]);
    }
  }

  /** In a world that keeps the invariants, jobs name offers of their own trip. */
  lemma InvNamesOwnOffers(s: Store, w: World, t: TripId)
    requires Represents(s, w) && WorldInv(w) && t in w.rides
    ensures JobsNameOwnOffers(s, t)
  {
    SliceMirrors(s, w, t);
    RideNamesOwnOffers(s, w.env, w.rides[t], t);
  }

  function Promoted(r: Ride, k: MatchKey): Ride
    requires k in r.matching.jobs
  {
    r.(matching := r.matching.(jobs := r.matching.jobs[k := r.matching.jobs[k].(delayedUntil := None)]))
  }

  lemma PromotedQueue(q: Queue<JobId<MatchKey>, MatchJob>, t: TripId, k: MatchKey)
    requires (t, k) in q.jobs
    ensures forall t' :: t' != t ==> QueueOf(PromoteIn(q, (t, k)), t') == QueueOf(q, t')
    ensures var own := QueueOf(q, t);
            QueueOf(PromoteIn(q, (t, k)), t) == own.(jobs := own.jobs[k := own.jobs[k].(delayedUntil := None)])
  {
    var q' := PromoteIn(q, (t, k));
    forall t' | t' != t ensures QueueOf(q', t') == QueueOf(q, t') {
      assert JobsOf(q'.jobs, t') == JobsOf(q.jobs, t');
    }
    var own := JobsOf(q.jobs, t);
    assert JobsOf(q'.jobs, t) == own[k := own[k].(delayedUntil := None)];
  }

  lemma PromotedStore(s: Store, t: TripId, k: MatchKey)
    requires Consistent(s) && t in s.trips && (t, k) in s.matching.jobs
    ensures Represents(s.(matching := PromoteIn(s.matching, (t, k))), Put(Abs(s), t, Promoted(Slice(s, t), k)))
  {
    PromotedQueue(s.matching, t, k);
    MatchingSaved(s, t, PromoteIn(s.matching, (t, k)));
  }

  lemma CommitKeepIsPut(w: World, t: TripId, r: Ride)
    ensures Commit(w, t, Step(r, Keep, Done)) == Put(w, t, r)
  {
  }

  lemma PromoteIsPut(w: World, t: TripId, k: MatchKey)
    requires t in w.rides && k in w.rides[t].matching.jobs
    requires var due := w.rides[t].matching.jobs[k].delayedUntil; due.Some? && due.value <= w.env.now
    ensures Apply(w, On(t, RideEvent.Promote(k))) == Put(w, t, Promoted(w.rides[t], k))
  {
    hide Put;
    ApplyOn(w, t, RideEvent.Promote(k));
    CommitKeepIsPut(w, t, Promoted(w.rides[t], k));
  }

  lemma PromoteRefines(s: Store, w: World, t: TripId, k: MatchKey)
    requires Enabled(s, Due(t, k)) && Represents(s, w) && t in w.rides
    ensures Represents(Perform(s, Due(t, k)), Apply(w, On(t, RideEvent.Promote(k))))
  {
    hide Slice;
    hide RidesOf;
    hide Put;
    hide PromoteIn;
    hide Apply;
    RepresentedRide(s, w, t);
    SliceMirrors(s, w, t);
    PromotedStore(s, t, k);
    PromoteIsPut(w, t, k);
  }

  lemma TableRefines(s: Store, w: World, work: Work)
    requires Represents(s, w) && Enabled(s, work) && (work.Wait? || work.AddDriver? || work.AddRider?)
    ensures Represents(Perform(s, work), Then(w, EventsOf(work)))
  {
    hide Consistent;
    hide RidesOf;
    ThenShort(w, EventsOf(work)[0], Tick(0), Tick(0));
    RidesIgnoreEnv(s, Perform(s, work).env);
    EnvKeepsConsistent(s, Perform(s, work).env);
  }

  lemma NewTripRefines(s: Store, w: World, u: UserId, t: TripId, meters: Meters)
    requires Represents(s, w) && Enabled(s, NewTripCall(u, t, meters))
    ensures Represents(Perform(s, NewTripCall(u, t, meters)), Then(w, EventsOf(NewTripCall(u, t, meters))))
  {
    CreateRefines(s, w, u, t, meters);
    ThenShort(w, CreateRide(u, t, 0, meters), On(t, RideEvent.Conclude(0)), Tick(0));
  }

  lemma CallWorkRefines(s: Store, w: World, t: TripId, c: CallId, req: Request)
    requires Represents(s, w) && Enabled(s, Call(t, c, req)) && OfferOfTrip(s, t, req)
    ensures Represents(Perform(s, Call(t, c, req)), Then(w, EventsOf(Call(t, c, req))))
  {
    CallRefines(s, w, t, c, req);
    ThenShort(w, On(t, RideEvent.Begin(c, req)), On(t, RideEvent.TryLock(c)), On(t, RideEvent.Conclude(c)));
  }

  lemma CallStepRefines(s: Store, w: World, work: Work)
    requires Represents(s, w) && Enabled(s, work) && NamesOwnOffer(s, work)
    requires work.TripOpens? || work.CallBegins? || work.CallLocks? || work.CallEnds?
    ensures Represents(Perform(s, work), Then(w, EventsOf(work)))
  {
    hide Represents;
    hide DoAll;
    hide Apply;
    RepresentedTrips(s, w);
    ThenShort(w, EventsOf(work)[0], Tick(0), Tick(0));
    match work
    case TripOpens(u, t, c, meters) => OpenRefines(s, w, u, t, c, meters);
    case CallBegins(t, c, req) => BeginRefines(s, w, t, c, req);
    case CallLocks(t, c) => TryLockRefines(s, w, t, c);
    case CallEnds(t, c) => ConcludeRefines(s, w, t, c);
  }

  lemma JobRefines(s: Store, w: World, work: Work)
    requires Represents(s, w) && WorldInv(w) && Enabled(s, work)
    requires work.RequestWork? || work.MatchWork? || work.LifeWork? || work.Due?
    ensures Represents(Perform(s, work), Then(w, EventsOf(work)))
  {
    hide Represents;
    hide JobsNameOwnOffers;
    hide DoAll;
    hide Apply;
    hide WorldInv;
    RepresentedTrips(s, w);
    var t := work.trip;
    InvNamesOwnOffers(s, w, t);
    ThenShort(w, EventsOf(work)[0], Tick(0), Tick(0));
    match work
    case RequestWork(_) => RequestRefines(s, w, t);
    case MatchWork(_, k, geo, newId) => MatchingRefines(s, w, t, k, geo, newId);
    case LifeWork(_, k, otp) => LifecycleRefines(s, w, t, k, otp);
    case Due(_, k) => PromoteRefines(s, w, t, k);
  }

  lemma WorkRefines(s: Store, w: World, work: Work)
    requires Represents(s, w) && WorldInv(w) && Enabled(s, work) && NamesOwnOffer(s, work)
    ensures Represents(Perform(s, work), Then(w, EventsOf(work)))
  {
    hide Represents;
    hide Enabled;
    hide Perform;
    hide EventsOf;
    hide Then;
    hide WorldInv;
    match work
    case NewTripCall(u, t, meters) => NewTripRefines(s, w, u, t, meters);
    case Call(t, c, req) => CallWorkRefines(s, w, t, c, req);
    case TripOpens(_, _, _, _) => CallStepRefines(s, w, work);
    case CallBegins(_, _, _) => CallStepRefines(s, w, work);
    case CallLocks(_, _) => CallStepRefines(s, w, work);
    case CallEnds(_, _) => CallStepRefines(s, w, work);
    case RequestWork(_) => JobRefines(s, w, work);
    case MatchWork(_, _, _, _) => JobRefines(s, w, work);
    case LifeWork(_, _, _) => JobRefines(s, w, work);
    case Due(_, _) => JobRefines(s, w, work);
    case _ => TableRefines(s, w, work);
  }

  lemma EmptyRefines()
    ensures Represents(EMPTY_STORE, EMPTY_WORLD)
  {
  }

  /** Every run of the stores in which clients name offers of their trips is a run of the world of rides. */
  lemma {:induction false} StoresFollowWorld(works: seq<Work>)
    requires NameOwnOffers(works)
    ensures Represents(PerformAll(works), Exec(AllEvents(works)))
  {
    if works == [] {
      EmptyRefines();
    } else {
      var before, work := works[..|works|-1], works[|works|-1];
      StoresFollowWorld(before);
      ReachableInv(AllEvents(before));
      if Enabled(PerformAll(before), work) {
        WorkRefines(PerformAll(before), Exec(AllEvents(before)), work);
        ExecThen(AllEvents(before), EventsOf(work));
      } else {
        assert AllEvents(works) == AllEvents(before);
      }
    }
  }

  // ---- And each run of the world is one of the stores -------------------------------------

  function WorkOf(e: Event): Work {
    match e
    case Tick(ms) => Wait(ms)
    case RegisterDriver(u, d) => AddDriver(u, d)
    case RegisterRider(u, rider) => AddRider(u, rider)
    case CreateRide(u, t, c, meters) => TripOpens(u, t, c, meters)
    case On(t, Begin(c, req)) => CallBegins(t, c, req)
    case On(t, TryLock(c)) => CallLocks(t, c)
    case On(t, Conclude(c)) => CallEnds(t, c)
    case On(t, RunRequest) => RequestWork(t)
    case On(t, Promote(k)) => Due(t, k)
    case On(t, RunMatching(k, geo, newId)) => MatchWork(t, k, geo, newId)
    case On(t, RunLifecycle(k, otp)) => LifeWork(t, k, otp)
  }

  /** Offer ids are those of one table: the id for a new offer is one no trip has, and the offer a client names
      is not another trip's. */
  ghost predicate OfferIdFits(w: World, e: Event) {
    && (e.On? && e.event.RunMatching? ==> forall t :: t in w.rides ==> e.event.newId !in w.rides[t].offers)
    && (e.On? && e.event.Begin? && (e.event.req.AcceptRide? || e.event.req.RejectRide?) ==>
          forall t :: t in w.rides && t != e.trip ==> e.event.req.offer !in w.rides[t].offers)
  }

  ghost predicate OfferIdsFit(es: seq<Event>) {
    es != [] ==> OfferIdsFit(es[..|es|-1]) && OfferIdFits(Exec(es[..|es|-1]), es[|es|-1])
  }

  function WorksOf(es: seq<Event>): seq<Work> {
    if es == [] then [] else WorksOf(es[..|es|-1]) + [WorkOf(es[|es|-1])]
  }

  lemma RowIsItsTrips(s: Store, w: World, o: OfferId)
    requires Represents(s, w) && o in s.offers
    ensures s.offers[o].trip in w.rides && o in w.rides[s.offers[o].trip].offers
  {
    SliceMirrors(s, w, s.offers[o].trip);
    hide Abs;
  }

  lemma FreshInStore(s: Store, w: World, e: Event)
    requires Represents(s, w) && OfferIdFits(w, e) && e.On? && e.event.RunMatching?
    ensures e.event.newId !in s.offers
  {
    hide Represents;
    if e.event.newId in s.offers {
      RowIsItsTrips(s, w, e.event.newId);
    }
  }

  lemma OwnInStore(s: Store, w: World, e: Event)
    requires Represents(s, w) && OfferIdFits(w, e)
    ensures NamesOwnOffer(s, WorkOf(e))
  {
    hide Represents;
    if e.On? && e.event.Begin? && (e.event.req.AcceptRide? || e.event.req.RejectRide?) && e.event.req.offer in s.offers {
      RowIsItsTrips(s, w, e.event.req.offer);
    }
  }

  /** What is not enabled in the stores does nothing in the world. */
  lemma DisabledRideEvent(s: Store, env: Env, r: Ride, t: TripId, e: RideEvent)
    requires Mirrors(s, t, r) && s.env == env && !Enabled(s, WorkOf(On(t, e)))
    requires e.RunMatching? ==> e.newId !in s.offers
    ensures RideStep(env, r, e) == Step(r, Keep, Done)
  {
    hide Admit;
    hide Gateway.TryLock;
    hide Gateway.Conclude;
    hide RunCascade;
    hide Handle;
    hide Inert;
  }

  lemma NothingHappens(w: World, t: TripId, e: RideEvent)
    requires t in w.rides && RideStep(w.env, w.rides[t], e) == Step(w.rides[t], Keep, Done)
    ensures Apply(w, On(t, e)) == w
  {
    hide RideStep;
    ApplyOn(w, t, e);
    assert w.rides[t := w.rides[t]] == w.rides && w.env.(busy := w.env.busy) == w.env;
  }

  lemma DisabledOnIsNothing(s: Store, w: World, t: TripId, e: RideEvent)
    requires Represents(s, w) && OfferIdFits(w, On(t, e)) && !Enabled(s, WorkOf(On(t, e))) && t in w.rides
    ensures Apply(w, On(t, e)) == w
  {
    SliceMirrors(s, w, t);
    RepresentedTrips(s, w);
    if e.RunMatching? {
      FreshInStore(s, w, On(t, e));
    }
    hide Represents;
    hide OfferIdFits;
    hide RideStep;
    hide Apply;
    hide Mirrors;
    hide Enabled;
    DisabledRideEvent(s, w.env, w.rides[t], t, e);
    NothingHappens(w, t, e);
  }

  lemma DisabledIsNothing(s: Store, w: World, e: Event)
    requires Represents(s, w) && OfferIdFits(w, e) && !Enabled(s, WorkOf(e))
    ensures Apply(w, e) == w
  {
    RepresentedTrips(s, w);
    hide Represents;
    if e.On? && e.trip in w.rides {
      DisabledOnIsNothing(s, w, e.trip, e.event);
    }
  }

  lemma EventIsWork(s: Store, w: World, e: Event)
    requires Represents(s, w) && WorldInv(w) && OfferIdFits(w, e)
    ensures Represents(if Enabled(s, WorkOf(e)) then Perform(s, WorkOf(e)) else s, Apply(w, e))
  {
    hide Represents;
    hide WorldInv;
    hide OfferIdFits;
    hide Enabled;
    hide Perform;
    hide Apply;
    if Enabled(s, WorkOf(e)) {
      OwnInStore(s, w, e);
      WorkRefines(s, w, WorkOf(e));
      assert EventsOf(WorkOf(e)) == [e];
      ThenShort(w, e, e, e);
    } else {
      DisabledIsNothing(s, w, e);
    }
  }

  /** The stores can do all that the world can, as long as offer ids are those of one table. */
  lemma {:induction false} WorldRunsAreStored(es: seq<Event>)
    requires OfferIdsFit(es)
    ensures Represents(PerformAll(WorksOf(es)), Exec(es)) && NameOwnOffers(WorksOf(es))
  {
    if es == [] {
      EmptyRefines();
    } else {
      var before, e := es[..|es|-1], es[|es|-1];
      WorldRunsAreStored(before);
      ReachableInv(before);
      EventIsWork(PerformAll(WorksOf(before)), Exec(before), e);
      OwnInStore(PerformAll(WorksOf(before)), Exec(before), e);
      assert WorksOf(es)[..|WorksOf(es)|-1] == WorksOf(before);
    }
  }

  // ---- What that says about the stores ----------------------------------------------------

  /** The trip a piece of work is about. */
  predicate IsAbout(work: Work, t: TripId) {
    !work.Wait? && !work.AddDriver? && !work.AddRider? && work.trip == t
  }

  predicate EventIsAbout(e: Event, t: TripId) {
    (e.CreateRide? && e.trip == t) || (e.On? && e.trip == t)
  }

  lemma EventsAreAbout(work: Work, t: TripId)
    requires !IsAbout(work, t)
    ensures forall i :: 0 <= i < |EventsOf(work)| ==> !EventIsAbout(EventsOf(work)[i], t)
  {
  }

  lemma {:induction false} EventsLeaveOthers(w: World, es: seq<Event>, t: TripId)
    requires t in w.rides && forall i :: 0 <= i < |es| ==> !EventIsAbout(es[i], t)
    ensures t in Then(w, es).rides && Then(w, es).rides[t] == w.rides[t]
  {
    if es != [] {
      EventsLeaveOthers(w, es[..|es|-1], t);
    }
  }

  /** Isolation: work about another trip leaves all of a trip's row, keys, offers and jobs as they were,
      although everything lies in shared tables, keys and queues. */
  lemma OtherTripsUntouched(works: seq<Work>, work: Work, t: TripId)
    requires NameOwnOffers(works) && NamesOwnOffer(PerformAll(works), work)
    requires t in PerformAll(works).trips && Enabled(PerformAll(works), work) && !IsAbout(work, t)
    ensures var s' := Perform(PerformAll(works), work);
            t in s'.trips && Slice(s', t) == Slice(PerformAll(works), t)
  {
    hide Slice;
    hide Perform;
    hide Enabled;
    hide Then;
    EventsAreAbout(work, t);
    hide EventsOf;
    hide EventIsAbout;
    var s, w := PerformAll(works), Exec(AllEvents(works));
    StoresFollowWorld(works);
    ReachableInv(AllEvents(works));
    RepresentedTrips(s, w);
    RepresentedRide(s, w, t);
    WorkRefines(s, w, work);
    EventsLeaveOthers(w, EventsOf(work), t);
    RepresentedTrips(Perform(s, work), Then(w, EventsOf(work)));
    RepresentedRide(Perform(s, work), Then(w, EventsOf(work)), t);
  }

  predicate DrivesTrip(s: Store, u: UserId, t: TripId) {
    && t in s.trips && s.trips[t].status in {Accepted, Started} && s.trips[t].driver.Some?
    && s.trips[t].driver.value in s.env.directory.byId && s.env.directory.byId[s.trips[t].driver.value] == u
  }

  /** Whoever is in `drivers:busy` is the driver of an ACCEPTED or STARTED row of the `Trip` table. */
  lemma StoredBusyDrive(works: seq<Work>, u: UserId)
    requires NameOwnOffers(works) && u in PerformAll(works).env.busy
    ensures exists t :: DrivesTrip(PerformAll(works), u, t)
  {
    StoresFollowWorld(works);
    NobodyBusyWithoutRide(AllEvents(works));
    var s, w := PerformAll(works), Exec(AllEvents(works));
    assert Abs(s) == w;
    var t :| Drives(w, u, t);
    assert w.rides[t] == Slice(s, t);
    assert DrivesTrip(s, u, t);
  }

  /** A reject call about trip `t`. */
  predicate IsReject(work: Work, t: TripId) {
    (work.Call? || work.CallBegins?) && work.trip == t && work.req.RejectRide?
  }

  lemma {:induction false} RejectsAppend(es: seq<Event>, more: seq<Event>, t: TripId)
    requires forall i :: 0 <= i < |more| && more[i].On? && more[i].event.Begin? && more[i].event.req.RejectRide? ==>
               more[i].trip != t
    ensures Rejects(es + more, t) == Rejects(es, t)
    decreases |more|
  {
    if more == [] {
      assert es + more == es;
    } else {
      var all, before := es + more, more[..|more|-1];
      assert forall i :: 0 <= i < |before| ==> before[i] == more[i];
      RejectsAppend(es, before, t);
      assert all[..|all|-1] == es + before && all[|all|-1] == more[|more|-1];
    }
  }

  lemma {:induction false} NoRejectWorks(works: seq<Work>, t: TripId)
    requires forall i :: 0 <= i < |works| ==> !IsReject(works[i], t)
    ensures Rejects(AllEvents(works), t) == 0
  {
    if works != [] {
      var before, work := works[..|works|-1], works[|works|-1];
      assert forall i :: 0 <= i < |before| ==> before[i] == works[i];
      NoRejectWorks(before, t);
      if Enabled(PerformAll(before), work) {
        RejectsAppend(AllEvents(before), EventsOf(work), t);
      } else {
        assert AllEvents(works) == AllEvents(before);
      }
    }
  }

  /** A matching job of trip `t` that will lead to a cascade run: any but a timeout whose offer is no
      longer PENDING. */
  predicate LiveJob(s: Store, t: TripId, k: MatchKey) {
    && (t, k) in s.matching.jobs
    && (s.matching.jobs[(t, k)].name.OfferTimeout? ==> StillPending(s, s.matching.jobs[(t, k)].name.offer))
  }

  /** `createRide` has written the row and is about to queue the request. */
  predicate BeingCreated(s: Store, t: TripId) {
    exists id :: id in s.calls && id.0 == t && s.calls[id].Creating?
  }

  lemma TokenIsStored(s: Store, env: Env, r: Ride, t: TripId, a: Token)
    requires Mirrors(s, t, r) && IsToken(r, a)
    requires forall c :: c in r.calls ==> !r.calls[c].Rejecting?
    ensures BeingCreated(s, t) || (t, RideRequest) in s.requests.jobs || exists k :: LiveJob(s, t, k)
  {
    match a
    case CallToken(c) => assert (t, c) in s.calls && s.calls[(t, c)].Creating?;
    case RequestToken =>
    case JobToken(k) => assert LiveJob(s, t, k);
  }

  /** No lost ride, in the shared stores: a REQUESTED row that no driver rejected always has its
      creation under way, a queued request, a live matching job or a queued CANCEL. */
  lemma StoredRideIsServed(works: seq<Work>, t: TripId)
    requires NameOwnOffers(works) && forall i :: 0 <= i < |works| ==> !IsReject(works[i], t)
    requires t in PerformAll(works).trips && PerformAll(works).trips[t].status.Requested?
    ensures var s := PerformAll(works);
            || BeingCreated(s, t) || (t, RideRequest) in s.requests.jobs || (exists k :: LiveJob(s, t, k))
            || (t, CancelKey) in s.lifecycle.jobs
  {
    var s, w := PerformAll(works), Exec(AllEvents(works));
    StoresFollowWorld(works);
    RepresentedTrips(s, w);
    SliceMirrors(s, w, t);
    NoRejectWorks(works, t);
    NoLostRide.NoLostRide(AllEvents(works), t);
    UnrejectedHolds(AllEvents(works), t);
    if CancelKey !in w.rides[t].lifecycle.jobs {
      var a :| IsToken(w.rides[t], a);
      TokenIsStored(s, w.env, w.rides[t], t, a);
    }
  }
}
