# Ride dispatch, verified

A Dafny model of the dispatch protocol of a ride-hailing backend: the gateway that takes requests, the matching
worker that offers a ride to one driver after the other, and the lifecycle worker that moves a trip through its
statuses. They share Postgres rows (`Trip`, `RideOffer`), Redis (the busy set and the lock, OTP and attempt keys with
their expiry times) and three BullMQ queues whose job ids deduplicate. None of the system's guarantees sits in one
function: each rests on the choice of job ids, the order of guards and the cleanup across processes. The theorems below
are about every run of the whole system.

## How the model is built

Three layers, each proved against the next.

1. **The abstract machine** (`StateMachine`): the transition table and what every path through it has in common.
2. **The world of rides** (`Rides`, `Gateway`, `Cascade`, `Lifecycle`, `Dispatch`). All that is stored about one ride is
   one value, `Ride`, and each job handler is one step of its ride. A gateway call is cut into micro-steps (`Begin`,
   `TryLock`, `Conclude`), so that any other step, a lock's expiry included, can fall between the check of an offer, the
   `SET NX` and the enqueueing. `Exec(es)` is the state after any sequence `es` of events: calls of any clients, jobs in
   any order, due timeouts, the clock, new users. A disabled event changes nothing, so every sequence is a run, and "in
   every run" is a plain for-all.
3. **The shared stores** (`Storage`, `StoreOps`, `Platform`). `Platform.Backend` is a class with the real tables, keys
   and queues as fields; its methods do what the source's functions do, write by write and loop by loop. Each method is
   proved to perform exactly its list of operations, and `Refinement` to `StoresRefineWorld` prove that such a list is
   the step of its ride in layer 2. `StoreRuns` proves that layers 2 and 3 have the same runs: any sequence of work on
   the stores, with the gateway's micro-steps interleaved in any way, is a run of layer 2 if no client names an offer of
   another trip (`NameOwnOffers`), and every run of layer 2 whose offer ids are those of one table (`OfferIdsFit`) is
   such a run of the stores. Stores that hold the same world are equal, so the theorems about runs hold of the rows,
   keys and queues. What a foreign offer id does is the fifth promise below.

The remaining modules prove the properties: `Invariants`, `Runs`, `Acceptance`, `Acknowledged`, `Otp`, `Chain`,
`NoLostRide`, `LostRides`, `BoundedCascade`, `Progress`, `Matching`, `Busy`, `Commute`, `Isolation`, `Completion`,
`AcceptCloses`, `CancelCloses`, `Pursuit`, `Origins`, `Causes`, `Earnings`, `History`, `Throttle`. `StoreEffects` writes
out what each list of operations of layer 3 leaves in the tables, keys and queues, without naming the operations, and
the methods of `Platform.Backend` say so of their fields. `Races` leaves the layers and cuts a lifecycle handler
between its read and its write.

Seven promises turn out not to hold unconditionally. For each there is a run that breaks it and the exact condition
under which it holds.

- *No ride is lost.* A reject restarts the chain at attempt 1, whose second run wants the job id `match:{trip}:2`; if
  the first chain has used it, the queue drops the continuation (`LostRideExample`). Without rejects it never happens
  (`NoLostRide`). If rejects hit only PENDING offers, a REQUESTED ride with no queued cancellation is stranded if and
  only if a continuation was dropped (`StrandedIffContinuationDropped`). A reject of an offer that is no longer PENDING
  starts a second chain, which can keep the ride alive; so in general such a ride is stranded if and only if the
  dropped continuations and the dropped restarts number one more than these stale rejects
  (`StrandedIffAllChainsDropped`), and never without a dropped continuation (`StrandedOnlyByDrop`). In any case its
  cascade runs number at most eleven times one plus the rejects (`BoundedRuns`), so by its own steps it comes to a
  queued CANCEL or is stranded (`ChainsRunOut`), and stranded it stays (`StrandedStays`). All this assumes that no
  client accepts or rejects a ride with an offer of another one; see *Trips do not disturb each other*.
- *A busy driver has one ride, and a driving driver is busy.* A driver who is offered two rides while he is free can
  accept both, and loses his busy mark when one of them ends (`DoubleBookingExample`). The busy set agrees with the
  trips throughout a run if and only if no ACCEPT of a REQUESTED trip is run for a driver who is busy at that moment
  (`AgreementIffNoBusyAccept`).
- *Jobs of different trips can run in either order.* An ACCEPT for a driver and the CANCEL of another trip he drives
  can wait side by side, and then their order decides whether he ends up busy (`DoubleBookingExample.OrderCanMatter`).
  Two jobs of different trips leave the shared stores the same in either order unless one is an ACCEPT of a REQUESTED
  trip and the other ends the active trip of the same user; and then they do not (`JobsCommuteIff`).
- *A trip's status follows the table.* With each handler one step, it does. Two handlers of one trip that overlap can
  take a CANCELLED trip to ACCEPTED (`Races`). Histories are paths of the table if and only if every write lands on the
  status its job read, on its own target, or, for a cancellation, before the start (`HistoryIsPathIff`). Two such jobs
  do come to wait side by side (`DoubleBookingExample.AcceptAndCancelCanWait`).
- *Trips do not disturb each other.* The gateway checks that an offer is the driver's and, to accept, PENDING, but not
  that it is of the trip he names. Accepting one ride with the offer of another marks that offer ACCEPTED, its timeout
  does nothing, and its ride is stranded though nobody rejected it (`ForeignOfferExample`). In every run, with any offer
  ids, work about one trip leaves every other trip's row, keys, offers, jobs and calls as they were if and only if it
  does not rewrite the status of an offer of another trip (`Isolation.OthersUntouchedIff`).
- *What the gateway acknowledges gets done.* The queue drops a job whose id it has seen, and the reply is still a success.
  For cancellations and completions that is harmless: as long as the trip has not moved on, a job that does the same
  waits in the queue (`AcknowledgedIsServed`). But the right guess can be lost (`DroppedGuessExample`): a guess is
  dropped if and only if another one of the trip was queued within the same millisecond (`GuessIsDroppedIff`), and an
  acceptance if and only if one of the trip was queued before (`AcceptIsDroppedIff`).
- *A cancelled ride is offered to nobody.* A cancellation closes what has been offered: its PENDING offers expire, their
  timeouts do nothing and no acceptance of them passes (`CancelClosesMatching`). But the matching worker never reads the
  trip's status, so a chain with a run to come goes on asking drivers (`CancelledRideExample`). Unless a driver rejects
  an old offer of it, a ride that is cancelled can be offered to somebody afterwards if and only if, when it is
  cancelled, its request, the restart of a chain or a matching job other than a timeout, of at most the tenth attempt,
  is waiting or about to be queued (`CancelledIsOfferedIff`).

Conventions: times are milliseconds; a Redis key reads as absent from its expiry instant on; database ids are strings,
and the ids of a ride's jobs are the values of `RequestKey`, `MatchKey` and `LifeKey`. BullMQ is taken as the source
configures it: no `removeOnComplete`, so a finished job's id stays used, and no `attempts`, so a failed job is not run
again. (The repository's own `README.md`, line 95, says that BullMQ retries automatically; the model follows the code. What a
rerun of a completion would do is proved in `Completion`.) A GEO search is a ranked list with distances, of which
`Geo.Valid` says what a GEOSEARCH in ascending order returns. The members of the GEO set are taken to be user ids, as
the matcher reads them.

## Model

| member | source | states |
|---|---|---|
| `StateMachine.PathChangesAtMostThrice` | apps/ride-worker/src/state-machine.ts:14-20 | along any path of the table the status changes at most three times, and never more often than its rank rises |
| `StateMachine.TerminalIsAbsorbing` | apps/ride-worker/src/state-machine.ts:14-20 | once COMPLETED or CANCELLED, a path stays there |
| `Runs.ReachableInv` | apps/ride-worker/src/workers/ride-lifecycle.worker.ts:60-360 | every reachable state satisfies the row, key, queue and call invariants of every ride, for any interleaving of calls, jobs and clock |
| `Runs.ApplyIsLater` | apps/ride-worker/src/workers/ride-lifecycle.worker.ts:60-360 | one event moves a ride along at most one edge of the table and rewrites nothing that was set |
| `Runs.HistoryIsPath` | apps/ride-worker/src/state-machine.ts:26-33 | over any run, the statuses of a trip form a path of the table from REQUESTED |
| `Runs.HandlersRefineStateMachine` | apps/ride-worker/src/state-machine.ts:14-33 | the handlers refine the state machine over whole runs: history is a path with at most three changes |
| `Races.HistoryIsPathIff` | apps/ride-worker/src/workers/ride-lifecycle.worker.ts:65-99 | with reads and writes of any number of jobs of a trip interleaved: history is a path of the table if and only if each write lands on the status its job read, on its own target, or, for a CANCEL, before the start |
| `Races.AtomicHandlersAreSafe` | apps/ride-worker/src/workers/ride-lifecycle.worker.ts:65-99 | handlers that do not overlap keep to the table |
| `Races.CancelledCanBecomeAccepted` | apps/ride-worker/src/workers/ride-lifecycle.worker.ts:213-223 | an ACCEPT and a CANCEL that overlap can take a CANCELLED trip to ACCEPTED |
| `DoubleBookingExample.AcceptAndCancelCanWait` | apps/api-gateway/src/services/ride.service.ts:268-317 | a reachable state in which an ACCEPT and a CANCEL of one REQUESTED trip are both queued |
| `Runs.RunIsLater` | apps/ride-worker/src/workers/ride-lifecycle.worker.ts:95-117 | driver, OTP, fare, distance and completion time never change once set, no offer changes its driver or its term or becomes PENDING again, no job id comes back with another job |
| `Runs.GatewayChecksStayTrue` | apps/api-gateway/src/services/ride.service.ts:232-376 | the driver named in a queued VERIFY_OTP, COMPLETE or driver-cancel job is still the trip's driver when the job runs, a queued COMPLETE finds the trip STARTED, and an ACCEPT names the owner of an existing offer |
| `Runs.WhenJobsFail` | apps/ride-worker/src/workers/ride-lifecycle.worker.ts:145-159 | in every reachable state, how each lifecycle job ends and with which error: ACCEPT and CANCEL fail exactly when the ride has moved on, a guess exactly when no OTP is live, a COMPLETE never; so a guess that finds an OTP never fails its transition check |
| `Runs.KeysAgreeWithStatus` | apps/ride-worker/src/workers/ride-lifecycle.worker.ts:110-117 | an OTP key exists exactly while the trip is ACCEPTED and equals the row's OTP; an attempts key implies ACCEPTED and expires no earlier |
| `Origins.EveryTripWasRequested` | apps/api-gateway/src/services/ride.service.ts:71-86 | every trip of every run was created by exactly one call |
| `Origins.CreatedTripIs` | apps/api-gateway/src/services/ride.service.ts:71-86 | it is then REQUESTED by the rider of that call, over the distance of that call, with no driver, OTP, fare, distance or completion time, no offer and no key |
| `Origins.FareIsOfTheRequest` | apps/ride-worker/src/workers/ride-lifecycle.worker.ts:284-312 | in every later state of the run the rider and the distance of the journey are those of the creating call, and once COMPLETED the fare is 50 and 12 a kilometre of that distance to the cent, the stored distance that distance to a hundredth; before, neither is set |
| `Origins.CompletionTimeIsTheClock` | apps/ride-worker/src/workers/ride-lifecycle.worker.ts:282-312 | a COMPLETED trip was completed by a run of its COMPLETE job that found it STARTED, and its completion time is the clock of that run, whatever ran since |
| `Origins.OtpIsFromAcceptance` | apps/ride-worker/src/workers/ride-lifecycle.worker.ts:107-117 | while a trip is ACCEPTED its OTP is the one made by its ACCEPT job, and its key expires exactly 15 minutes after that |
| `Origins.GuessStartsIff` | apps/ride-worker/src/workers/ride-lifecycle.worker.ts:141-177 | in any run a guess starts an ACCEPTED trip if and only if it is the OTP made at its acceptance and less than 15 minutes have passed |
| `Origins.OfferIsFromCascade` | apps/ride-worker/src/matching/cascade.ts:130-167 | in any run every offer was made by one cascade run, PENDING and for 30 seconds from then, to a registered driver; and, of those the GEO search answered, no one else that run could ask within 5 km at attempt 1, or 10 km later, was nearer |
| `Origins.TimeoutIsNotEarly` | apps/ride-worker/src/matching/cascade.ts:211-224 | in any run a matching job closes an offer only by expiring it, at least 30 seconds after it was made |
| `Causes.AdmittedIsCause` | apps/api-gateway/src/services/ride.service.ts:232-376 | the guards of the calls let in a CANCEL only of the trip's rider, or of a user without a rider record, before the start; a driver CANCEL or a guess only of the driver of an ACCEPTED trip; a COMPLETE only of the driver of a STARTED one |
| `Causes.EverythingIsCaused` | apps/ride-worker/src/workers/ride-lifecycle.worker.ts:141-360 | in any run: every waiting call and every queued CANCEL, guess and COMPLETE goes back to such a call or to a search that found nobody; a CANCELLED trip to one of these or to a third wrong guess; a STARTED one to its driver submitting its OTP; a COMPLETED one also to its driver completing it |
| `Causes.RiderCancelIsTheRiders` | apps/api-gateway/src/services/ride.service.ts:268-317 | in any run a queued rider CANCEL goes back to a call by a user whose rider record is the trip's, or who had none, while the trip was REQUESTED or ACCEPTED |
| `Acceptance.AtMostOneAcceptJob` | apps/api-gateway/src/services/ride.service.ts:149-159 | over any run, with any number of racing drivers and any lock expiry, at most one ACCEPT job per trip enters the queue |
| `Acceptance.AcceptancesAreExplained` | apps/api-gateway/src/services/ride.service.ts:136-159 | every ACCEPT job and every assigned driver goes back to a moment when that driver took the free lock with an offer of his that had been PENDING |
| `Acceptance.DriverHeldLockAndOffer` | apps/api-gateway/src/services/ride.service.ts:136-147 | the trip's driver held the ride's lock and owned a PENDING offer |
| `Acceptance.DriverChangesOnlyByAccept` | apps/ride-worker/src/workers/ride-lifecycle.worker.ts:95-99 | the driver column changes only from empty, to the driver of the queued ACCEPT job |
| `Acceptance.DriverIsTheAcceptJobs` | apps/ride-worker/src/workers/ride-lifecycle.worker.ts:60-99 | once an ACCEPT job is queued, the trip can get no other ACCEPT job and no other driver, for the rest of any run |
| `Acknowledged.KeptHolds` | apps/api-gateway/src/services/ride.service.ts:268-376 | in every run, while a trip is REQUESTED or ACCEPTED, a used cancel or driver-cancel id is that of a waiting job and no completion id is used; while it is STARTED, a used completion id is that of a waiting job |
| `Acknowledged.AcknowledgedIsServed` | apps/api-gateway/src/services/ride.service.ts:268-376 | when a cancellation or completion is acknowledged and its trip has not moved on since the check, a job that does what was asked waits in the queue, whether or not the call's own was dropped |
| `Acknowledged.GuessIsDroppedIff` | apps/api-gateway/src/services/ride.service.ts:247-259 | an acknowledged OTP guess is dropped if and only if another guess for the trip was queued in the same millisecond |
| `Acknowledged.AcceptIsDroppedIff` | apps/api-gateway/src/services/ride.service.ts:149-163 | an acknowledged acceptance is dropped if and only if an ACCEPT of the trip was queued before |
| `DroppedGuessExample.RightGuessCanBeDropped` | apps/api-gateway/src/services/ride.service.ts:247-259 | a reachable state in which the right guess for an ACCEPTED trip is acknowledged and no job holds it |
| `Otp.CounterOutlivesOtp` | apps/ride-worker/src/workers/ride-lifecycle.worker.ts:149-152 | as long as the OTP reads as present, the attempts counter has not expired |
| `Otp.StepIsAccounted` | apps/ride-worker/src/workers/ride-lifecycle.worker.ts:141-206 | one event changes counter and status in step with the wrong and right guesses made so far; the third wrong one cancels |
| `Otp.OtpBound` | apps/ride-worker/src/workers/ride-lifecycle.worker.ts:141-206 | over any timed run at most three wrong guesses are counted, the third leaves the trip CANCELLED, and STARTED means one right guess after at most two wrong ones |
| `Chain.RejectMovesToken` | apps/api-gateway/src/services/ride.service.ts:185-219 | rejecting a PENDING offer hands the chain from the offer's timeout to the reject call |
| `Chain.RunMatchingMovesToken` | apps/ride-worker/src/matching/cascade.ts:96-245 | a matching job hands the chain on, ends it with a queued CANCEL, or loses it exactly by dropping its continuation |
| `NoLostRide.ChainHolds` | apps/ride-worker/src/matching/cascade.ts:96-245 | while rejects hit PENDING offers, a requested ride has one live continuation unless one was dropped |
| `NoLostRide.OneLiveChain` | apps/ride-worker/src/matching/cascade.ts:160-245 | if rejects hit only PENDING offers, at most one thing can start a cascade run of a trip, and the trip has at most one PENDING offer |
| `NoLostRide.StrandedIffContinuationDropped` | apps/ride-worker/src/matching/cascade.ts:123-154 | if rejects hit only PENDING offers, a REQUESTED trip without a queued CANCEL is stranded if and only if some run found the id of its continuation used |
| `LostRides.TokensAreCounted` | apps/api-gateway/src/services/ride.service.ts:185-219 | in any run, with rejects of any kind: what can still start a cascade run of a waiting trip numbers one, plus the rejects of closed offers, less the continuations and restarts dropped for a used id |
| `LostRides.StrandedIffAllChainsDropped` | apps/ride-worker/src/matching/cascade.ts:123-154 | in any run a REQUESTED trip without a queued CANCEL is stranded if and only if dropped continuations and restarts number one more than the rejects of closed offers |
| `LostRides.StrandedOnlyByDrop` | apps/ride-worker/src/matching/cascade.ts:123-154 | in any run a stranded trip has had a continuation dropped |
| `NoLostRide.UnrejectedHolds` | apps/ride-worker/src/matching/cascade.ts:119-205 | without rejects each attempt number is used once, so no continuation is ever dropped |
| `NoLostRide.NoLostRide` | apps/ride-worker/src/matching/cascade.ts:119-298 | in every reachable state a REQUESTED trip nobody rejected has live work or a queued CANCEL |
| `NoLostRide.CascadeEnds` | apps/ride-worker/src/matching/cascade.ts:102-106 | a trip nobody rejected sees at most eleven cascade runs, and after the eleventh its CANCEL has been queued |
| `Progress.ChainsRunOut` | apps/ride-worker/src/matching/cascade.ts:96-298 | from every reachable state with a REQUESTED trip, with rejects of any kind before and whatever the GEO searches answer, the clock and the trip's own jobs bring it to a queued CANCEL or strand it, within eleven times one plus the rejects many cascade runs in all |
| `Progress.CancelIsReached` | apps/ride-worker/src/matching/cascade.ts:96-298 | from every reachable state with an unrejected REQUESTED trip, and whatever the GEO searches answer, the clock and the trip's own jobs alone bring it to a queued CANCEL within eleven cascade runs |
| `Progress.StrandedStays` | apps/ride-worker/src/matching/cascade.ts:123-154 | no sequence of clock ticks and own steps matches a stranded trip again or cancels it, when no cancel call of its rider is under way |
| `LostRideExample.RejectCanStrandRide` | apps/api-gateway/src/services/ride.service.ts:206-219 | a run in which one reject of a PENDING offer strands the ride |
| `BoundedCascade.RunCascadeRaises` | apps/ride-worker/src/matching/cascade.ts:96-206 | for offers as for cascade runs: a run at attempt a costs, together with what it queues, no more than attempt a is allowed |
| `BoundedCascade.PotentialBound` | apps/ride-worker/src/matching/cascade.ts:96-245 | over any run what is spent and what can still be spent, in offers or in cascade runs, stays within the cost of one chain, and one more per reject |
| `BoundedCascade.BoundedOffers` | apps/ride-worker/src/matching/cascade.ts:102-206 | in any run, with rejects of any kind, a trip gets at most MAX_CASCADE_ATTEMPTS times one plus the rejects many offers |
| `BoundedCascade.BoundedRuns` | apps/ride-worker/src/matching/cascade.ts:96-206 | in any run, with rejects of any kind, the cascade runs of a trip number at most MAX_CASCADE_ATTEMPTS + 1 times one plus the rejects |
| `Matching.AvailableIsEligible` | apps/ride-worker/src/matching/cascade.ts:111-117 | search and filters keep exactly the ranked members whose distance is within the radius, who are not busy, whose lookup did not fail and who are not skipped, nearest first |
| `Matching.DecisionIsRight` | apps/ride-worker/src/matching/cascade.ts:102-166 | the ride is given up if and only if the attempt is after the tenth, or not the first with nobody within 10 km to ask; the first attempt widens the search if and only if nobody is within 5 km; an offer goes to a registered driver who may be asked within that radius, and nobody who may be is nearer; a nearest member without a driver record is skipped |
| `Matching.SkippedHolds` | apps/ride-worker/src/matching/cascade.ts:146-200 | in any run, with rejects of any kind: everyone the chain of a queued matching job was offered to is in the job's skip list |
| `Matching.NeverOfferedTwice` | apps/ride-worker/src/matching/cascade.ts:187-200 | in any run, with rejects of any kind: no chain offers the trip to the same driver twice |
| `Matching.RejecterIsSpared` | apps/api-gateway/src/services/ride.service.ts:206-219 | in any run: the chain a reject restarts never offers the trip to the driver who rejected it |
| `Matching.EveryOfferHasAChain` | apps/ride-worker/src/matching/cascade.ts:160-206 | in any run every offer of a trip is one of the chain that its timeout job goes on with, so what is proved of chains covers all offers |
| `Matching.OneChainMakesAllOffers` | apps/ride-worker/src/matching/cascade.ts:96-206 | after rejects of PENDING offers only, and until the next reject, all new offers of a trip are made by one chain |
| `Matching.OneChainNeverOffersTwice` | apps/ride-worker/src/matching/cascade.ts:187-200 | so from any such moment on, no two offers of the trip go to the same driver |
| `Matching.RejecterIsNotAskedAgain` | apps/api-gateway/src/services/ride.service.ts:206-219 | after a reject of a PENDING offer, and until the next reject, the trip is not offered to that driver again |
| `Busy.EffectTracksActivity` | apps/ride-worker/src/workers/ride-lifecycle.worker.ts:225-234 | a handler adds to or removes from the busy set exactly when its trip gains or loses an active driver, and that driver's user |
| `Busy.NobodyBusyWithoutRide` | apps/ride-worker/src/workers/ride-lifecycle.worker.ts:101-105 | in every reachable state each busy user drives some ACCEPTED or STARTED trip |
| `Busy.EffectIsForeseen` | apps/ride-worker/src/workers/ride-lifecycle.worker.ts:364-389 | which user a job makes busy or frees can be read off the trip, its keys and the job before it runs |
| `Busy.AgreementIffNoBusyAccept` | apps/ride-worker/src/workers/ride-lifecycle.worker.ts:101-105 | all along a run the busy set is exactly the drivers of active trips and each has one trip, if and only if no ACCEPT job of a REQUESTED trip is run for a busy driver |
| `DoubleBookingExample.DriverCanHoldTwoRides` | apps/api-gateway/src/services/ride.service.ts:141-159 | a run in which one driver holds two active trips |
| `DoubleBookingExample.DriverCanLookFree` | apps/ride-worker/src/workers/ride-lifecycle.worker.ts:225-234 | a run in which a driver with an active trip is not in the busy set |
| `DoubleBookingExample.OrderCanMatter` | apps/ride-worker/src/workers/ride-lifecycle.worker.ts:391-399 | a reachable state of the shared stores in which two waiting jobs of different trips do not commute |
| `Commute.JobsCommuteIff` | apps/ride-worker/src/workers/ride-lifecycle.worker.ts:391-399 | in every reachable state, two waiting lifecycle jobs of different trips leave the shared tables, keys and queues equal in either order unless one is an ACCEPT of a REQUESTED trip and the other a CANCEL, COMPLETE or third wrong guess that ends an active trip, both for the same user; and then they do not |
| `Commute.JobsCommuteWhileBusyAgrees` | apps/ride-worker/src/workers/ride-lifecycle.worker.ts:391-399 | where everyone who drives is marked busy, two such jobs commute on the shared stores unless one accepts for a busy driver |
| `AcceptCloses.AcceptClosesMatching` | apps/ride-worker/src/workers/ride-lifecycle.worker.ts:69-99 | after ACCEPT the chosen offer is ACCEPTED, the others that were PENDING are EXPIRED, exactly the delayed timeouts are gone, and a timeout already due does nothing |
| `CancelCloses.CancelsIff` | apps/ride-worker/src/workers/ride-lifecycle.worker.ts:185-223 | a job takes a ride to CANCELLED if and only if it is a CANCEL of a REQUESTED or ACCEPTED ride, or a wrong guess at a live OTP after two others |
| `CancelCloses.CancelClosesMatching` | apps/ride-worker/src/workers/ride-lifecycle.worker.ts:219-245 | after either: the row differs in its status only, the three keys are gone, exactly the PENDING offers are EXPIRED, only the driver is freed; every queued timeout, whenever it runs, only finishes, and every acceptance of an offer is refused |
| `CancelCloses.CancelClosesOnStores` | apps/ride-worker/src/workers/ride-lifecycle.worker.ts:219-245 | the same on the tables, keys and queues: what changes and to what, no offer of the trip can be accepted whichever trip is named with it, and no timeout of one writes anything |
| `Pursuit.OfferedAgainIff` | apps/ride-worker/src/matching/cascade.ts:96-245 | in any run a trip, whatever its status, can still be offered to somebody without a driver's reject if and only if its creation, a restart, its request, or a job of at most the tenth attempt that is no inert timeout is waiting |
| `Pursuit.CancelledIsOfferedIff` | apps/ride-worker/src/matching/cascade.ts:96-206 | in any run a ride that is cancelled now can still be offered to somebody afterwards, without a driver's reject, if and only if a call, a request or a job other than a timeout is waiting then that would ask a driver |
| `CancelledRideExample.CancelledRideIsOffered` | apps/ride-worker/src/matching/cascade.ts:96-206 | a run without a reject in which a CANCELLED ride has a PENDING offer |
| `Completion.CompleteIsFinished` | apps/ride-worker/src/workers/ride-lifecycle.worker.ts:270-328 | the writes of a completion amount to the completed row, the freed driver and the three keys gone, and nothing else in the shared stores |
| `Completion.CompleteLeavesRow` | apps/ride-worker/src/workers/ride-lifecycle.worker.ts:276-312 | an uninterrupted run completes a STARTED row at its own clock, with the tariff's fare to the cent and the distance to a hundredth, and leaves a COMPLETED row as it is |
| `Completion.CompletionSurvivesCrash` | apps/ride-worker/src/workers/ride-lifecycle.worker.ts:276-328 | a crash after any number of the handler's writes and a rerun leave the shared stores as one uninterrupted run does, completed at the clock of the run that wrote the row |
| `Completion.CompletionSurvivesCrashes` | apps/ride-worker/src/workers/ride-lifecycle.worker.ts:276-328 | the same for any number of crashes, each with its own clock: the stores are as one uninterrupted run at the clock of the first attempt that wrote anything leaves them |
| `Completion.CrashesKeepFirstClock` | apps/ride-worker/src/workers/ride-lifecycle.worker.ts:276-312 | a STARTED row, after any crashes and the run that gets through, is COMPLETED with the tariff's fare, and its completion time is the clock of the first attempt that wrote anything |
| `Completion.RerunsKeepRow` | apps/ride-worker/src/workers/ride-lifecycle.worker.ts:276-312 | a rerun never changes the stored fare, distance or completion time |
| `Fare.RoundToCentsIsNearest` | apps/ride-worker/src/workers/ride-lifecycle.worker.ts:299-307 | a rounded amount is a whole number of cents and the nearest one, halves rounded up |
| `Fare.FareIsTariff` | apps/ride-worker/src/workers/ride-lifecycle.worker.ts:297-309 | the fare is 50 and 12 a kilometre to the cent and at least 50, the stored distance the distance to a hundredth of a kilometre |
| `Fare.FareMatchesStoredDistance` | apps/ride-worker/src/workers/ride-lifecycle.worker.ts:294-309 | fare and distance, rounded separately, agree with the tariff up to 0.065; no fare is below the minimum |
| `Fare.FareIsMonotone` | apps/ride-worker/src/workers/ride-lifecycle.worker.ts:297-299 | a longer trip never costs less |
| `Fare.EtaIsNearest` | apps/api-gateway/src/sockets/handlers/driver.ts:84-86 | the ETA is two minutes a kilometre to the tenth of a minute, halves rounded up |
| `Fare.EtaError` | apps/api-gateway/src/sockets/handlers/driver.ts:84-86 | the broadcast ETA is two minutes per remaining kilometre up to 0.06 |
| `Earnings.EarningsAreConserved` | apps/api-gateway/src/services/ride.service.ts:496-510 | over any run the earnings reported to all drivers sum to the fares of all COMPLETED trips, each counted once |
| `Earnings.TotalsNeverFall` | apps/api-gateway/src/services/ride.service.ts:496-510 | a driver's rides, earnings and distance never fall along a run |
| `Earnings.EarningsFollowTariff` | apps/api-gateway/src/services/ride.service.ts:496-510 | reported earnings differ from 50 per ride plus 12 per reported kilometre by at most 0.065 per ride |
| `History.FirstPagesArePrefix` | apps/api-gateway/src/services/ride.service.ts:402-418 | the first n pages are the first n times limit rides |
| `History.PagesPartitionHistory` | apps/api-gateway/src/services/ride.service.ts:402-431 | for every limit from 1, the pages concatenate to the whole history, all but the last are full, the last is not empty, later ones are |
| `Throttle.LocationSocket.UpdateDriverLocation` | apps/api-gateway/src/services/driver.service.ts:73-95 | only a driver who is active and in the GEO set is moved, to the place received, and then his heartbeat key lives for a minute from that update |
| `Throttle.LocationSocket.LocationUpdate` | apps/api-gateway/src/sockets/handlers/driver.ts:53-104 | position and heartbeat are written whatever the throttle says; an update passes as the `SET NX` says; only a passing update of a driver with a STARTED trip broadcasts, once, the location as received with rounded distance and ETA |
| `Throttle.LocationSocket.LocationUpdates` | apps/api-gateway/src/sockets/handlers/driver.ts:53-104 | over a whole trace the broadcast times are drawn from the passes of the throttle, are those of the updates on a trip, and lie three seconds apart |
| `Throttle.PassesAreSpaced` | apps/api-gateway/src/sockets/handlers/driver.ts:58-61 | on any trace of update times, passes are at least three seconds apart |
| `Throttle.PassesAreFew` | apps/api-gateway/src/sockets/handlers/driver.ts:58-61 | passes number at most floor(span / 3 s) + 1 |
| `Throttle.EarlierIsNoWorse` | apps/api-gateway/src/sockets/handlers/driver.ts:58-61 | a key that is free earlier lets at least as many updates pass |
| `Throttle.NoSelectionIsLarger` | apps/api-gateway/src/sockets/handlers/driver.ts:58-61 | no other selection of updates with three seconds between them is larger than the throttle's |
| `HandlerRefinement.AcceptIsRealized` | apps/ride-worker/src/workers/ride-lifecycle.worker.ts:60-117 | the writes of `handleAccept`, in order, are the ACCEPT step of the ride |
| `HandlerRefinement.VerifyOtpIsRealized` | apps/ride-worker/src/workers/ride-lifecycle.worker.ts:141-206 | the writes of `handleVerifyOtp`, its cancellation included, are the VERIFY_OTP step |
| `HandlerRefinement.CancelIsRealized` | apps/ride-worker/src/workers/ride-lifecycle.worker.ts:210-245 | the writes of `handleCancel` are the CANCEL step |
| `HandlerRefinement.CompleteIsRealized` | apps/ride-worker/src/workers/ride-lifecycle.worker.ts:270-328 | the writes of `handleComplete` are the COMPLETE step |
| `HandlerRefinement.MatchingIsRealized` | apps/ride-worker/src/workers/ride-matching.worker.ts:16-49 | the writes of a matching job, timeout or cascade, are the matching step |
| `HandlerRefinement.CallIsRealized` | apps/api-gateway/src/services/ride.service.ts:125-376 | the writes of each gateway call that names an offer of its trip are its three micro-steps run without interleaving |
| `StoresRefineWorld.CreateRefines` | apps/api-gateway/src/services/ride.service.ts:57-121 | creating a ride on the shared stores is a creation in the world of rides |
| `StoresRefineWorld.CallRefines` | apps/api-gateway/src/services/ride.service.ts:125-376 | an uninterrupted gateway call that names an offer of its trip is its three micro-steps on the shared stores, and changes nothing else |
| `StoresRefineWorld.BeginRefines` | apps/api-gateway/src/services/ride.service.ts:130-139 | the reads and guards of a call that names an offer of its trip, with other work before and after, are one event of its ride |
| `StoresRefineWorld.TryLockRefines` | apps/api-gateway/src/services/ride.service.ts:141-147 | the `SET NX` of a call, whenever it comes, is one event of its ride |
| `StoresRefineWorld.ConcludeRefines` | apps/api-gateway/src/services/ride.service.ts:149-159 | the last write of a call, whenever it comes, is one event of its ride |
| `StoresRefineWorld.RequestRefines` | apps/ride-worker/src/workers/ride-request.worker.ts:18-34 | a request job on the shared stores is one event of its ride |
| `StoresRefineWorld.MatchingRefines` | apps/ride-worker/src/workers/ride-matching.worker.ts:16-49 | a matching job on the shared stores is one event of its ride |
| `StoresRefineWorld.LifecycleRefines` | apps/ride-worker/src/workers/ride-lifecycle.worker.ts:364-389 | a lifecycle job on the shared stores is one event of its ride |
| `StoreRuns.StoresFollowWorld` | apps/ride-worker/src/workers/ride-lifecycle.worker.ts:364-399 | every sequence of work on the shared stores, calls cut at their awaits and interleaved, in which no client names an offer of another trip, is a run of the world of rides |
| `StoreRuns.WorldRunsAreStored` | apps/ride-worker/src/workers/ride-lifecycle.worker.ts:364-399 | every run of the world whose new offer ids are new in the table, and whose clients name no offer of another trip, is a run of the shared stores |
| `Isolation.StoresStayConsistent` | apps/api-gateway/src/services/ride.service.ts:125-228 | after any sequence of work, whatever offers clients name, every offer, key, job and call belongs to a trip in the table |
| `Isolation.OthersUntouchedIff` | apps/api-gateway/src/services/ride.service.ts:135-139 | after any sequence of work, whatever offers clients name: work about a trip leaves each other trip's row, keys, offers, jobs and calls as they were if and only if it is not a reject, an ACCEPT job of a REQUESTED trip or a timeout that changes the status of an offer of another trip |
| `ForeignOfferExample.ForeignAcceptCanStrandRide` | apps/api-gateway/src/services/ride.service.ts:135-159 | a run of the stores without any reject in which a trip is stranded, because its driver accepted another one with its offer |
| `StoreRuns.OtherTripsUntouched` | apps/ride-worker/src/workers/ride-lifecycle.worker.ts:82-90 | if no client has named an offer of another trip, work about one trip leaves every other trip's row, keys, offers and jobs as they were |
| `StoreRuns.StoredBusyDrive` | apps/ride-worker/src/workers/ride-lifecycle.worker.ts:101-105 | after any work, whoever is in `drivers:busy` is the driver of an ACCEPTED or STARTED row |
| `StoreRuns.StoredRideIsServed` | apps/ride-worker/src/matching/cascade.ts:119-298 | after any work without a reject of it and without foreign offer ids, a REQUESTED row has its creation under way, a queued request, a live matching job or a queued CANCEL |
| `StoreEffects.AcceptEffect` | apps/ride-worker/src/workers/ride-lifecycle.worker.ts:65-117 | what `handleAccept` leaves in the stores, in full: of a REQUESTED trip with an existing offer, row, OTP key for 15 minutes, busy mark, that offer ACCEPTED, the trip's other PENDING ones EXPIRED, its delayed timeouts gone with their ids; else nothing |
| `StoreEffects.VerifyEffect` | apps/ride-worker/src/workers/ride-lifecycle.worker.ts:141-206 | what a guess leaves: nothing without a live OTP; else the attempt counted for 15 minutes; the right one starts an ACCEPTED trip and deletes OTP and count, the third wrong one cancels |
| `StoreEffects.CompleteEffect` | apps/ride-worker/src/workers/ride-lifecycle.worker.ts:276-328 | what `handleComplete` leaves: a STARTED row completed at the clock with the tariff's fare and distance, a COMPLETED one as it is, the driver freed, the three keys gone; of any other trip, nothing |
| `StoreEffects.ConcludeEffect` | apps/api-gateway/src/services/ride.service.ts:149-376 | what the end of each kind of call leaves: its one job under its id, and the call over |
| `Platform.FiltersFindEligible` | apps/ride-worker/src/matching/cascade.ts:111-117 | searching by radius, then dropping those who are busy or whose lookup fails, then dropping the skipped gives the list whose members `Matching.AvailableIsEligible` names |
| `Platform.CascadeIsRightOnStores` | apps/ride-worker/src/matching/cascade.ts:96-206 | a cascade run writes a 30-second offer and its delayed timeout for a nearest registered driver it may ask within 5 or 10 km, or else the no-drivers CANCEL, the wider search, or the next run that skips a member without record, each exactly in its case |
| `Platform.OutcomeIsTheRides` | apps/ride-worker/src/workers/ride-lifecycle.worker.ts:364-389 | a handler on the stores ends, with the same error or none, as the handler of the ride |
| `Platform.Backend.CreateRide` | apps/api-gateway/src/services/ride.service.ts:57-121 | a known rider gets one new row, with his rider id, the distance of the request, status REQUESTED and nothing else set, and one request job; other rows stay; an unknown user changes nothing |
| `Platform.Backend.LockRide` | apps/api-gateway/src/services/ride.service.ts:141-147 | the lock is taken, for 300 s, exactly if none is there that has not expired |
| `Platform.Backend.AcceptRide` | apps/api-gateway/src/services/ride.service.ts:125-168 | success exactly for the owner of a PENDING offer who gets the lock; then lock and ACCEPT job are written, else nothing |
| `Platform.Backend.RejectRide` | apps/api-gateway/src/services/ride.service.ts:172-228 | the owner's offer becomes REJECTED whatever its status, and a chain skipping only him is queued at attempt 1 if the trip exists; anyone else changes nothing |
| `Platform.Backend.CheckAssigned` | apps/api-gateway/src/services/ride.service.ts:238-245 | the shared checks succeed exactly for the trip's driver in the given status |
| `Platform.Backend.VerifyOtpRequest` | apps/api-gateway/src/services/ride.service.ts:232-264 | the assigned driver of an ACCEPTED trip queues a guess, anyone else nothing |
| `Platform.Backend.CancelRide` | apps/api-gateway/src/services/ride.service.ts:268-317 | success if and only if the trip is REQUESTED or ACCEPTED and, if the user has a rider record, of that rider; then one CANCEL is queued, else nothing |
| `Platform.Backend.CancelLatestRide` | apps/api-gateway/src/services/ride.service.ts:285-317 | without a trip id, the first trip of the given order that is REQUESTED or ACCEPTED and, if the user has a rider record, of that rider gets the CANCEL, and no other; if there is none nothing is queued |
| `Platform.Backend.DriverCancelRide` | apps/api-gateway/src/services/ride.service.ts:321-347 | the assigned driver of an ACCEPTED trip queues a driver CANCEL, anyone else nothing |
| `Platform.Backend.CompleteRide` | apps/api-gateway/src/services/ride.service.ts:351-376 | the assigned driver of a STARTED trip queues a COMPLETE, anyone else nothing |
| `Platform.Backend.BeginCall` | apps/api-gateway/src/services/ride.service.ts:130-139 | the guards of any call, up to its first await that others can interleave with |
| `Platform.Backend.LockCall` | apps/api-gateway/src/services/ride.service.ts:141-147 | the call takes the free lock and goes on, or ends |
| `Platform.Backend.ConcludeCall` | apps/api-gateway/src/services/ride.service.ts:149-159 | the call queues its one job, the one `StoreEffects.ConcludeEffect` names, and ends |
| `Platform.Backend.ProcessRideRequest` | apps/ride-worker/src/workers/ride-request.worker.ts:18-34 | the request job is replaced by the first matching job |
| `Platform.Backend.FilterBusyDrivers` | apps/ride-worker/src/matching/cascade.ts:64-77 | the ids whose busy lookup succeeds and says no, in order |
| `Platform.Backend.RunCascadeMatching` | apps/ride-worker/src/matching/cascade.ts:96-206 | the stores change by exactly the writes of the cascade decision, which are the right ones in the sense of `CascadeIsRightOnStores`; other offers stay |
| `Platform.Backend.HandleOfferTimeout` | apps/ride-worker/src/matching/cascade.ts:211-245 | a PENDING offer is EXPIRED and a right cascade run, in the sense of `CascadeIsRightOnStores`, follows; otherwise nothing changes |
| `Platform.Backend.ProcessRideMatching` | apps/ride-worker/src/workers/ride-matching.worker.ts:16-49 | the job is finished, its id kept, and then its timeout or cascade does what is right: attempt 1 and nobody skipped if the job does not say |
| `Platform.Backend.RemoveTimeoutJobs` | apps/ride-worker/src/workers/ride-lifecycle.worker.ts:81-90 | the loop over the delayed jobs removes exactly this trip's delayed offer timeouts |
| `Platform.Backend.HandleAccept` | apps/ride-worker/src/workers/ride-lifecycle.worker.ts:60-117 | done if and only if the trip is REQUESTED and the offer exists: then driver, status and OTP are written, the OTP key for 15 minutes, the driver is marked busy, the offers are closed and this trip's delayed timeouts removed; otherwise nothing, with the source's error |
| `Platform.Backend.HandleVerifyOtp` | apps/ride-worker/src/workers/ride-lifecycle.worker.ts:141-206 | no live OTP changes nothing; otherwise the attempt is counted for another 15 minutes and the right guess starts an ACCEPTED trip, the third wrong one cancels as `HandleCancel` does, any other changes nothing else; it fails after the count if the trip has no row or a wrong status |
| `Platform.Backend.HandleCancel` | apps/ride-worker/src/workers/ride-lifecycle.worker.ts:210-245 | done if and only if the trip is REQUESTED or ACCEPTED: then its status is CANCELLED, its driver freed, its three keys gone, exactly its PENDING offers EXPIRED; otherwise nothing changes |
| `Platform.Backend.HandleComplete` | apps/ride-worker/src/workers/ride-lifecycle.worker.ts:270-328 | done if and only if the trip is STARTED or COMPLETED: a STARTED row is completed at the clock, with fare and distance to the cent; a COMPLETED one stays; driver freed and three keys gone in both cases; otherwise nothing changes |
| `Platform.Backend.ProcessRideLifecycle` | apps/ride-worker/src/workers/ride-lifecycle.worker.ts:364-389 | the job, whether its trip has a row or not, is finished and the stores change, and it ends, as its handler says |
| `Platform.Backend.Serve` | apps/ride-worker/src/workers/ride-lifecycle.worker.ts:364-389 | every unit of work of the three processes changes the stores as `StoreRuns` assumes |

## Left out

- Interleaving inside a job handler: each handler is one step. The source reads, validates and writes without a transaction (apps/ride-worker/src/workers/ride-lifecycle.worker.ts:65-99 and 213-223). `Races` says what that means for the status; what overlapping handlers of one trip do to its offers, keys and the busy set is not modelled.
- HandlerRefinement.CallIsRealized: assumes that the offer a client names is of the trip he names, which neither `acceptRide` nor `rejectRide` checks (apps/api-gateway/src/services/ride.service.ts:135-139 and 180-183). What the stores do otherwise is `Isolation.OthersUntouchedIff`.
- StoresRefineWorld.CallRefines: the same assumption.
- StoresRefineWorld.BeginRefines: the same assumption.
- Runs in which a call names a trip that does not exist. `Platform.Backend.AcceptRide` then takes a lock and queues an ACCEPT for it, as the source does, and `ProcessRideLifecycle` fails that job; in `StoreRuns` calls are about trips with a row.
- The link between the GEO set's members and users: the writer stores driver ids (apps/api-gateway/src/services/driver.service.ts:42), the matcher reads user ids (apps/ride-worker/src/matching/cascade.ts:39).
- Database errors other than a missing offer on ACCEPT, among them foreign keys and lost connections.
- Jobs with missing fields, START jobs and unknown actions; no gateway call queues one. A guess and a generated OTP have four digits in the source; here they are any strings.
- The cancellation without a trip id is no unit of work of its own in `StoreRuns`: on the stores it is `CancelRide` of the trip it picks. The creation times by which its query orders the trips are not modelled; the order is given.
- Failures between two writes of `handleAccept` or `handleCancel`; only `handleComplete` is written to be rerun.
- Removal of old job ids: the source configures none, so ids stay used for ever.
- Time between machines: one clock, and a delayed job may run at any moment from its due time on.
- Pages are cut from one fixed order of the rides; rows with equal creation time, or inserted between two requests, can move between pages in the source.
- Fares, distances and ETAs are reals; the rounding of IEEE doubles is not modelled. Distances come from PostGIS as any nonnegative real.
- Emitted socket events other than the location broadcast, logging, notifications, going online and offline, authentication and request validation.
- `getRideDetail` and the current-ride queries, which only read.
