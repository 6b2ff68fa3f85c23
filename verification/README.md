# Verification of the charging platform

A Dafny model of the protocols that carry a charging session: the charging-session service, the OCPP 1.6J
central system, refresh-token rotation on server and client, the charging history, the admin remote commands,
the idempotency wrapper, the charger simulator, and the money printer and parser of the driver application.
`dafny verify dfyconfig.toml` checks the whole project.

## How it is built

- A concurrent component is a state and a list of steps. Every `await` of the source ends a step, every
  `$transaction` is one step, and a run is any sequence of steps: any number of callers, sockets, timers,
  failing queries and stale snapshots in any order. The main results are about all runs. Beside them stand whole
  requests with no other step in between, which say what every kind of request is answered and leaves behind.
- The components that the source writes as objects are classes here as well (`ChargingService`,
  `Ocpp16CentralSystemService`, `PendingValue`, `AuthService`, `RestClient`, `AdminOperationsService`,
  `IdempotencyService`, `ChargerSimulator`). A method runs from one `await` to the next, updates the fields in
  place, is proved against the function that the run results are about, and keeps the object's invariant, the one
  of those results (`Valid()`, or the part of it that the method works on).
- Text, SQL and arithmetic (`Money`, `MeterSampling`, `HistoryPages`, `Timeline`) are functions with their laws;
  loops of the source are loops.

| module | what it covers |
|---|---|
| `SessionLifecycle`, `Charging`, `ChargingEffects`, `ChargingServiceModel` | the lifecycle graph and the transactions of the charging service |
| `EnergyConservation`, `ConnectorExclusivity`, `AuditReplay` | what every run of those transactions keeps |
| `GatewayCalls`, `GatewayAnswers`, `IdempotencyServiceModel` | `start` and `stop` with the gateway and the idempotency wrapper, and what their callers are answered |
| `MeterSample`, `OcppTransactions`, `OcppMeterOrder`, `TransactionFrames` | meter frames on several sockets against one transaction row, and what each frame is answered |
| `OcppWakeup`, `WaiterRuns`, `OcppHandlersWake`, `PendingValueModel` | waiting for a StartTransaction or StopTransaction |
| `OcppDispatch` | answering each CALL once |
| `OcppCommands`, `OcppConnections` | commands to charge points, the connection registry |
| `CentralSystemModel` | the central system object |
| `OcppEndToEnd`, `TransactionRefinement`, `WholeCharging`, `MeteredEnergy`, `OcppSockets` | from the meter of the charge point to the billed energy, over one connection and over several |
| `TokenFamilies`, `RestClient`, `RefreshReuse`, `RefreshOutcomes`, `AuthServiceModel`, `RestClientModel` | refresh tokens, server and client together |
| `HistoryPages`, `MeterSampling`, `Timeline`, `Ordering` | the history read path |
| `RemoteCommands`, `RemoteAnswers`, `AdminOperationsModel` | idempotent admin commands |
| `Simulator`, `SimulatorCalls`, `ChargerSimulatorModel` | the charger simulator |
| `Money` | the money printer and parser |

## Where the code differs from what it is expected to do

Each of these is a lemma with the situation that shows it, next to the exact condition under which the code does
what one would expect.

- A COMPLETED OCPP transaction need not have `meterStopWh` equal to `lastMeterWh`: a frame with two samples, read
  again between them, can be overtaken by a StopTransaction on another socket (`CompletedNeedNotStopAtLast`,
  `StopIsLastUnlessLateSample`). It holds on one connection, and with one sample a frame.
- The energy of a session never falls over one connection (`EnergyNeverFalls`). With two, samples can be delivered
  in another order than they were stored, and a smaller sample then lowers the energy
  (`TwoConnectionsLowerTheEnergy`, exactly when: `EnergyRisesIffInOrder`).
- A StopTransaction whose compare-and-set is lost still notifies the waiting caller, with a meter that nobody
  stored; a repeated StartTransaction notifies with its own meter (`LostStopIsAnnounced`, `RepeatedStartIsAnnounced`;
  exactly when: `AnnouncedStopIsStoredIff`, `RepeatedStartAnnouncesItsOwnMeter`).
- docs/architecture/ocpp-16-adapter.md promises that a repeated CALL is answered without repeating its effects.
  That holds unless writing the response fails: the repeat is then handled again (`HandledTwice`, exactly how often:
  `EveryDispatchIsAccountedFor`).
- A stop whose publication throws is stored, but the caller that waits for it is left to its timer, and no repeated
  StopTransaction tells it (`FailedPublicationStrandsTheWaiter`, `LostStopsAreNeverAnnounced`; exactly when:
  `TheEntryIsForgottenIff`).
- A response whose row update fails leaves the caller of the command unsettled (`FailedUpdateStrandsTheCaller`,
  exactly when: `CallersAreToldUnlessStranded`).
- Connection status rows can end up wrong after a quick reconnect or a failing write, and stay CONNECTED after a
  shutdown (`LateDisconnectHidesTheReconnect`; exactly when: `RowsAgreeWithTheRegistryIff`, `ShutdownFreezesTheRows`).
- The idempotency wrapper can run a producer again in the gap between its lookup and its lock (`ProducerRunsTwice`,
  exactly when: `ProducesAgainIff`), or beside another one after a lock has expired (`TwoProduceAtOnce`, exactly when:
  `ExclusiveIff`); the gateway is called once all the same (`GatewayIsCalledOnce`).
- If deleting the stored tokens fails after a refresh whose response was lost, and nothing writes or deletes tokens
  before the next refresh, the client posts the token again, and the server takes it for a thief and kills its session
  (`FailedClearKillsTheSession`; exactly when: `TokensArePostedOnceIff`, `RepeatsIffLingers`). While no token is posted
  twice, the client is treated as reuse exactly when somebody else revoked its token, and then it loses nothing further
  (`RotatedTokensAreNeverPresented`).
- A sign-out or sign-in that crosses a refresh can be undone by it (`SignOutIsUndone`,
  `FailedRefreshDropsANewSession`; exactly when: `SignOutAndSessionLastIff`, `UncrossedSignOutLastsIff`).
- README.md line 195 of the repository calls start and stop of the simulator idempotent. A repeated start answers
  the meter of the moment, and a repeated stop is refused after a late callback failure
  (`RepeatedStartAnswersTheSameIff`, `RepeatedStopAnswersTheSameIff`). Such a failure also faults the connector under
  whatever session charges there by then (`LateFailureFaultsANewSession`).
- The timeline is determined by the audit log exactly when the audit instants strictly rise
  (`TimelineIsThePathIffStrict`).
- With fewer than three points the downsampler drops the last sample of a set that does not fit
  (`LastSampleSurvivesIff`), and with one point it answers two (`TinyLimitsKeepTheFirstTwo`); the service asks for ten
  or more.
- A start that throws behind its commit fails the session that charges by then, and a stop that does so is answered
  with an error although the session is completed and billed (`UnsettledFails`). A StopTransaction of a transaction
  that never ran is accepted and announced though nothing is stored (`StopIsAnswered`).

## Model

| member | source | states |
|---|---|---|
| `SessionLifecycle.EdgesClimb` | apps/backend/src/charging/domain/charging-session-state-machine.ts:14-23 | every edge of the lifecycle graph goes to a strictly higher rank, so no status is entered twice |
| `SessionLifecycle.EdgesFollowThePath` | apps/backend/src/charging/domain/charging-session-state-machine.ts:14-23 | the graph leads along one way from PENDING to COMPLETED, a session may fail from every status before that and be cancelled until it charges, and the last three statuses lead nowhere |
| `ChargingServiceModel.ChargingService.Transition` | apps/backend/src/charging/charging.service.ts:899-964 | a transition commits exactly along an edge against the status and version as read, within the row checks; then that row alone takes target and next version, with one audit entry and one outbox event, and otherwise nothing changes |
| `ChargingServiceModel.ChargingService.Create` | apps/backend/src/charging/charging.service.ts:109-243 | an admissible creation commits exactly when the connector is available and free and the key is new to the user; it reserves the connector, adds a PENDING row and logs it; like every method below it keeps one active session a connector, one session a key, true logs and true totals |
| `ChargingServiceModel.ChargingService.Authorize` | apps/backend/src/charging/charging.service.ts:255-275 | succeeds exactly for a PENDING or AUTHORIZED session, which is AUTHORIZED afterwards |
| `ChargingServiceModel.ChargingService.PrepareStart` | apps/backend/src/charging/charging.service.ts:332-378 | the gateway is to be called exactly when this transaction moved the session from AUTHORIZED to STARTING, and nothing changes otherwise |
| `ChargingServiceModel.ChargingService.CommitStart` | apps/backend/src/charging/charging.service.ts:399-430 | a STARTING session charges with the start meter on an occupied connector, or everything is rolled back |
| `ChargingServiceModel.ChargingService.PrepareStop` | apps/backend/src/charging/charging.service.ts:455-485 | the gateway is to be called exactly when this transaction moved the session from CHARGING to STOPPING, and nothing changes otherwise |
| `ChargingServiceModel.ChargingService.BeginStopEvent` | apps/backend/src/charging/charging.service.ts:541-554 | against a charging snapshot it succeeds exactly when the row still has its status and version, and is STOPPING then |
| `ChargingServiceModel.ChargingService.CompleteSession` | apps/backend/src/charging/charging.service.ts:699-754 | a session that completes holds the given stop meter, or the start meter if that is higher, and their distance as its energy; its connector is available and has no active session, and the user total is still the opening total plus the completed sessions; a completed session is left alone |
| `ChargingServiceModel.ChargingService.RecordMeterValue` | apps/backend/src/charging/charging.service.ts:594-691 | a session that still charges holds the sample afterwards, with its connector out of offline; other sessions stay |
| `ChargingServiceModel.ChargingService.MarkRecoverableDisconnect` | apps/backend/src/charging/charging.service.ts:770-849 | the status stays, the connector of a charging or stopping session is offline, and one log entry is added |
| `ChargingServiceModel.ChargingService.FailSession` | apps/backend/src/charging/charging.service.ts:851-897 | afterwards the session is terminal and a session that failed now leaves no active one on its connector |
| `ChargingEffects.StepHasEffect` | apps/backend/src/charging/charging.service.ts:899-964 | every committed charging transaction has one of a few shapes, row, meters, connector, totals and logs together, and anything else changes nothing |
| `ChargingEffects.CommitsIff` | apps/backend/src/charging/charging.service.ts:322-964 | a transaction commits exactly when its session, owner, connector and versions are as it needs them, or when there is nothing left to do; it has its effect in the first case and none in the second, and start and stop are to call the gateway exactly in the first |
| `ChargingEffects.EnergyIsTheMeterDistance` | apps/backend/src/charging/charging.service.ts:706-745 | after any run the energy of every session is the distance from its start meter to its stop meter, and a completed session has both |
| `ChargingEffects.RowsMoveForward` | apps/backend/src/charging/charging.service.ts:899-931 | a step only appends rows or moves an active row to its next version along an edge or within its status |
| `ChargingEffects.TerminalRowsAreFrozen` | apps/backend/src/charging/charging.service.ts:667-685 | a terminal row, its energy with it, never changes again in any run |
| `ChargingEffects.RankNeverFalls` | apps/backend/src/charging/charging.service.ts:899-931 | the rank of a session never falls over a run |
| `EnergyConservation.StepConserves` | apps/backend/src/charging/charging.service.ts:693-754 | one step keeps the difference between a user total and the energy of that user's completed sessions |
| `EnergyConservation.EnergyIsConserved` | apps/backend/src/charging/charging.service.ts:510-563 | over any run the total moves by exactly the energy of the sessions the run completed, with any stale rows, duplicates and races |
| `EnergyConservation.TotalsAreSums` | apps/backend/src/charging/charging.service.ts:693-754 | from fresh tables the total is the initial value plus the sum over the completed sessions |
| `EnergyConservation.RepeatedStopsAreFree` | apps/backend/src/charging/charging.service.ts:455-470 | stopping or completing a completed session by any route changes nothing at all |
| `EnergyConservation.CompletionCreditsOnce` | apps/backend/src/charging/charging.service.ts:699-754 | of two racing completions exactly the first is credited, with the meter difference and never less than nothing |
| `ConnectorExclusivity.NeverTwoActive` | apps/backend/src/charging/charging.service.ts:181-197 | no connector ever has two active sessions, under all transactions, lost charge points and status overrides |
| `ConnectorExclusivity.AvailableIsFreeUnlessOverridden` | apps/backend/src/charging/charging.service.ts:410-416 | a step keeps "available means free" if and only if it is not an override that offers a busy connector |
| `ConnectorExclusivity.AvailableConnectorsAreFree` | apps/backend/src/charging/charging.service.ts:722-728 | over every run without overrides an available connector has no active session |
| `ConnectorExclusivity.AvailableConnectorsCanBeReserved` | apps/backend/src/charging/charging.service.ts:109-197 | in such runs a creation succeeds if and only if it is admissible, the connector is available and the key is new: the index on active sessions never has to refuse it |
| `ConnectorExclusivity.NeverTwoSessionsAKey` | packages/database/prisma/migrations/202607200001_init/migration.sql:404 | in every run a user's idempotency key names at most one session |
| `AuditReplay.StepKeepsLogs` | apps/backend/src/charging/charging.service.ts:936-964 | one step keeps audit log and outbox a replay of every session |
| `AuditReplay.EverySessionReplays` | apps/backend/src/charging/charging.service.ts:214-240 | after any run the entries of every session are a path of the lifecycle graph from creation to the current status with growing versions, and the outbox says the same entry by entry |
| `AuditReplay.PathsClimb` | apps/backend/src/charging/charging.service.ts:936-964 | along such a path statuses and versions strictly climb, so no status appears twice |
| `GatewayCalls.PrepareEnters` | apps/backend/src/charging/charging.service.ts:332-378 | the gateway flag is raised only by the transaction that itself entered STARTING or STOPPING |
| `GatewayCalls.NextKeepsOnce` | apps/backend/src/charging/charging.service.ts:455-485 | every step of every caller keeps the calls and the claims to call distinct |
| `GatewayCalls.GatewayIsCalledOnce` | apps/backend/src/charging/charging.service.ts:322-395 | for any number of callers with any keys, expiring locks and other transactions in between, no session is started twice and none is stopped twice at the gateway |
| `GatewayCalls.StaysExclusiveIff` | apps/backend/src/common/idempotency.service.ts:22-40 | a step keeps at most one caller a key at work if and only if no caller takes a free lock while another one is at work on its key |
| `GatewayCalls.ExclusiveIff` | apps/backend/src/common/idempotency.service.ts:22-40 | over any run at most one caller a key is at work at every moment if and only if no such step occurs |
| `GatewayCalls.ExclusiveIfLocksOutlive` | apps/backend/src/common/idempotency.service.ts:22-40 | that is so as long as no lock expires under its holder |
| `GatewayCalls.TwoProduceAtOnce` | apps/backend/src/common/idempotency.service.ts:22-40 | a run of seven steps in which a lock expires and two requests with one key are about to run the producer |
| `GatewayCalls.ProducesAgainIff` | apps/backend/src/common/idempotency.service.ts:19-30 | a stored operation is produced again by a step if and only if a caller that found nothing at its lookup takes the free lock |
| `GatewayCalls.LaterCallersAreCached` | apps/backend/src/common/idempotency.service.ts:19-20 | once a result is stored and until it expires, everybody who had not looked yet is answered from the store |
| `GatewayCalls.ProducerRunsTwice` | apps/backend/src/common/idempotency.service.ts:15-41 | a run of nine steps in which that happens: two requests with one key, both past the lookup, run the producer twice |
| `GatewayAnswers.StartIsReplied` | apps/backend/src/charging/charging.service.ts:322-446 | undisturbed, with a key or without, a start whose gateway answers m is replied to with the session CHARGING from m on an occupied connector, one gateway call, and its two transitions logged at their instants |
| `GatewayAnswers.StopIsReplied` | apps/backend/src/charging/charging.service.ts:447-508 | undisturbed, a stop whose gateway answers is replied to with the session COMPLETED at that meter, or its start meter if that is higher, its user billed the distance and its connector available |
| `GatewayAnswers.UnansweredFails` | apps/backend/src/charging/charging.service.ts:432-441 | undisturbed, a request whose registration is refused or whose gateway call fails ends in an error and a FAILED session, with a free connector and no bill |
| `GatewayAnswers.UnsettledFails` | apps/backend/src/charging/charging.service.ts:492-505 | undisturbed, a request that throws behind its commit ends in an error all the same: the charging session is failed after all, a completed one stays completed and billed |
| `GatewayAnswers.RepeatIsReplied` | apps/backend/src/charging/charging.service.ts:338-346 | undisturbed, a start of a session that is starting or charging, and a stop of one that is stopping or completed, is replied to without a gateway call or any change |
| `GatewayAnswers.OthersAreRefused` | apps/backend/src/charging/charging.service.ts:337-371 | undisturbed, every other request, of a stranger, in another status or at a taken connector, ends in an error and changes nothing |
| `GatewayAnswers.KnownKeysAreAnswered` | apps/backend/src/common/idempotency.service.ts:17-30 | a stored key is answered from the store, a locked one is refused, and neither reaches the tables |
| `GatewayAnswers.UnstoredReplyFails` | apps/backend/src/common/idempotency.service.ts:32-41 | a reply that cannot be stored becomes an error although its transaction has committed |
| `GatewayAnswers.ExpiredKeysAreNewAgain` | apps/backend/src/common/idempotency.service.ts:22-38 | what expires is forgotten and nothing else: the next request with that key runs its producer |
| `GatewayAnswers.StumblesIff` | apps/backend/src/charging/charging.service.ts:432-441 | in any state a caller turns to failing its session in a step if and only if its registration, its gateway call, its commit or what follows the commit fails in that step |
| `GatewayAnswers.OnlyTheFailingFail` | apps/backend/src/charging/charging.service.ts:851-897 | a step fails a session only for a caller that turned to it, or as a transaction of somebody else |
| `GatewayAnswers.OnlyStumblersFail` | apps/backend/src/charging/charging.service.ts:432-441 | over every run: who is about to fail a session has stumbled so, and who has stumbled never gets a reply |
| `IdempotencyServiceModel.IdempotencyService.Execute` | apps/backend/src/common/idempotency.service.ts:9-42 | undisturbed, the producer runs unless a result or a lock is there; the lock is gone again on every path; a result is kept only after success |
| `MeterSample.ExtractMeterSample` | apps/backend/src/ocpp/ocpp16-central-system.service.ts:792-819 | the loop over the sampled values reads meter, power and battery as their last values say, and refuses a bad number or a missing energy value |
| `MeterSample.ExtractReadsTheLastValues` | apps/backend/src/ocpp/ocpp16-central-system.service.ts:797-819 | a sample that is not refused reads the last value of each kind: the meter in kWh times 1000 or as it is, to the nearest watt-hour, power in kW or in W by 1000, the battery to the nearest percent and at most 100; it has no energy only if no value is a register and none is known |
| `MeterSample.LastStandsAlone` | apps/backend/src/ocpp/ocpp16-central-system.service.ts:797-808 | behind the last value of a kind the sample holds none of that kind, and none at all if there is no last one |
| `MeterSample.WholeMetersAreExact` | apps/backend/src/ocpp/ocpp16-central-system.service.ts:797-808 | a register of w watt-hours, sent in kWh or in any other unit or none, with its measurand or without, is read as exactly w |
| `MeterSample.BadNumberIffAnyIsBad` | apps/backend/src/ocpp/ocpp16-central-system.service.ts:101-110 | a sample is refused for a bad number if and only if one of its values is not a finite non-negative number |
| `OcppTransactions.NextKeepsInv` | apps/backend/src/ocpp/ocpp16-central-system.service.ts:738-790 | every handler step keeps the row ordered and every snapshot older than the row or equal to it |
| `OcppTransactions.MetersStayOrdered` | apps/backend/src/ocpp/ocpp16-central-system.service.ts:838-859 | after any interleaving of stale handlers on any sockets the start meter is not above the last one, and a completed row has a stop meter not above the last one |
| `OcppMeterOrder.LastFallsOnlyAtAStart` | apps/backend/src/ocpp/ocpp16-central-system.service.ts:706-731 | the last meter falls in a step if and only if that step stores a StartTransaction below it |
| `OcppMeterOrder.LastNeverFallsWithinAnEpoch` | apps/backend/src/ocpp/ocpp16-central-system.service.ts:756-788 | from a StartTransaction to the next remote start the last meter never falls |
| `OcppMeterOrder.CheckGuardsOnlyLaterStarts` | packages/database/prisma/migrations/202607210001_ocpp16_adapter/migration.sql:55-58 | the monotonic constraint refuses a matching write if and only if a later StartTransaction starts above the stop meter of an earlier epoch |
| `OcppMeterOrder.CompletedIsLeftOnlyByRemoteSteps` | apps/backend/src/ocpp/ocpp16-central-system.service.ts:303-306 | a step takes a row out of COMPLETED if and only if it is a remote start or a remote stop |
| `OcppMeterOrder.StopIsLastUnlessLateSample` | apps/backend/src/ocpp/ocpp16-central-system.service.ts:756-772 | "a completed row stops at its last meter" is lost in a step if and only if that step writes a larger sample onto a row that the handler read again as completed |
| `OcppMeterOrder.LateSampleOvertakesTheStop` | apps/backend/src/ocpp/ocpp16-central-system.service.ts:770-773 | the general way to lose it: a StopTransaction on another socket between two growing samples of one frame |
| `OcppMeterOrder.CompletedNeedNotStopAtLast` | apps/backend/src/ocpp/ocpp16-central-system.service.ts:756-788 | the same as a whole run from nothing |
| `OcppMeterOrder.SingleSamplesStopAtLast` | apps/backend/src/ocpp/ocpp16-central-system.service.ts:756-788 | with one sample in every frame completed rows stop at their last meter in every run |
| `OcppMeterOrder.OneConnectionStopsAtLast` | apps/backend/src/ocpp/ocpp16-central-system.service.ts:421-429 | on one connection they do for frames with any number of samples |
| `OcppMeterOrder.AnnouncedStopIsStoredIff` | apps/backend/src/ocpp/ocpp16-central-system.service.ts:838-872 | the meter a StopTransaction announces is the stored stop meter if and only if its write went through or the row held that meter already |
| `OcppMeterOrder.RepeatedStartAnnouncesItsOwnMeter` | apps/backend/src/ocpp/ocpp16-central-system.service.ts:698-735 | a repeated StartTransaction leaves the row alone and announces the meter of its own frame |
| `OcppMeterOrder.LostStopIsAnnounced` | apps/backend/src/ocpp/ocpp16-central-system.service.ts:838-872 | a run from nothing in which the waiter is told a stop meter that the row never gets |
| `OcppMeterOrder.RepeatedStartIsAnnounced` | apps/backend/src/ocpp/ocpp16-central-system.service.ts:698-735 | a run from nothing in which the waiter is told a start meter that the row does not hold |
| `CentralSystemModel.Ocpp16CentralSystemService.ReadForStart` | apps/backend/src/ocpp/ocpp16-central-system.service.ts:678-706 | up to the write: the waiter is notified at once exactly for a repeat on an ACTIVE row whose meter is not below the start; like every method on the transaction it keeps the meters ordered and the snapshots older |
| `CentralSystemModel.Ocpp16CentralSystemService.WriteStart` | apps/backend/src/ocpp/ocpp16-central-system.service.ts:706-731 | the start is stored exactly when the row is as read and no earlier stop meter lies below it |
| `CentralSystemModel.Ocpp16CentralSystemService.ReadForMeter` | apps/backend/src/ocpp/ocpp16-central-system.service.ts:738-754 | a frame is taken up exactly for an active or stopping transaction |
| `CentralSystemModel.Ocpp16CentralSystemService.WriteSample` | apps/backend/src/ocpp/ocpp16-central-system.service.ts:756-769 | one sample is stored if it does not run backwards and the version is as read; the last meter never falls |
| `CentralSystemModel.Ocpp16CentralSystemService.HandleSample` | apps/backend/src/ocpp/ocpp16-central-system.service.ts:756-788 | one round of the sample loop without interference: stored, read again and handed to the relay, which may throw |
| `CentralSystemModel.Ocpp16CentralSystemService.HandleMeterValues` | apps/backend/src/ocpp/ocpp16-central-system.service.ts:738-790 | the whole loop without interference stores and publishes samples until one is refused or the relay throws |
| `CentralSystemModel.FramesMeterForward` | apps/backend/src/ocpp/ocpp16-central-system.service.ts:756-788 | alone, a frame publishes meters that never run backwards, the row ends at the last of them, and it is accepted if and only if all samples were stored and delivered |
| `CentralSystemModel.FramesReadTheirSamples` | apps/backend/src/ocpp/ocpp16-central-system.service.ts:756-788 | alone, a frame publishes what its samples read, each after the meter before it; when it stops short, its last event was not delivered or the next sample cannot be read or runs backwards |
| `TransactionFrames.StartIsAnswered` | apps/backend/src/ocpp/ocpp16-central-system.service.ts:678-736 | undisturbed, a StartTransaction of a pending remote start is accepted exactly when it lies not below the start meter nor above an earlier stop meter, and then the row is ACTIVE at it and the waiter told; on an active row it is accepted and announced exactly when it lies not below the start; else it is refused without a trace |
| `TransactionFrames.StopIsAnswered` | apps/backend/src/ocpp/ocpp16-central-system.service.ts:820-874 | undisturbed, a StopTransaction of a running transaction whose meter runs on completes the row at that meter, and is accepted and announced exactly when its publication succeeds; on a completed row it is accepted and nothing happens; on one that never ran it is accepted and announced though nothing is stored; else it is refused |
| `TransactionFrames.SampleIsAnswered` | apps/backend/src/ocpp/ocpp16-central-system.service.ts:738-790 | undisturbed, a register of some watt-hours that runs on is the last meter of an active or stopping transaction from then on and is published, and its frame accepted exactly when the publication succeeds; else it is refused without a trace |
| `TransactionFrames.RemoteWrites` | apps/backend/src/ocpp/ocpp16-central-system.service.ts:236-306 | a remote start, a remote stop and a failing one set REMOTE_START_PENDING, STOPPING and FAILED, keep every meter and take the next version |
| `TransactionFrames.LateWritesStoreNothing` | apps/backend/src/ocpp/ocpp16-central-system.service.ts:706-859 | a handler whose row has moved on stores nothing: start and sample are refused, a stop is announced all the same |
| `CentralSystemModel.Ocpp16CentralSystemService.ReadForStop` | apps/backend/src/ocpp/ocpp16-central-system.service.ts:820-845 | it goes on to write exactly for a transaction that is not completed and a meter that does not run backwards |
| `CentralSystemModel.Ocpp16CentralSystemService.WriteStop` | apps/backend/src/ocpp/ocpp16-central-system.service.ts:846-860 | either the stop is stored, completed at its last meter, and to be published, or the row stays and the handler goes on to the notification; the constraint never refuses it |
| `OcppWakeup.EntryStaysAwakeIff` | apps/backend/src/ocpp/ocpp16-central-system.service.ts:860-873 | a step keeps something coming that settles the waiter in the map, unless the row offers nothing, if and only if it is not a failing publication or a failing second query that was the last such thing |
| `OcppWakeup.TheEntryIsForgottenIff` | apps/backend/src/ocpp/ocpp16-central-system.service.ts:1017-1056 | the same over all runs and any number of waiters |
| `OcppWakeup.FailedPublicationStrandsTheWaiter` | apps/backend/src/ocpp/ocpp16-central-system.service.ts:860-873 | a run in which the stop is stored, its publication throws, and the waiter has nothing left to come but its timer |
| `OcppWakeup.StartsAreNeverDropped` | apps/backend/src/ocpp/ocpp16-central-system.service.ts:706-732 | a start is announced right after its write, so no failing publication loses its wake-up |
| `OcppWakeup.ResolvedIffTold` | apps/backend/src/ocpp/ocpp16-central-system.service.ts:1022-1056 | a waiter gets a meter in a step if and only if its first check, a second check or a notification brings that meter |
| `OcppWakeup.ToldWhatWasStoredOrAnnounced` | apps/backend/src/ocpp/ocpp16-central-system.service.ts:1022-1056 | in every run what a check told was stored, and a meter nobody stored comes only from a notification without a write |
| `OcppWakeup.OrphansComeFromOverwriting` | apps/backend/src/ocpp/ocpp16-central-system.service.ts:1027-1031 | a waiter drops out of the map unsettled if and only if another one registers over it |
| `OcppWakeup.NoLostWakeUp` | apps/backend/src/ocpp/ocpp16-central-system.service.ts:1017-1056 | without overwriting, a waiter whose second check has ended is still waiting only if that check found nothing and no notification has run since it registered; if nothing was forgotten, then the row offers nothing or a notification is to come |
| `OcppWakeup.OneWaiterNeverOverwrites` | apps/backend/src/ocpp/ocpp16-central-system.service.ts:222-280 | one waiter a session, which is all the charging service makes, never overwrites |
| `OcppWakeup.SecondWaiterSilencesTheFirst` | apps/backend/src/ocpp/ocpp16-central-system.service.ts:1027-1031 | why one is needed: from a state with two waiters on a session the wake-up of the first is lost; the charging service never gets there |
| `WaiterRuns.WaitingRun` | apps/backend/src/ocpp/ocpp16-central-system.service.ts:1017-1031 | a waiter whose first check finds a meter gets it at once; any other is registered, in place of whoever was, with its second check out |
| `WaiterRuns.SecondCheck` | apps/backend/src/ocpp/ocpp16-central-system.service.ts:1031-1040 | the second check settles the waiter with the meter of the moment or leaves it waiting, as a failing one does |
| `WaiterRuns.WaiterIsNotified` | apps/backend/src/ocpp/ocpp16-central-system.service.ts:1017-1056 | a waiter that finds nothing twice is given the meter that is stored, published and announced next |
| `WaiterRuns.DroppedNoticeSettlesNobody` | apps/backend/src/ocpp/ocpp16-central-system.service.ts:860-873 | a stop whose publication throws is stored and tells nobody |
| `WaiterRuns.WaitsInVain` | apps/backend/src/ocpp/ocpp16-central-system.service.ts:1022-1029 | the timer rejects its waiter and empties the map; a first check that fails refuses its own |
| `PendingValueModel.PendingValue.Continue` | apps/backend/src/ocpp/ocpp16-central-system.service.ts:1023-1030 | after the first check: settled with a stored meter, or registered as the entry of the map |
| `PendingValueModel.PendingValue.Notify` | apps/backend/src/ocpp/ocpp16-central-system.service.ts:1042-1056 | the waiter in the map leaves it with the meter of the notification |
| `PendingValueModel.PendingValue.FinishRecheck` | apps/backend/src/ocpp/ocpp16-central-system.service.ts:1031-1038 | the second check settles whoever is in the map |
| `PendingValueModel.PendingValue.Expire` | apps/backend/src/ocpp/ocpp16-central-system.service.ts:1026-1029 | the timer empties the map and rejects its own waiter, no other |
| `OcppHandlersWake.StepFits` | apps/backend/src/ocpp/ocpp16-central-system.service.ts:698-873 | every step of the handlers and remote commands is a step, or none or two, of the wake-up protocol, with the row as what the checks read |
| `OcppHandlersWake.HandlersRunTheProtocol` | apps/backend/src/ocpp/ocpp16-central-system.service.ts:698-1056 | any run of frames, remote commands and waiters on a transaction is a run of the wake-up protocol |
| `OcppHandlersWake.LostStopsAreNeverAnnounced` | apps/backend/src/ocpp/ocpp16-central-system.service.ts:830-836 | a stop whose publication failed is never announced later, by no frame and no repeated StopTransaction, until a remote command reopens the row |
| `OcppDispatch.KeyIsInjective` | apps/backend/src/ocpp/ocpp16-central-system.service.ts:500 | the joined in-flight key tells calls apart as long as charge point ids hold no colon |
| `OcppDispatch.NextKeepsInv` | apps/backend/src/ocpp/ocpp16-central-system.service.ts:496-576 | every step keeps the in-flight map exact and every handler run accounted for |
| `OcppDispatch.EveryDispatchIsAccountedFor` | apps/backend/src/ocpp/ocpp16-central-system.service.ts:510-576 | in every run, with failing queries, a handler ran once for the stored response, once for every response lost to a failed write and at most once more that is going on; the unique index is never hit |
| `OcppDispatch.HandlersRunAtMostOnce` | apps/backend/src/ocpp/ocpp16-central-system.service.ts:510-576 | without a failing write no call is handled twice, however often it arrives |
| `OcppDispatch.StepRefinesTheMap` | apps/backend/src/ocpp/ocpp16-central-system.service.ts:545-556 | in-flight map and log refine one map from call to first response |
| `OcppDispatch.RepeatsGetTheStoredFrame` | apps/backend/src/ocpp/ocpp16-central-system.service.ts:496-521 | all answered callers of one call, concurrent or later, get the identical stored frame |
| `OcppDispatch.FailedStoreHandlesAgain` | apps/backend/src/ocpp/ocpp16-central-system.service.ts:545-559 | after a failed write a repeat of the call is handled again |
| `OcppDispatch.HandledTwice` | apps/backend/src/ocpp/ocpp16-central-system.service.ts:496-572 | the same as a run from nothing |
| `OcppDispatch.StoredFramesAreTheHandlers` | apps/backend/src/ocpp/ocpp16-central-system.service.ts:525-556 | in every run a stored response is the frame that a handler of that very call answered with |
| `OcppDispatch.NewCallIsHandled` | apps/backend/src/ocpp/ocpp16-central-system.service.ts:510-576 | undisturbed, a new call runs its handler once, stores its frame and is answered with it, or with nothing if the write fails |
| `OcppDispatch.StoredCallIsReplayed` | apps/backend/src/ocpp/ocpp16-central-system.service.ts:514-523 | undisturbed, a call with a stored response is answered with that, and no handler runs |
| `OcppDispatch.CallInFlightJoins` | apps/backend/src/ocpp/ocpp16-central-system.service.ts:500-502 | a call that is in flight joins its execution and changes nothing else |
| `OcppDispatch.ClashAnswersTheStoredFrame` | apps/backend/src/ocpp/ocpp16-central-system.service.ts:557-570 | an insert that meets the unique index answers with the row it met |
| `OcppDispatch.FailedLookupAnswersNothing` | apps/backend/src/ocpp/ocpp16-central-system.service.ts:514-523 | a lookup that fails answers nobody and runs no handler |
| `CentralSystemModel.Ocpp16CentralSystemService.ProcessIncomingCall` | apps/backend/src/ocpp/ocpp16-central-system.service.ts:496-508 | the call waits for an execution of its own id that has not ended, joined or opened; like the methods below it keeps the calls in flight exact and handler runs accounted for |
| `CentralSystemModel.Ocpp16CentralSystemService.ReadLog` | apps/backend/src/ocpp/ocpp16-central-system.service.ts:514-523 | read the log |
| `CentralSystemModel.Ocpp16CentralSystemService.AnswerOrDispatch` | apps/backend/src/ocpp/ocpp16-central-system.service.ts:523-528 | the handler runs exactly when no response is stored, otherwise the stored frame is the answer |
| `CentralSystemModel.Ocpp16CentralSystemService.StoreResponse` | apps/backend/src/ocpp/ocpp16-central-system.service.ts:545-572 | the first response of the call is stored, or the write failed; the unique index is never met |
| `CentralSystemModel.Ocpp16CentralSystemService.FinishCall` | apps/backend/src/ocpp/ocpp16-central-system.service.ts:503-505 | the key leaves the map and every execution of the call has ended |
| `OcppCommands.TimerIffPendingIffUnclaimed` | apps/backend/src/ocpp/ocpp16-central-system.service.ts:933-978 | in every run a command has a live timer exactly while it is pending, and is pending exactly while it was sent and nothing has claimed it |
| `OcppCommands.ClaimsAreFinal` | apps/backend/src/ocpp/ocpp16-central-system.service.ts:900-978 | what claimed a command and what its caller was told never change: response, timeout, send error or shutdown, exactly one |
| `OcppCommands.OnlyTheOwnChargePointAnswers` | apps/backend/src/ocpp/ocpp16-central-system.service.ts:904-913 | a response does something if and only if it names a pending command of the same charge point, and touches no other command |
| `OcppCommands.FailedUpdateStrandsTheCaller` | apps/backend/src/ocpp/ocpp16-central-system.service.ts:914-930 | a run of four steps that leaves a caller unsettled |
| `OcppCommands.CallersAreToldUnlessStranded` | apps/backend/src/ocpp/ocpp16-central-system.service.ts:914-931 | in every run a claimed command has told its caller, or is about to, except if and only if the row update of its response failed and no send error followed |
| `OcppCommands.CallersAreToldAsItWent` | apps/backend/src/ocpp/ocpp16-central-system.service.ts:900-978 | in every run a caller is told of an answer if and only if the row of a CALLRESULT of its own charge point was updated before anything else settled its command, and is rejected if and only if its row was not written, a CALLERROR came, the timer fired, the socket failed or the server shut down first |
| `OcppCommands.StepTells` | apps/backend/src/ocpp/ocpp16-central-system.service.ts:900-978 | in one step: what a command is claimed by and what its caller is told |
| `OcppCommands.RecordingSends` | apps/backend/src/ocpp/ocpp16-central-system.service.ts:936-963 | a command whose row is written is pending with its charge point and has a timer, one whose row is not written rejects its caller |
| `CentralSystemModel.Ocpp16CentralSystemService.RegisterAndSend` | apps/backend/src/ocpp/ocpp16-central-system.service.ts:950-975 | the command is pending with its timer, or its caller is rejected; like the methods below it keeps timers, pending commands and claims together |
| `CentralSystemModel.Ocpp16CentralSystemService.ProcessCommandResponse` | apps/backend/src/ocpp/ocpp16-central-system.service.ts:900-915 | a response claims a command if and only if it is unclaimed and of that charge point |
| `CentralSystemModel.Ocpp16CentralSystemService.CommandTimesOut` | apps/backend/src/ocpp/ocpp16-central-system.service.ts:951-954 | a timer that fires finds its command unclaimed and its caller untold, and rejects |
| `CentralSystemModel.Ocpp16CentralSystemService.SendFailed` | apps/backend/src/ocpp/ocpp16-central-system.service.ts:965-970 | the command is claimed and its caller told, as before if it was told before |
| `CentralSystemModel.Ocpp16CentralSystemService.RejectPendingCommands` | apps/backend/src/ocpp/ocpp16-central-system.service.ts:199-203 | every pending command is rejected and no timer is left |
| `OcppConnections.RegistryNamesTheLatest` | apps/backend/src/ocpp/ocpp16-central-system.service.ts:404-432 | the registry names exactly the last accepted socket of a charge point until it closes or is dismissed, and no other socket is open |
| `OcppConnections.ReplacedSocketsCloseQuietly` | apps/backend/src/ocpp/ocpp16-central-system.service.ts:1058-1063 | a close event reaches registry, rows and sessions if and only if its socket is the last accepted |
| `OcppConnections.LandingKeepsOutlookIff` | apps/backend/src/ocpp/ocpp16-central-system.service.ts:437-444 | a status write that lands, in whatever order, changes what the row will say if and only if it overtakes an earlier write of its charge point that leads to the other value |
| `OcppConnections.FailingKeepsOutlookIff` | apps/backend/src/ocpp/ocpp16-central-system.service.ts:437-444 | a status write that fails changes what the row will say if and only if it is the last outstanding one of its charge point and the row does not say its value anyway |
| `OcppConnections.StepAgreesIff` | apps/backend/src/ocpp/ocpp16-central-system.service.ts:193-199 | a step keeps a row on its way to the registry if and only if it is not such a write nor a shutdown under a connected charge point |
| `OcppConnections.RowsAgreeWithTheRegistryIff` | apps/backend/src/ocpp/ocpp16-central-system.service.ts:437-444 | over all runs the row of a charge point is always on its way to what the registry says if and only if no such step occurs |
| `OcppConnections.LateDisconnectHidesTheReconnect` | apps/backend/src/ocpp/ocpp16-central-system.service.ts:1063-1073 | a run of six steps after which a registered, open charge point is shown as disconnected for good |
| `OcppConnections.ShutdownFreezesTheRows` | apps/backend/src/ocpp/ocpp16-central-system.service.ts:193-199 | after a shutdown, until it connects again, a charge point ends up shown as connected if and only if it was connected at the shutdown |
| `OcppConnections.AcceptedSocketIsConnected` | apps/backend/src/ocpp/ocpp16-central-system.service.ts:404-446 | an accepted socket is the registered and only open one of its charge point, and its status write is on the way |
| `OcppConnections.ClosedSocketIsLost` | apps/backend/src/ocpp/ocpp16-central-system.service.ts:1058-1073 | a registered socket that closes takes its charge point out of registry and row, and its sessions hear of it |
| `OcppConnections.FalteringDisconnects` | apps/backend/src/ocpp/ocpp16-central-system.service.ts:211-220 | a socket that is not open any more counts as disconnected although it is registered still |
| `OcppConnections.WritesLandOrFail` | apps/backend/src/ocpp/ocpp16-central-system.service.ts:437-444 | a status write that lands sets the row of its charge point, one that fails sets none |
| `CentralSystemModel.Ocpp16CentralSystemService.AcceptConnection` | apps/backend/src/ocpp/ocpp16-central-system.service.ts:404-446 | the new socket is registered and the only open one of its charge point |
| `CentralSystemModel.Ocpp16CentralSystemService.HandleDisconnect` | apps/backend/src/ocpp/ocpp16-central-system.service.ts:1058-1073 | registry, rows and sessions notice the close if and only if its socket was not replaced or dismissed |
| `CentralSystemModel.Ocpp16CentralSystemService.CloseAllConnections` | apps/backend/src/ocpp/ocpp16-central-system.service.ts:196-199 | the registry is empty and no socket is open |
| `OcppEndToEnd.OtherStepKeepsEnergy` | apps/backend/src/charging/charging.service.ts:899-964 | a step that reads no meter leaves the session energy and its last recorded meter alone |
| `OcppEndToEnd.MeterStepRecords` | apps/backend/src/charging/charging.service.ts:594-691 | a recorded sample that is not below the last one does not lower the energy |
| `OcppEndToEnd.EnergyFallsIff` | apps/backend/src/charging/charging.service.ts:594-612 | in any state whatever, a step lowers the energy of a session if and only if it records a sample or completes with a meter below the last recorded one |
| `OcppEndToEnd.CompleteStepBills` | apps/backend/src/charging/charging.service.ts:699-754 | a completion at or above the last recorded meter does not lower the energy |
| `WholeCharging.WholeChargingIsBilled` | apps/backend/src/ocpp/ocpp16-central-system.service.ts:222-328 | from start to bill: a session that may start, started by the charge point at one meter, sampled at any number of rising ones and stopped by a call at the last, is completed with the distance from start to stop, its user billed that much once, and its OCPP transaction completed at the stop meter |
| `WholeCharging.StartCharges` | apps/backend/src/ocpp/ocpp16-central-system.service.ts:678-736 | its first part: the session charges from the meter of the StartTransaction |
| `WholeCharging.SamplesCharge` | apps/backend/src/ocpp/ocpp16-central-system.service.ts:756-788 | its second: after every sample the energy is the distance from the start meter |
| `WholeCharging.StopBills` | apps/backend/src/ocpp/ocpp16-central-system.service.ts:820-874 | its last: a StopTransaction completes and bills the session, called for or not, and a call that waits for it gets its meter |
| `WholeCharging.StopCallBegins` | apps/backend/src/charging/charging.service.ts:447-485 | a stop call reaches the gateway exactly when it has moved its own charging session to STOPPING; else it changes nothing |
| `WholeCharging.StopCallsMove` | apps/backend/src/ocpp/ocpp16-central-system.service.ts:281-328 | then it commits a stop meter it finds on the row, fails without a row, and otherwise marks the row STOPPING and waits until a meter is there or it gives up |
| `TransactionRefinement.RowsAreTransactionRows` | apps/backend/src/ocpp/ocpp16-central-system.service.ts:222-874 | every run of frames, callers and transactions around one connection moves the OCPP transaction as some run of OcppTransactions does, frame by handler, so what holds in all those runs holds for its row |
| `MeteredEnergy.NextKeeps` | apps/backend/src/ocpp/ocpp16-central-system.service.ts:738-874 | every step of frames, callers and other transactions keeps the meters in hand above the recorded one and the energy from falling |
| `MeteredEnergy.EnergyNeverFalls` | apps/backend/src/ocpp/ocpp16-central-system.service.ts:421-429 | end to end, for frames over one connection and in-order delivery, the energy of a session is never negative and never falls, so the billed energy is at least every metered one |
| `OcppSockets.NextKeepsInv` | apps/backend/src/ocpp/ocpp16-central-system.service.ts:738-873 | with any number of connections the row holds the meters in growing order, and each frame carries the one its connection stored last |
| `OcppSockets.EnergyFallsIffOvertaken` | apps/backend/src/ocpp/ocpp16-central-system.service.ts:770-786 | then a step lowers the energy if and only if it takes over a different meter that was stored before the one recorded last, or a stop call bills below that |
| `OcppSockets.EnergyRisesIffInOrder` | apps/backend/src/ocpp/ocpp16-central-system.service.ts:770-786 | over all runs the energy never falls if and only if meters reach the session in the order in which they were stored and no stop call bills less |
| `OcppSockets.OneSocketNeverLowers` | apps/backend/src/ocpp/ocpp16-central-system.service.ts:421-429 | runs on one socket are the runs of the one-connection model |
| `OcppSockets.TwoConnectionsLowerTheEnergy` | apps/backend/src/ocpp/ocpp16-central-system.service.ts:756-788 | a whole run from a new session in which two connections deliver a higher and then a lower sample and the energy falls |
| `TokenFamilies.NextKeepsInv` | apps/backend/src/auth/auth.service.ts:100-150 | every step keeps every family one chain |
| `TokenFamilies.FamiliesAreChains` | apps/backend/src/auth/auth.service.ts:121-142 | over every run of any number of clients the tokens of a family are one unforked chain, all but the last revoked and linked |
| `TokenFamilies.OneLiveTokenAFamily` | apps/backend/src/auth/auth.service.ts:121-142 | a family has at most one live token |
| `TokenFamilies.DeadForever` | apps/backend/src/auth/auth.service.ts:112-118 | once a family has no live token nothing makes one of its tokens live again |
| `TokenFamilies.ReuseKillsForGood` | apps/backend/src/auth/auth.service.ts:112-118 | after a detected reuse no continuation makes a token of that family live, not even refreshes that had read a live one |
| `TokenFamilies.LinksAreFinal` | apps/backend/src/auth/auth.service.ts:132-142 | a token keeps its successor for good |
| `TokenFamilies.SecondRefreshIsRefused` | apps/backend/src/auth/auth.service.ts:132-142 | of two refreshes that read a token live, the second to rotate is refused and rolled back |
| `TokenFamilies.UndisturbedRefresh` | apps/backend/src/auth/auth.service.ts:90-150 | undisturbed, a genuine, live and usable token is revoked and linked to one new live token of its family and user; a genuine revoked one costs its family every live token; any other is refused without a trace |
| `TokenFamilies.SignInAndRevocations` | apps/backend/src/auth/auth.service.ts:152-180 | a sign-in starts a family with one live token; the two revocations take exactly what they name |
| `AuthServiceModel.AuthService.CreateSession` | apps/backend/src/auth/auth.service.ts:168-180 | a sign-in makes one more token live; like the methods below it keeps every family one chain |
| `AuthServiceModel.AuthService.BeginRefresh` | apps/backend/src/auth/auth.service.ts:100-121 | a refresh goes on to kill exactly for a genuine token that is not live, and to rotate exactly for a genuine, live, usable one |
| `AuthServiceModel.AuthService.KillFamily` | apps/backend/src/auth/auth.service.ts:112-118 | row by row the family loses every live token |
| `AuthServiceModel.AuthService.Rotate` | apps/backend/src/auth/auth.service.ts:121-143 | a token is issued exactly when the old one is still live, and is then the only live one of its family; otherwise the creation is rolled back |
| `AuthServiceModel.AuthService.RevokeRefreshToken` | apps/backend/src/auth/auth.service.ts:152-159 | exactly this token is no longer live |
| `AuthServiceModel.AuthService.RevokeAllRefreshTokens` | apps/backend/src/auth/auth.service.ts:161-166 | exactly the tokens of the user are no longer live |
| `RestClient.RequestsGoOutTwiceAtMost` | apps/mobile-driver/src/api/rest-api.ts:69-87 | in every run each request goes out at most twice |
| `RestClient.OneRefreshInFlight` | apps/mobile-driver/src/api/rest-api.ts:113-138 | in every run, whatever fails, at most one refresh is in flight, the one in refreshPromise |
| `RestClient.TokensArePostedOnceIff` | apps/mobile-driver/src/api/rest-api.ts:116-126 | in every run, whatever writes and deletions fail, no token is posted by two refreshes if and only if no refresh reads a stored token that was posted before |
| `RestClient.LeftBehindIff` | apps/mobile-driver/src/api/rest-api.ts:126-135 | a posted token is left behind in the storage by a failing clear and by nothing else, and stays there until tokens are written or deleted or a refresh posts it again |
| `RestClient.LeftBehindIffLingers` | apps/mobile-driver/src/api/rest-api.ts:126-135 | over runs: it is left behind if and only if a clear has failed on it and nothing has written or deleted tokens since |
| `RestClient.RepeatsIffLingers` | apps/mobile-driver/src/api/rest-api.ts:116-129 | the first token posted twice is exactly one that lingers so when a refresh reads it |
| `RestClient.NextKeepsInv` | apps/mobile-driver/src/api/rest-api.ts:64-139 | every step of client, server and other parties that posts no token again keeps the client and the token families consistent |
| `RestClient.ConsistentIffPostedOnce` | apps/mobile-driver/src/api/rest-api.ts:64-139 | after any run they are consistent if and only if it posted no token twice |
| `RestClient.RotatedTokensAreNeverPresented` | apps/mobile-driver/src/api/rest-api.ts:64-139 | if none was posted twice the server never reads an already rotated token from the client; it detects reuse if and only if the token had been revoked as such, and then the family has no live token left to lose |
| `RefreshReuse.StepSparesIff` | apps/backend/src/auth/auth.service.ts:112-118 | a step leaves the client untouched if and only if it is not somebody else revoking a live token of it |
| `RefreshReuse.ReuseIsNeverDetected` | apps/backend/src/auth/auth.service.ts:112-118 | without such a revocation and if no token is posted twice reuse is never detected in a family of the client |
| `RefreshReuse.FailedClearKillsTheSession` | apps/mobile-driver/src/api/rest-api.ts:128-132 | a run with the client alone in which a clear fails, a token is posted twice, and the server kills the client's session |
| `RefreshReuse.StoredChangesIff` | apps/mobile-driver/src/api/rest-api.ts:126-129 | stored tokens appear if and only if a sign-in or a refresh writes them, and vanish if and only if a sign-out or a failed refresh deletes them |
| `RefreshReuse.SignOutAndSessionLastIff` | apps/mobile-driver/src/auth/AuthProvider.tsx:70-90 | a sign-out lasts over a run if and only if nothing writes tokens, a session if and only if nothing deletes them |
| `RefreshReuse.UncrossedSignOutLastsIff` | apps/mobile-driver/src/auth/AuthProvider.tsx:87-90 | a sign-out with no refresh on its way lasts if and only if nobody signs in |
| `RefreshReuse.SignOutIsUndone` | apps/mobile-driver/src/auth/AuthProvider.tsx:87-90 | a run from nothing in which a sign-out between the arrival of rotated tokens and their storing is undone |
| `RefreshReuse.FailedRefreshDropsANewSession` | apps/mobile-driver/src/api/rest-api.ts:128-132 | a run from nothing in which a refresh that fails deletes the tokens a sign-in stored meanwhile |
| `RestClientModel.RestClient.RefreshTokens` | apps/mobile-driver/src/api/rest-api.ts:113-138 | the promise in the field or a new one, and no other refresh is in flight |
| `RestClientModel.RestClient.HandleUnauthorized` | apps/mobile-driver/src/api/rest-api.ts:84-87 | the request fails exactly when this was its second try, and otherwise waits for the refresh in the field |
| `RestClientModel.RestClient.Resume` | apps/mobile-driver/src/api/rest-api.ts:85-86 | once more without a retry, or the error; it has gone out twice at most |
| `RestClientModel.RestClient.PostStored` | apps/mobile-driver/src/api/rest-api.ts:116-122 | a consistent client with nothing left behind posts a token it never posted before |
| `RestClientModel.RestClient.SaveTokens` | apps/mobile-driver/src/api/rest-api.ts:126-127 | what is written, even by a setTokens that fails, was never posted |
| `RestClientModel.RestClient.ClearTokens` | apps/mobile-driver/src/api/rest-api.ts:128-129 | a posted token is left behind exactly when deleting it failed |
| `RestClientModel.RestClient.ReleasePromise` | apps/mobile-driver/src/api/rest-api.ts:133-135 | the refresh ends as it went, well or not, the field is empty and no refresh is in flight |
| `RefreshOutcomes.SucceedsIffSaved` | apps/mobile-driver/src/api/rest-api.ts:118-135 | in every run a refresh ends well if and only if it stored the tokens it was issued |
| `RefreshOutcomes.ResumesIffSaved` | apps/mobile-driver/src/api/rest-api.ts:84-87 | in every run a request that waits for a refresh goes out again when it resumes if and only if that refresh stored its tokens, and fails if and only if it has ended otherwise |
| `RefreshOutcomes.EveryRefreshSavesItsOwn` | apps/mobile-driver/src/api/rest-api.ts:120-127 | in every run a refresh stores the very tokens that the server issued to it |
| `RefreshOutcomes.UnauthorizedIsAnswered` | apps/mobile-driver/src/api/rest-api.ts:84-138 | a 401 fails the second try, joins the refresh in flight, or starts one and joins that |
| `RefreshOutcomes.RefreshedRequestGoesOutAgain` | apps/mobile-driver/src/api/rest-api.ts:69-138 | undisturbed, client and server together: a request that is refused goes out a second time, the token stored before is rotated into the one stored now |
| `RefreshOutcomes.SignedOutRequestFails` | apps/mobile-driver/src/api/rest-api.ts:116-118 | undisturbed, without a stored token the request fails and nothing is posted |
| `RefreshOutcomes.LostRefreshSignsOut` | apps/mobile-driver/src/api/rest-api.ts:120-132 | undisturbed, a refresh whose response is lost signs the client out and fails the request |
| `RefreshOutcomes.RefusedRefreshSignsOut` | apps/mobile-driver/src/api/rest-api.ts:120-132 | undisturbed, so does a refresh that the server refuses |
| `HistoryPages.PushConditions` | apps/backend/src/charging-history/charging-history.repository.ts:104-149 | the conditions are pushed in the order of the source, each exactly when its filter is set |
| `HistoryPages.ConditionsSayMatches` | apps/backend/src/charging-history/charging-history.repository.ts:104-149 | together they say which rows a query asks for |
| `HistoryPages.List` | apps/backend/src/charging-history/charging-history.repository.ts:88-197 | the conditions are pushed, the rows filtered, ordered and cut; a cursor pins the instant; another sort's cursor is refused; what order that is says PageIsInOrder |
| `HistoryPages.PageIsInOrder` | apps/backend/src/charging-history/charging-history.repository.ts:33-80 | any page, whatever cursor asks for it, holds at most limit matching rows that began within the period, for each of the eight sorts in its order: by start or creation, energy, cost or the time from start to completion, stop or the pinned instant, rising or falling as the sort says, ties by id in the same direction |
| `HistoryPages.CursorCutsTheListing` | apps/backend/src/charging-history/charging-history.repository.ts:262-282 | behind any row of the listing the cursor condition leaves exactly the rest of the listing |
| `HistoryPages.RowsByIdRestoresThePage` | apps/backend/src/charging-history/charging-history.repository.ts:173-181 | the second query gives back the rows of the first in their order |
| `HistoryPages.PageIsASlice` | apps/backend/src/charging-history/charging-history.repository.ts:151-197 | one page is the next limit rows of the listing, whatever the clock says |
| `HistoryPages.PagesAreTheListing` | apps/backend/src/charging-history/charging-history.repository.ts:33-197 | for every sort and limit, following endCursor ends and the pages together are the matching rows in the order of the sort, said in terms of the rows as above, none lost or repeated |
| `HistoryPages.EndCursorCarriesItsSortAndInstant` | apps/backend/src/charging-history/charging-history.repository.ts:99-103 | the cursor that a page hands out is refused by any later query if and only if that sorts differently, and otherwise pins the instant of that page |
| `HistoryPages.UnpinnedInstantRepeatsRunningSessions` | apps/backend/src/charging-history/charging-history.repository.ts:102 | without the pinned instant a running session lies behind its own cursor again |
| `MeterSampling.BucketsHaveNoGaps` | apps/backend/src/charging-history/charging-history.repository.ts:234-242 | the bucket map is monotone and leaves out no bucket |
| `MeterSampling.DownsamplingIsExact` | apps/backend/src/charging-history/charging-history.repository.ts:214-260 | exactly min(n, m) points come back, one of every bucket, strictly increasing, with the first and the last sample |
| `MeterSampling.SmallSetsAreUntouched` | apps/backend/src/charging-history/charging-history.repository.ts:235 | when everything fits nothing is dropped |
| `MeterSampling.LastSampleSurvivesIff` | apps/backend/src/charging-history/charging-history.repository.ts:234-250 | for every point count from one on the last sample comes back if and only if everything fits or there are three points at least |
| `MeterSampling.TinyLimitsKeepTheFirstTwo` | apps/backend/src/charging-history/charging-history.repository.ts:234-250 | with a limit of one or two points and three samples or more, exactly the first two samples come back |
| `MeterSampling.MiddleBucketsAreEven` | apps/backend/src/charging-history/charging-history.repository.ts:234-242 | the middle rows are spread evenly over the middle buckets |
| `Timeline.GetTimeline` | apps/backend/src/charging-history/charging-history.service.ts:94-114 | the events are the mapped entries with created and first measurement added, sorted by instant, none lost |
| `Timeline.TypesNameStatuses` | apps/backend/src/charging-history/charging-history.presenter.ts:214-230 | every status has an event type of its own |
| `Timeline.TimelineHoldsEveryEntry` | apps/backend/src/charging-history/charging-history.service.ts:94-114 | the timeline holds one event an entry, at its instant and of its status, a creation where no entry is one, the first measurement if there is any, and nothing else |
| `Timeline.OrderIsDeterminedIffStrict` | apps/backend/src/charging-history/charging-history.service.ts:73-75 | the database determines the order of the entries if and only if their instants strictly rise |
| `Timeline.TimelineIsThePathIffStrict` | apps/backend/src/charging-history/charging-history.service.ts:70-115 | the timeline is the lifecycle path for every order the database may return if and only if the instants strictly rise |
| `Timeline.TimelineTellsTheLife` | apps/backend/src/charging-history/charging-history.presenter.ts:214-230 | after any run, with rising instants, the timeline lists exactly the statuses the session went through, with the first measurement among them |
| `RemoteCommands.NextKeepsInv` | apps/backend/src/admin/admin-operations.service.ts:876-1079 | every step of any callers keeps one working creator a command and its outbox story |
| `RemoteCommands.CommandsRunOnce` | apps/backend/src/admin/admin-operations.service.ts:976-1079 | a command is dispatched at most once and its outbox stream is Queued followed by at most one of Accepted and Failed, as its status says |
| `RemoteCommands.OneCommandAKey` | apps/backend/src/admin/admin-operations.service.ts:896-975 | a key never gets a second command, nor its command another payload |
| `RemoteCommands.EqualPayloadsShareTheCommand` | apps/backend/src/admin/admin-operations.service.ts:885-893 | equal payloads are answered with the same command, different ones get a conflict |
| `RemoteCommands.OnlyCreatorsSeeErrors` | apps/backend/src/admin/admin-operations.service.ts:952-975 | with queries that succeed an error reaches only the creator whose dispatch or bookkeeping failed |
| `RemoteAnswers.CommandsEndAsTheyWent` | apps/backend/src/admin/admin-operations.service.ts:976-1079 | in every run a command is ACCEPTED only if the charging service took it and nothing failed, and is then what its creator is answered; it is FAILED only if marking, dispatching or accepting failed, and its creator gets an error, at once or after the failing transaction, if and only if that is so |
| `RemoteAnswers.NewKeyIsAnswered` | apps/backend/src/admin/admin-operations.service.ts:876-1079 | undisturbed, a new key creates its command, dispatches it once and answers as the charging service does, with status, version and both notices |
| `RemoteAnswers.UnmarkedFails` | apps/backend/src/admin/admin-operations.service.ts:984-1079 | undisturbed, a command that cannot be marked as sent fails without a dispatch |
| `RemoteAnswers.KnownKeyIsReplayed` | apps/backend/src/admin/admin-operations.service.ts:877-975 | undisturbed, a known key answers its command to an equal payload and a conflict to any other, at the lookup or after the unique index |
| `RemoteAnswers.FailedQueriesAnswerErrors` | apps/backend/src/admin/admin-operations.service.ts:877-975 | a query that fails answers its caller with an error and changes no table |
| `RemoteAnswers.FailedAcceptanceFails` | apps/backend/src/admin/admin-operations.service.ts:1003-1079 | an acceptance that fails fails the command, although the charging service has taken it |
| `AdminOperationsModel.AdminOperationsService.LookUp` | apps/backend/src/admin/admin-operations.service.ts:877-893 | whoever finds a command gets it exactly for an equal payload; like the methods below it keeps one working creator a command and its outbox story |
| `AdminOperationsModel.AdminOperationsService.Create` | apps/backend/src/admin/admin-operations.service.ts:896-975 | a new key gets its row and its Queued notice together, any other outcome changes neither table |
| `AdminOperationsModel.AdminOperationsService.MarkSent` | apps/backend/src/admin/admin-operations.service.ts:984-988 | only the creator gets here, before any dispatch |
| `AdminOperationsModel.AdminOperationsService.Accept` | apps/backend/src/admin/admin-operations.service.ts:1003-1037 | after exactly one dispatch the story ends with Accepted, or nothing changes |
| `AdminOperationsModel.AdminOperationsService.Fail` | apps/backend/src/admin/admin-operations.service.ts:1038-1079 | the story ends with Failed, or stays Queued; the caller gets the error either way |
| `Simulator.NextKeeps` | apps/charger-simulator/src/simulator.ts:68-232 | every operation and callback keeps the invariant and moves sessions forward only |
| `Simulator.RunsKeepInv` | apps/charger-simulator/src/simulator.ts:103-171 | in every run at most one session charges on a connector, a live timer means charging, and a final meter is the session meter |
| `Simulator.SessionsKeepTheirBase` | apps/charger-simulator/src/simulator.ts:205-215 | a session's meter is always its base plus ticks times a fixed increment of at least one; a final meter never changes |
| `Simulator.RepeatedStartAnswersTheSameIff` | apps/charger-simulator/src/simulator.ts:103-113 | a repeated start gives the first answer again if and only if the session has not ticked |
| `Simulator.StaysCompletedIff` | apps/charger-simulator/src/simulator.ts:143-149 | a stopped session stays COMPLETED if and only if no callback of it fails later |
| `Simulator.RepeatedStopAnswersTheSameIff` | apps/charger-simulator/src/simulator.ts:157-171 | a repeated stop answers the same meter if and only if no callback of it fails later |
| `Simulator.LateFailureFaultsTheNextSession` | apps/charger-simulator/src/simulator.ts:144-148 | a late failure faults the connector under the session that charges there now |
| `Simulator.LateFailureFaultsANewSession` | apps/charger-simulator/src/simulator.ts:103-171 | the same as a run from nothing |
| `Simulator.OffersABusyConnectorIff` | apps/charger-simulator/src/simulator.ts:68-97 | setting the status never offers a busy connector, registering does if and only if it is not marked occupied |
| `SimulatorCalls.CallsLeave` | apps/charger-simulator/src/simulator.ts:68-232 | a call or callback that is not permitted changes nothing, any other leaves exactly what it should: sessions, meters, timers, connector statuses and callbacks; at the third tick fail-after-3 faults the connector and disconnect-after-3 takes it offline |
| `SimulatorCalls.CallsAnswer` | apps/charger-simulator/src/simulator.ts:103-171 | a start is answered with meter and power of its session, new or known, a stop with the meter of a session that has not failed; every other ends in an error |
| `SimulatorCalls.RefusedCalls` | apps/charger-simulator/src/simulator.ts:68-97 | registering and setting a status end in an error exactly when they are not permitted |
| `SimulatorCalls.TickCountsItsEnergy` | apps/charger-simulator/src/simulator.ts:209-214 | a tick counts the energy of its interval to the nearest watt-hour, but one at least |
| `SimulatorCalls.MetersCountTheEnergy` | apps/charger-simulator/src/simulator.ts:205-215 | in every run a meter has counted the energy of its ticks to half a watt-hour a tick |
| `ChargerSimulatorModel.ChargerSimulator.RegisterConnector` | apps/charger-simulator/src/simulator.ts:68-78 | a connector is registered with its status, an occupied one stays occupied |
| `ChargerSimulatorModel.ChargerSimulator.SetConnectorStatus` | apps/charger-simulator/src/simulator.ts:80-97 | a connector made available this way has no charging session |
| `ChargerSimulatorModel.ChargerSimulator.Start` | apps/charger-simulator/src/simulator.ts:103-155 | a known session is answered as it is, otherwise the connector must be available and free, and the new session is the only one that charges there |
| `ChargerSimulatorModel.ChargerSimulator.Stop` | apps/charger-simulator/src/simulator.ts:157-171 | a stop that succeeds can be repeated at once with the same answer |
| `ChargerSimulatorModel.ChargerSimulator.EndSession` | apps/charger-simulator/src/simulator.ts:173-178 | afterwards the session does not charge and has no timer |
| `ChargerSimulatorModel.ChargerSimulator.Tick` | apps/charger-simulator/src/simulator.ts:205-224 | the meter of this session rises, and no other session moves |
| `ChargerSimulatorModel.ChargerSimulator.FinishTick` | apps/charger-simulator/src/simulator.ts:224-232 | a failed callback leaves the session failed and its connector faulted, whatever its status was |
| `ChargerSimulatorModel.ChargerSimulator.Shutdown` | apps/charger-simulator/src/simulator.ts:201-203 | no timer fires any more, so no meter moves |
| `Money.NumeralIsDigits` | apps/mobile-driver/src/utils/format.ts:23-29 | a numeral denotes its number |
| `Money.GroupedIsGroupsOfThree` | apps/mobile-driver/src/utils/format.ts:28-30 | the lookahead rule is grouping by three from the right |
| `Money.ParseBody` | apps/mobile-driver/src/utils/format.ts:35-40 | the parser reads back the printed body of every amount |
| `Money.SignedIsRefused` | apps/mobile-driver/src/utils/format.ts:37 | a text with a leading minus sign is refused |
| `Money.RoundTrip` | apps/mobile-driver/src/utils/format.ts:21-40 | without its symbol every printed non-negative amount of any size is parsed back, every negative one refused |
| `Money.CanonicalRoundTrip` | apps/mobile-driver/src/utils/format.ts:21-40 | on canonical numerals the two functions are inverses |
| `Money.ParseThenPrint` | apps/mobile-driver/src/utils/format.ts:35-40 | whatever is parsed is canonical and survives printing and parsing |
| `Money.PrintsInGroups` | apps/mobile-driver/src/utils/format.ts:21-33 | what is printed: sign, symbol, blank, units in groups of three, comma and two digits of cents; a text that is no integer comes back with its currency |
| `Money.IntegersDenote` | apps/mobile-driver/src/utils/format.ts:21-23 | which texts are integers, and which integer they denote |
| `Money.ParserAcceptsIff` | apps/mobile-driver/src/utils/format.ts:35-40 | the parser accepts exactly an amount with at most two digits behind a comma, blanks around it and dots anywhere, and answers the numeral of that amount in cents, a single digit counting tens |
| `Money.TrimCutsTheBlanks` | apps/mobile-driver/src/utils/format.ts:36 | trimming takes the white space of ECMAScript off both ends, and all of it |

## Left out

- Database isolation: every transaction and every single statement is atomic. In particular a family kill that
  runs beside an uncommitted rotation is not modelled.
- Process crashes, several server instances and clock skew.
- WebSocket, HTTP, Redis and Prisma plumbing, frame parsing and serialisation, rate limits, ping and idle timers,
  Basic authentication, argon2, HMAC, base64 and JSON. Token checks are a flag, request hashes are the payload,
  the cursor codec is an exact inverse.
- Price, tariff, wallet and payment: they run beside the modelled transactions and do not touch energy, meters,
  connectors or the lifecycle. A failing payment step is a failing caller.
- Tenant, role and permission lookups, realtime notifications, and the checks in front of `createCommand`. Whether
  the vehicle is the user's and a tariff is in force is one flag of a creation.
- Authorize, BootNotification and Heartbeat frames, and the matching of idTag and connector number: a
  StartTransaction is one that names the pending transaction.
- StatusNotification and the admin override appear only as "set any connector to any status".
- Timestamps are integers; the sort of the samples of a frame by timestamp text is taken as done.
- Energy is whole watt-hours in the session tables, where the source divides by 1000 into kWh with three decimals;
  meter samples and simulator powers are exact reals instead of floating point.
- Session ids are positions in the session table; ids that the source draws at random are fresh numbers.
- An OCPP identity names one charge point, so identity and charge point id are one number in `OcppConnections`
  and `OcppCommands`.
- `OcppTransactions` follows the transaction of one session; frames of other transactions do not meet it, because
  they are found by their protocol transaction id.
- `OcppWakeup` and `PendingValue` follow one session and one of the two pending maps, so a map entry is an option.
- MeteredEnergy.EnergyNeverFalls: does not model several sockets, because with a second connection the property is
  false (`OcppSockets.TwoConnectionsLowerTheEnergy`); `OcppSockets.EnergyRisesIffInOrder` says when it holds there.
- Access tokens: only the refresh token of the two stored items is followed; restoring a session at start-up deletes
  tokens like a sign-out.
- Simulator: setInterval may fire at any time while the timer is live; a callback may be answered at any later time.
- `GatewayCalls` counts gateway calls; what the gateway does is any answer or failure at any later time.
- ILIKE is a parameter of the history queries, and the joined table is one table of rows.
- Screens, mock clients, seed data, location and geometry code, controllers, access administration and reports.
