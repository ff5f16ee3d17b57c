# Verification of the engineering backend

A Dafny model of six parts of the backend, and proofs about them.

1. **Coordinator protocol.** Events, decision runs, actions, outbound deliveries and human
   requests. Every database transaction of the processor, the action executor and the inbox is
   one atomic step over tables; workers, crashes, late answers, recovery sweeps and edits by
   others interleave freely. Proved: an invariant over all tables, and claims about whole runs:
   no event is lost, the batch of a superseded run returns, and an event is stranded exactly when
   a claim reaches it in the queue under an inactive Team, task, channel or actor; no effect is
   replayed, an effect meets the situation it was decided on, no message is sent twice.
2. **Spending ledger.** Admission under Team, task, role, monthly and account budgets;
   settlement, including receipts that race the orphan sweep; and, inside the runner, the ledger
   of bounded inference with the controller's independent settlement of the same requests.
3. **Wire formats.** JSON text, the key-dictionary compression, the four packet codecs, and the
   decoder of Docker's multiplexed log stream with the event order accepted behind it.
4. **Adaptive execution.** Ordering of work units, plan / replan / repair under allowances, and
   the sanitizer that accepts every snapshot that is emitted.
5. **Progress governor.** Counters, warnings and stops against the history of events.
6. **Caches and selection.** The single-flight analytics cache, the incremental repository
   index, the survey catalogue, and the compilation of oversized sources into ranges.

`dafny verify dfyconfig.toml` checks the whole project.

## Layout

`*Protocol`, `*Model` and the codec files hold states and transition functions; `*Store` files and
the classes in the other modules hold the imperative code, each method proved to leave exactly
the state of its transition function; `*Invariant`, `*History`, `*Bounds`, `*RoundTrip`, `*Text`,
`*Prefix` and `*Stream` files, `CoordinatorEvents` and `CoordinatorTurns` hold the theorems, and `CoordinatorWitness` concrete
runs. Tables are sequences whose index is the row id.
What a transaction learns from elsewhere (settings, permissions, query results, clocks, model
and tool answers) is a parameter, so every result holds for any answers.

## Findings

Where the code does less than its documentation or its neighbours suggest, the model follows
the code, and the exact condition is a theorem.

- Versions are compared when a delivery is claimed, not when it is sent: a message goes to the
  situation of its effect exactly if nothing moved the task in between
  (`PostMeetsItsEffectExactly`, `SentAfterTheTaskMoved`).
- A check that found an empty reference stores it with status UNKNOWN, so a stored reference
  implies EXECUTED only when it is not empty (`CheckConfirmsNonemptyOnly`).
- An event that a claim suspends or refuses is never queued again, even if an earlier claim had
  admitted it; an event returns to the queue exactly when its run is superseded
  (`StrandedForEver`, `StrandedExactly`, `ReturnsExactly`, `AdmittedEventIsStranded`).
- Supervision and interpretation runs are admitted beside a running Developer turn: at most one
  Developer turn runs per task, but other workers may; a task has one worker exactly as long as
  no such admission happened (`OneDeveloperHolds`, `OneWorkerExactly`, `SupervisionJoinsTurn`).
- A late receipt blocks the session even when a newer turn runs on it, which is possible exactly
  for turns that were begun without a reservation, which the application's caller never does
  (`LateReceiptKeepsCoupling`, `LateReceiptBlocksNewerTurn`).
- Admission never looks at the cached-read price; it covers every response within its token
  bounds exactly when that price does not exceed the dearest input or write price
  (`BoundCoversExactly`).
- The entry of an earlier fast attempt counts as a call only if that attempt made a request. If it
  failed while locating sources, 16 further requests make 17 entries and the settlement gives no
  cost (`SettledExactlyWhenCounted`).
- The line-based codec splits at U+0085, U+2028 and U+2029, which JSON text need not escape
  (section 7 of RFC 8259): such packets are encoded and then refused (`DecodeEncoded`,
  `DslLosesLineSeparator`).
- When the log decoder raises, the events of the chunk at hand are lost: what is delivered is
  independent of the cuts exactly for streams that can be read to their end or hold no event
  before their break (`CutsAgreeExactly`, `BrokenFrameLosesEvent`).
- A snapshot of the governor carries no stop reason; the next observation after a restoration
  stops again exactly for input, compactions without progress and context (`RestoredStopsExactly`,
  `LoopIsForgotten`).
- The component symbol of a Svelte file that ends in a newline spans one line too many; any match
  in such an oversized file, if the symbol is short enough to be a span, makes the compilation
  fail with an index error (`ComponentFailsExactly`, `ShortComponentFails`).
- Refreshing an expired cache entry leaves it at its old place in the eviction order
  (`EvictsLeastRecentlyTouched`).

## Model

| member | source | states |
|---|---|---|
| CoordinatorStore.Store.TriageBatch | backend/app/coordinator/infrastructure/processor.py:92-106 | admitted events are left for the new run; events of inactive providers become SUSPENDED, unauthorized ones UNAUTHORIZED; no other row changes |
| CoordinatorStore.Store.PickTrigger | backend/app/coordinator/infrastructure/processor.py:107-110 | the trigger is the newest admitted event from outside engineering, else the newest of all |
| CoordinatorStore.Store.Claim | backend/app/coordinator/infrastructure/processor.py:36-235 | the whole claim transaction equals its specification: nothing while a run is CLAIMED or READY, else one new run with the versions of the moment and its batch |
| CoordinatorTurns.StoppedInferenceLosesNothing | backend/app/coordinator/infrastructure/processor.py:237-281 | once the authority check of a turn reports that the task advanced, or its claim ended, no decision of that run can be written at any later moment; otherwise it is written whenever the situation is still there |
| CoordinatorStore.Store.Complete | backend/app/coordinator/infrastructure/processor.py:268-315 | a decision is written only by a CLAIMED run of an unchanged situation; an active one gets exactly one action; late completions change nothing |
| CoordinatorStore.Store.Fail | backend/app/coordinator/infrastructure/processor.py:317-333 | a failed run fails its batch, a superseded one requeues it |
| CoordinatorStore.Store.SettleTurn | backend/app/coordinator/application/process.py:58-92 | whatever state others left the run in, the end of a turn writes its decision, supersedes it or fails it, as the specification says |
| CoordinatorStore.Store.RecoverRuns | backend/app/coordinator/infrastructure/processor.py:335-369 | the sweep over stale claims, run by run, leaves the tables of the simultaneous update |
| CoordinatorStore.Store.RequeueRunEvents | backend/app/coordinator/infrastructure/queries.py:27-33 | exactly the rows of the run are queued again, free and available now |
| CoordinatorProtocol.LatestHuman | backend/app/coordinator/infrastructure/queries.py:13-24 | the newest request of the task that is open or answered and of the current versions |
| CoordinatorStore.Store.VetSources | backend/app/coordinator/infrastructure/actions.py:50-83 | the checks on the sources, with both loops over the events of the run, decide exactly whether every source is on an active channel and permitted, and none is about an older revision |
| CoordinatorTurns.EngineeringStartsAlone | backend/app/coordinator/infrastructure/actions.py:115-147 | in a run of the system engineering work starts only within its scope, with no other run working, no unknown cost and no truncated feedback |
| CoordinatorTurns.EngineeringWaits | backend/app/coordinator/infrastructure/actions.py:336-401 | work held up by a busy engineer waits, nothing else changes, and it is weighed again exactly when the engineer is free or a newer message came |
| CoordinatorStore.Store.Apply | backend/app/coordinator/infrastructure/actions.py:50-160 | the effect commits exactly when every check passes, and then leaves the state of the specification |
| CoordinatorStore.Store.RecordEffect | backend/app/coordinator/infrastructure/actions.py:289-334 | the action records channel, message and the versions left by the effect, and its run is COMPLETED |
| CoordinatorStore.Store.ExecuteOne | backend/app/coordinator/infrastructure/actions.py:336-401 | supersede, wait, reject or commit, with everything inside the savepoint rolled back unless it commits |
| CoordinatorStore.Store.ClaimDelivery | backend/app/coordinator/infrastructure/actions.py:403-444 | a delivery goes out only if its task is unchanged since the effect, coordinated, permitted and on an active channel |
| CoordinatorStore.Store.FailDelivery | backend/app/coordinator/infrastructure/actions.py:458-467 | an unanswered delivery becomes UNKNOWN unless an echo confirmed it meanwhile |
| CoordinatorStore.Store.CompleteDelivery | backend/app/coordinator/infrastructure/actions.py:469-473 | an answered delivery is EXECUTED with its reference |
| CoordinatorStore.Store.DeliverOne | backend/app/coordinator/application/actions.py:20-42 | claim, at most one send, and one settlement |
| CoordinatorStore.Store.ClaimReconciliation | backend/app/coordinator/infrastructure/actions.py:475-495 | only a requested check of an attempted, uncertain delivery is claimed |
| CoordinatorStore.Store.CompleteReconciliation | backend/app/coordinator/infrastructure/actions.py:497-514 | a found reference executes, an empty one leaves UNKNOWN, an EXECUTED row is left alone |
| CoordinatorStore.Store.ReconcileOne | backend/app/coordinator/application/actions.py:44-63 | a check is claimed and its answer recorded; nothing is ever sent again |
| CoordinatorStore.Store.RecoverActions | backend/app/coordinator/infrastructure/actions.py:516-546 | two sweeps in sequence equal the simultaneous update of interrupted deliveries and checks |
| CoordinatorStore.Store.Enqueue | backend/app/coordinator/infrastructure/inbox.py:17-145 | duplicates and own effects insert nothing, echoes confirm their action, answers attach to the one live question; errors exactly for blank or long messages |
| CoordinatorStore.Store.HumanResponse | backend/app/coordinator/infrastructure/inbox.py:148-183 | the guard that refuses a response, in the order of the code, or the message that is enqueued |
| CoordinatorStore.Store.NotifyEngineering | backend/app/coordinator/infrastructure/inbox.py:186-217 | a lifecycle change is reported on the channel of the last outside event, if there is one, it is switched on and the key is new |
| CoordinatorStore.Store.NotifyObservation | backend/app/coordinator/infrastructure/inbox.py:220-250 | an observation is inserted once per key, unless its channel is switched off |
| CoordinatorInvariant.StepKeeps | backend/app/coordinator/infrastructure/actions.py:289-546 | every transaction keeps the invariant: one CLAIMED or READY run per task, READY exactly with an action PENDING or WAITING_ENGINEER, event status determined by its run, no event held by a superseded run |
| CoordinatorInvariant.RunKeeps | backend/app/coordinator/infrastructure/processor.py:36-369 | the invariant holds after every prefix of every interleaving |
| CoordinatorHistory.EventFollowsItsRun | backend/app/coordinator/infrastructure/processor.py:107-130 | at every later moment an event is still there, and its status is the one that the run holding it dictates, or one of those of events that no run holds |
| CoordinatorEvents.ReturnsExactly | backend/app/coordinator/infrastructure/queries.py:27-33 | an event that is not queued becomes queued exactly by a step that supersedes the run holding it |
| CoordinatorEvents.StrandedForEver | backend/app/coordinator/infrastructure/processor.py:69-104 | a suspended, unauthorized or echoed event is the same row at every later moment of every run |
| CoordinatorEvents.StrandedExactly | backend/app/coordinator/infrastructure/processor.py:69-104 | over any run an event gets stranded if and only if a claim reached it in the queue while its Team, task, channel or actor was not active |
| CoordinatorWitness.AdmittedEventIsStranded | backend/app/coordinator/infrastructure/processor.py:92-100 | a run of the system in which an admitted event is requeued and then suspended for ever |
| CoordinatorHistory.SupersededBatchReturns | backend/app/coordinator/infrastructure/actions.py:374-391 | the step that supersedes a run queues its whole batch again |
| CoordinatorHistory.AppliedAtMostOnce | backend/app/coordinator/infrastructure/actions.py:289-326 | over the whole history an event belongs to at most one COMPLETED run |
| CoordinatorHistory.EffectMeetsItsSituation | backend/app/coordinator/domain/protocol.py:62-90 | whenever an effect commits, the task's versions never moved since the claim, and no newer queued event exists |
| CoordinatorHistory.NoEffectReplayed | backend/app/coordinator/infrastructure/actions.py:366-401 | two effects of a run of the system belong to different actions and different decision runs |
| CoordinatorHistory.PostedAtMostOnce | backend/app/coordinator/application/actions.py:20-42 | an action is sent to the provider at most once |
| CoordinatorHistory.PostedForItsEffect | backend/app/coordinator/infrastructure/actions.py:403-444 | a sent message was claimed after its effect, and the versions did not move from just after the effect to the claim |
| CoordinatorHistory.PostMeetsItsEffectExactly | backend/app/coordinator/infrastructure/actions.py:403-444 | the versions at the sending are those of the effect if and only if no step moved them between the claim of the delivery and the sending |
| CoordinatorWitness.SentAfterTheTaskMoved | backend/app/coordinator/infrastructure/actions.py:439-444 | a run of the system that sends a message after its task has moved on |
| CoordinatorHistory.ExecutedForEver | backend/app/coordinator/infrastructure/actions.py:464-505 | EXECUTED is never left, and a stored nonempty reference implies it |
| CoordinatorHistory.CheckConfirmsNonemptyOnly | backend/app/coordinator/infrastructure/actions.py:505-506 | a reconciliation confirms exactly when its reference is not empty |
| CoordinatorHistory.AnswersAreFinal | backend/app/coordinator/infrastructure/inbox.py:138-140 | an answered question keeps its first answer |
| CoordinatorHistory.OneLiveQuestion | backend/app/coordinator/infrastructure/actions.py:162-192 | at most one open or answered request per task has the current versions |
| CoordinatorTurns.TurnEnds | backend/app/coordinator/application/process.py:58-92 | the end of a turn ends a claimed run together with its whole batch, and leaves a run that something else ended as it is |
| CoordinatorTurns.EndedForEver | backend/app/coordinator/infrastructure/processor.py:268-333 | a run whose turn ended is never claimed again |
| CoordinatorTurns.SecondEndIsHarmless | backend/app/coordinator/infrastructure/processor.py:272-333 | of two ends of one turn (sweep, late completion, failure of the cancelled worker) the second changes nothing |
| CoordinatorTurns.ResponseAnswersExactly | backend/app/coordinator/infrastructure/inbox.py:148-183 | an admitted response answers its request and queues its event exactly when its text is in bounds and its key is new, and otherwise changes nothing |
| CoordinatorTurns.AnswerLetsTaskContinue | backend/app/coordinator/infrastructure/actions.py:85-101 | while the request is live, any later run that holds its answer may let the waiting task continue |
| CoordinatorTurns.WaitingNeedsAnswer | backend/app/coordinator/domain/protocol.py:62-90 | in a run of the system a waiting task is advanced only by a batch that holds an answer to its one live request |
| LedgerStore.Store.BudgetUsage | backend/app/agent_runtime/infrastructure/reservations.py:44-69 | one pass computes the Team, task and role sums of the budget cost, and whether any is unknown |
| LedgerStore.Store.PeriodicUsage | backend/app/agent_runtime/infrastructure/reservations.py:149-162 | the sum over the month, with running and unknown rows of earlier months |
| LedgerStore.Store.ReserveBudget | backend/app/agent_runtime/infrastructure/reservations.py:97-146 | the refusal, if any, in the order of the checks |
| LedgerStore.Store.DevelopmentAllowance | backend/app/agent_runtime/infrastructure/reservations.py:72-94 | the least of the three remainders, if it is positive and large enough |
| LedgerStore.Store.BeginRun | backend/app/agent_runtime/infrastructure/accounting.py:112-166 | a turn begins exactly when every guard holds, with a RUNNING row and a RUNNING session |
| LedgerStore.Store.FinishRun | backend/app/agent_runtime/infrastructure/accounting.py:168-284 | which receipts settle, what they write, and what becomes of the session |
| LedgerStore.Store.FailRun | backend/app/agent_runtime/infrastructure/accounting.py:286-301 | a turn that never started costs nothing, any other stays unknown |
| LedgerStore.Store.SessionStarted | backend/app/agent_runtime/infrastructure/accounting.py:101-110 | a native session is stored only if none or the same one was |
| LedgerStore.Store.Rollover | backend/app/agent_runtime/infrastructure/token_efficiency.py:110-227 | the native session is cleared unless the session works, has none, or the task is unsettled |
| LedgerStore.Store.Sweep | backend/app/agent_runtime/infrastructure/orphans.py:34-91 | container by container, the runs of stopped jobs are closed |
| LedgerStore.SweepInterruptsExactly | backend/app/agent_runtime/infrastructure/orphans.py:62-79 | a sweep interrupts exactly the running runs of stopped jobs, and each of them then awaits a late receipt |
| LedgerBounds.ExposedUpdate | backend/app/agent_runtime/infrastructure/cost_queries.py:11-17 | exposure is conserved: one changed run changes a scope's sum by its own difference |
| LedgerBounds.AdmissionFits | backend/app/agent_runtime/infrastructure/reservations.py:130-142 | an admitted reservation fits beside settled costs and reservations in every budget |
| LedgerBounds.NoAdmissionWhileUnknown | backend/app/agent_runtime/infrastructure/reservations.py:61-64 | nothing is reserved for a Team while the budget cost of one of its runs is unknown, be it ended without a cost or running without a reservation |
| LedgerBounds.AllowanceIsAdmissible | backend/app/agent_runtime/infrastructure/reservations.py:72-94 | a planned allowance is admitted unless a monthly limit is nearer, and nothing larger would be |
| LedgerBounds.StepKeepsBudgets | backend/app/agent_runtime/infrastructure/accounting.py:112-301 | every step keeps settled cost if known, else reservation, within every budget |
| LedgerBounds.BudgetsHold | backend/app/agent_runtime/infrastructure/reservations.py:97-146 | over any interleaving of admissions, settlements, stops and late receipts no budget is exceeded, if runs settle within their reservations |
| LedgerBounds.OverrunExceedsBudget | backend/app/agent_runtime/infrastructure/accounting.py:203-207 | without that hypothesis one settlement can exceed a budget |
| LedgerHistory.OneDeveloperHolds | backend/app/agent_runtime/infrastructure/accounting.py:118-133 | in every reachable state a task has at most one RUNNING Developer turn, reserved or not |
| LedgerHistory.OwnershipHolds | backend/app/agent_runtime/infrastructure/accounting.py:112-165 | when turns are reserved, a session is RUNNING exactly with its run, and no turn runs beside an unknown cost of its task |
| LedgerHistory.OneWorkerExactly | backend/app/agent_runtime/infrastructure/reservations.py:115-128 | over any run a task has one worker at most, at every moment so far, if and only if no supervision or interpretation was admitted beside a running worker |
| LedgerHistory.SupervisionJoinsTurn | backend/app/agent_runtime/infrastructure/reservations.py:115-128 | a run of the ledger in which a supervision is admitted beside a running turn |
| LedgerHistory.OthersKeepOneWorker | backend/app/agent_runtime/infrastructure/accounting.py:124-133 | every other step keeps at most one running run that is not the coordinator's |
| LedgerHistory.RedeliveryChangesNothing | backend/app/agent_runtime/infrastructure/accounting.py:181-184 | a receipt of a run that took one, or stopped with its cost known, changes nothing at any later moment |
| LedgerHistory.TakenReceiptsEndRuns | backend/app/agent_runtime/infrastructure/accounting.py:168-284 | every receipt that is taken leaves its run so |
| LedgerHistory.KnownCostsAreFinal | backend/app/agent_runtime/infrastructure/receipts.py:11-45 | once known, a run's cost is the same at every later moment |
| LedgerHistory.LateReceiptOnlySettles | backend/app/agent_runtime/infrastructure/accounting.py:225-234 | a late receipt settles the cost, leaves the session BLOCKED and touches nothing else |
| LedgerHistory.LateReceiptKeepsCoupling | backend/app/agent_runtime/infrastructure/accounting.py:225-228 | the coupling of sessions and runs survives a late receipt exactly when no newer turn runs on the session |
| LedgerHistory.UnreservedTurnOvertakesReceipt | backend/app/agent_runtime/infrastructure/accounting.py:115-116 | a turn without reservation is admitted while a late receipt is awaited; the caller in `development_setup.py`, line 91, always sets one |
| LedgerHistory.LateReceiptBlocksNewerTurn | backend/app/agent_runtime/infrastructure/accounting.py:225-228 | a run of the ledger, with such a turn, in which a late receipt blocks a session whose newer turn is RUNNING |
| LedgerHistory.NativeSessionIsKept | backend/app/agent_runtime/infrastructure/accounting.py:106-108 | a named native session changes only by a rollover, which clears it, exactly when the session neither works nor is retired and its task is settled |
| LedgerHistory.RolloverStrandsNoReceipt | backend/app/agent_runtime/infrastructure/token_efficiency.py:137-147 | a rollover loses no receipt: none could settle a run of the session before it, and none is judged differently after it |
| TokenUsage.PricesAdd | backend/app/agent_runtime/domain/usage.py:73-88 | pricing a sum of requests is summing their prices |
| TokenUsage.BoundCoversExactly | backend/app/agent_runtime/infrastructure/bounded_inference.py:107-121 | the admission bound covers every response within its token bounds if and only if cached reads are not dearer than input and writes |
| BoundedInference.Runner.Admit | backend/app/agent_runtime/infrastructure/bounded_inference.py:63-123 | the chosen route and the refusal, in the order of the checks |
| BoundedInference.Runner.CountCall | backend/app/agent_runtime/infrastructure/bounded_inference.py:124 | the counter of the kind goes up by one, in place or as a new entry |
| BoundedInference.Runner.Generate | backend/app/agent_runtime/infrastructure/bounded_inference.py:52-205 | one call leaves exactly the ledger of its specification, uncertain until usage is accounted for |
| InferenceBounds.TurnConserves | backend/app/agent_runtime/infrastructure/bounded_inference.py:161-176 | cost, totals and per-kind totals are exactly the sums over priced requests, and at most the last request is unaccounted |
| InferenceBounds.NothingAfterUncertain | backend/app/agent_runtime/infrastructure/bounded_inference.py:94-95 | after unaccounted usage nothing is ever sent again |
| InferenceBounds.AtMostSixteen | backend/app/agent_runtime/infrastructure/bounded_inference.py:96-97 | at most 16 requests are made, those of an earlier attempt included |
| InferenceBounds.TurnKeepsLimits | backend/app/agent_runtime/infrastructure/bounded_inference.py:98-123 | cost and input tokens stay within the turn's limits, under fair prices and bounded responses |
| InferenceBounds.DearCacheOverspends | backend/app/agent_runtime/infrastructure/bounded_inference.py:107-121 | with a dearer cached-read price one admitted response overspends |
| RoutedUsage.SettledCost | backend/app/agent_runtime/infrastructure/routed_usage.py:10-46 | a cost exactly when every request is priced by the catalogue and the totals agree; then the sum of the prices |
| InferenceBounds.SettlementAgrees | backend/app/agent_runtime/infrastructure/routed_usage.py:15-46 | the controller's settlement equals the runner's cost, unless usage is uncertain or more than 16 entries are reported |
| InferenceBounds.SettledExactlyWhenCounted | backend/app/agent_runtime/infrastructure/adaptive_patch.py:112-133 | every certain turn is settled if and only if an earlier attempt, if any, counted a call |
| InferenceBounds.UncountedPriorOverflows | backend/app/agent_runtime/infrastructure/patch_pipeline.py:398-403 | an uncounted earlier attempt allows 17 priced entries, which are not settled |
| PatchPipeline.RunTurn | backend/app/agent_runtime/infrastructure/patch_pipeline.py:146-418 | the result, requests and accounted usage of its specification; at most two requests; totals within both limits; what is handed to adaptive execution |
| PatchPipeline.HandoffSettles | backend/app/agent_runtime/infrastructure/patch_pipeline.py:323-327 | whatever follows a handoff after a request is settled and stays within 16 requests |
| PatchPipeline.Generation.RecoverSavedPatch | backend/app/agent_runtime/infrastructure/patch_pipeline.py:86-141 | a saved patch is recovered at most once, even if the recovery crashes |
| PatchPipeline.Generation.RetryTurn | backend/app/agent_runtime/infrastructure/patch_pipeline.py:163-181 | a generation without requests works as usual; one with a request recovers its saved patch or changes nothing |
| PatchPipeline.RequestsStop | backend/app/agent_runtime/infrastructure/patch_pipeline.py:163-177 | once a generation has made a request, no later turn of it makes another one |
| PatchPipeline.RecoveredAtMostOnce | backend/app/agent_runtime/infrastructure/patch_pipeline.py:86-105 | over any turns of a generation, with crashes, at most one recovery; after the first request, exactly if it was recoverable then and a turn followed |
| DockerFrames.Decoder.TakeLines | backend/app/agent_runtime/infrastructure/docker_harness.py:48-56 | the complete lines become events; blank ones are skipped |
| DockerFrames.Decoder.Feed | backend/app/agent_runtime/infrastructure/docker_harness.py:32-57 | one feed equals draining the joined buffer |
| DockerStream.AnyTwoCutsAgree | backend/app/agent_runtime/infrastructure/docker_harness.py:25-57 | any two ways of cutting a stream give the same events and buffers or both raise; the partial line is newline-free and bounded |
| DockerStream.DrainRests | backend/app/agent_runtime/infrastructure/docker_harness.py:45-50 | between feeds there is no complete frame, no complete line and a bounded line |
| DockerStream.DrainIsExpected | backend/app/agent_runtime/infrastructure/docker_harness.py:32-57 | the decoder equals an independent reading of frames, standard output and its lines, errors included |
| DockerStream.EventsAreLines | backend/app/agent_runtime/infrastructure/docker_harness.py:32-57 | events are the nonblank lines of the concatenated standard output, however it is cut |
| RunnerTransport.FramesRoundTrip | backend/app/agent_runtime/infrastructure/docker_harness.py:35-42 | framed payloads read back exactly |
| RunnerTransport.WrittenLinesArrive | backend/app/agent_runtime/infrastructure/docker_harness.py:25-57 | lines arrive as events under any framing, interleaving with standard error and chunking |
| RunnerTransport.Harness.Accept | backend/app/agent_runtime/infrastructure/docker_harness.py:147-199 | which event is accepted when |
| RunnerTransport.Harness.Read | backend/app/agent_runtime/infrastructure/docker_harness.py:134-205 | the reader handles exactly the delivered events up to the first error, and ends orderly only with a receipt |
| RunnerTransport.RunsAreOrderly | backend/app/agent_runtime/infrastructure/docker_harness.py:147-189 | a receipt belongs to the one announced session and is final; supervision requests are 1, 2 without gaps |
| RunnerTransport.DeliveredIsPrefix | backend/app/agent_runtime/infrastructure/docker_harness.py:145-146 | what is delivered under any cuts is a prefix of what is delivered byte by byte |
| RunnerTransport.SilentExactly | backend/app/agent_runtime/infrastructure/docker_harness.py:32-57 | byte by byte nothing is delivered exactly if no readable run of frames from the beginning holds an event |
| RunnerTransport.CutsAgreeExactly | backend/app/agent_runtime/infrastructure/docker_harness.py:145-146 | all cuts of a stream deliver the same events if and only if its frames, lines and events can all be read, or no readable run of frames from its beginning holds an event |
| RunnerTransport.BrokenFrameLosesEvent | backend/app/agent_runtime/infrastructure/docker_harness.py:35-46 | a stream whose one event is delivered or lost, depending on the cut |
| JsonText.LoadsPrinted | backend/app/agent_runtime/infrastructure/agent_codec.py:25-37 | JSON text, compact or indented, reads back as the printed value |
| JsonPrefix.TruncatedIsRefused | backend/app/agent_runtime/infrastructure/agent_codec.py:60-64 | a string, array or object cut short anywhere is refused |
| JsonPrefix.TextMentions | backend/app/agent_runtime/infrastructure/agent_codec.py:32-36 | compact text holds a character outside printable ASCII exactly where a string of the value does, control characters excepted |
| StructuralCompression.CountKeys | backend/app/agent_runtime/infrastructure/structural_compression.py:8-21 | the Counter after a value, or a refusal exactly for values nested too deeply |
| StructuralCompression.UnpackNode | backend/app/agent_runtime/infrastructure/structural_compression.py:52-76 | the loop that decodes keys equals the specification, with every refusal |
| CompressionRoundTrip.DictionaryIs | backend/app/agent_runtime/infrastructure/structural_compression.py:22-25 | the dictionary is the first 128 eligible keys in order |
| CompressionRoundTrip.CompressPacket | backend/app/agent_runtime/infrastructure/structural_compression.py:7-37 | counting in any order gives the specified compressed packet |
| CompressionRoundTrip.RenameDecodes | backend/app/agent_runtime/infrastructure/structural_compression.py:58-69 | every renamed key decodes to the key itself |
| CompressionRoundTrip.RenameIsInjective | backend/app/agent_runtime/infrastructure/structural_compression.py:27-32 | no two keys are renamed to the same one |
| CompressionRoundTrip.PackedMembers | backend/app/agent_runtime/infrastructure/structural_compression.py:27-32 | renamed keys of an object never meet |
| CompressionRoundTrip.UnpackPacked | backend/app/agent_runtime/infrastructure/structural_compression.py:52-76 | unpacking restores the value or finds it too deep, exactly as packing does |
| CompressionRoundTrip.CompressionIsLossless | backend/app/agent_runtime/infrastructure/structural_compression.py:7-81 | decompress(compress(v)) == v for every object that compress accepts, which are exactly the shallow ones |
| AgentEnvelope.IdRoundTrip | backend/app/agent_runtime/domain/envelope.py:41-45 | a printed task id parses back |
| AgentEnvelope.FieldsRoundTrip | backend/app/agent_runtime/infrastructure/agent_codec.py:70-89 | a valid packet is read back from its fields under any seven names |
| AgentCodec.CollectFields | backend/app/agent_runtime/infrastructure/agent_codec.py:59-64 | the field loop of the line-based codec |
| AgentCodec.UniqueFields | backend/app/agent_runtime/infrastructure/agent_codec.py:40-46 | duplicate keys are refused, and only they |
| CodecRoundTrip.LinesRead | backend/app/agent_runtime/infrastructure/agent_codec.py:56-65 | field lines are read back exactly when no value holds a separator, and otherwise refused |
| CodecRoundTrip.DecodeEncoded | backend/app/agent_runtime/infrastructure/agent_codec.py:22-89 | decode(encode(p)) == p if and only if the text is within its size bound and, for the line-based codec, no string holds U+0085, U+2028 or U+2029 |
| CodecRoundTrip.DslLosesLineSeparator | backend/app/agent_runtime/infrastructure/agent_codec.py:59-60 | a concrete packet that is encoded and then refused |
| WorkPlan.OrderedUnits | backend/app/agent_runtime/infrastructure/work_plan.py:51-61 | the loop equals the specified order |
| WorkPlan.OrderedExactly | backend/app/agent_runtime/infrastructure/work_plan.py:43-61 | an order is found exactly when one exists; it is a permutation, follows dependencies, and takes the earliest ready unit |
| WorkPlan.DependenciesComeFirst | backend/app/agent_runtime/infrastructure/adaptive_patch.py:448-457 | every dependency has a smaller index |
| WorkHistory.CollectUnits | backend/app/agent_runtime/domain/work_history.py:26-45 | the inner loop over the units of one plan, with its growing set of ids and its early returns |
| WorkHistory.CollectPlans | backend/app/agent_runtime/domain/work_history.py:9-47 | the outer loop over plans, with its growing set of revisions and the inner loop in it, equals the specification |
| WorkHistory.AcceptedExactly | backend/app/agent_runtime/domain/work_history.py:9-47 | plans pass unchanged exactly when they are within every bound |
| WorkHistory.PublicIsIdempotent | backend/app/agent_runtime/domain/work_history.py:9-47 | whatever is read is bounded, and reading it again changes nothing |
| AdaptivePatch.RepairsShrink | backend/app/agent_runtime/domain/repair_progress.py:14-32 | another repair is earned exactly by a nonempty proper subset of the failing checks |
| AdaptivePatch.PlannedIsValid | backend/app/agent_runtime/infrastructure/adaptive_patch.py:443-461 | an ordered graph makes a plan within every bound |
| AdaptivePatch.Execution.Progress | backend/app/agent_runtime/infrastructure/adaptive_patch.py:154-175 | marks the unit in the last plan and emits a snapshot within bounds |
| AdaptivePatch.Execution.Unit | backend/app/agent_runtime/infrastructure/adaptive_patch.py:260-395 | how the attempts end, the snapshots they emit, the plans and the admitted paths they leave; the failing sets that earned repairs strictly shrink |
| AdaptivePatch.AttemptsMean | backend/app/agent_runtime/infrastructure/adaptive_patch.py:274-395 | a unit succeeds exactly when its last attempt passed; every earlier attempt was a failing check or the first patch that did not apply |
| AdaptivePatch.Execution.Plan | backend/app/agent_runtime/infrastructure/adaptive_patch.py:397-471 | an answer is refused or becomes the last plan, under its own revision, after every earlier plan was superseded |
| AdaptivePatch.AvailableMeans | backend/app/agent_runtime/infrastructure/adaptive_patch.py:433-442 | the check with its growing set accepts exactly the orders in which each unit uses what exists or was created before it, and creates what does not exist |
| AdaptivePatch.Execution.RunUnits | backend/app/agent_runtime/infrastructure/adaptive_patch.py:484-486 | units run in order until one stops: those before it are READY, it is RUNNING or REPAIRING, those after it PENDING |
| AdaptivePatch.UnitsMean | backend/app/agent_runtime/infrastructure/adaptive_patch.py:484-486 | all units are started exactly when none stops; otherwise the stop is the one of the last started |
| AdaptivePatch.Execution.ExecuteGraph | backend/app/agent_runtime/infrastructure/adaptive_patch.py:473-525 | terminates, with the outcome, the replans and the attempted units of its specification |
| AdaptivePatch.RoundsMean | backend/app/agent_runtime/infrastructure/adaptive_patch.py:481-498 | at most six units and the allowed replans; a stop that could be replanned was not only because an allowance was used up or usage was uncertain |
| AdaptivePatch.Execution.Run | backend/app/agent_runtime/infrastructure/adaptive_patch.py:527-618 | completes exactly when the specification does; every emitted snapshot is accepted unchanged; completed means every unit is READY, stopped means none is left running |
| ProgressGovernor.Governor.Read | backend/app/agent_runtime/application/developer_progress_governor.py:54-59 | the counters of a read |
| ProgressGovernor.Governor.Check | backend/app/agent_runtime/application/developer_progress_governor.py:61-74 | outcomes, repeated failures, improvements and regressions of a check |
| ProgressGovernor.Governor.Progress | backend/app/agent_runtime/application/developer_progress_governor.py:76-87 | a new diff starts an epoch and forgets its counts |
| ProgressGovernor.Governor.Compact | backend/app/agent_runtime/infrastructure/codex.py:358-359 | a compaction counts, and changes nothing else |
| ProgressGovernor.Governor.Observe | backend/app/agent_runtime/application/developer_progress_governor.py:96-164 | conditions, the winning stop reason and what is reported |
| ProgressGovernor.Governor.Restore | backend/app/agent_runtime/application/developer_progress_governor.py:43-52 | what a snapshot gives back |
| GovernorHistory.TotalIsMaximum | backend/app/agent_runtime/application/developer_progress_governor.py:110-111 | the total is the running maximum of what was observed |
| GovernorHistory.ProgressIsPast | backend/app/agent_runtime/application/developer_progress_governor.py:68-83 | the last progress never exceeds the total and never goes back |
| GovernorHistory.FirstReadsAreCounted | backend/app/agent_runtime/application/developer_progress_governor.py:54-87 | reads minus repeated reads are the first reads of every epoch between diff changes |
| GovernorHistory.ChangesAreCounted | backend/app/agent_runtime/application/developer_progress_governor.py:76-84 | the diff counter counts exactly the events that change the fingerprint |
| GovernorHistory.CompactionsAreCounted | backend/app/agent_runtime/infrastructure/codex.py:358-359 | the compaction counter counts exactly the compactions |
| GovernorHistory.CompactionLoopStops | backend/app/agent_runtime/application/developer_progress_governor.py:153-156 | after too many compactions and too many tokens without progress, every enforcing observation stops |
| GovernorHistory.WarningsAreReportedOnce | backend/app/agent_runtime/application/developer_progress_governor.py:160-164 | each warning is reported at most once, and once if it became known |
| GovernorHistory.ReportedOnceAcrossRestore | backend/app/agent_runtime/application/developer_progress_governor.py:43-52 | also across any chain of snapshots and restorations |
| GovernorHistory.StopsAreKept | backend/app/agent_runtime/application/developer_progress_governor.py:162-163 | a stop reason is never cleared, and only enforcement sets one |
| GovernorHistory.RestoreKeeps | backend/app/agent_runtime/application/developer_progress_governor.py:166-216 | restoring a snapshot gives back exactly what it carries and nothing else |
| GovernorHistory.RestoredStopsExactly | backend/app/agent_runtime/application/developer_progress_governor.py:43-52 | a fresh governor restored from a snapshot is not stopped, and its next observation stops it if and only if the policy enforces and input, compactions without progress or context are past their limits |
| GovernorHistory.LoopIsForgotten | backend/app/agent_runtime/application/developer_progress_governor.py:43-52 | a governor stopped for a loop of commands, whose restored copy the same observation does not stop |
| GovernorHistory.InputLimitIsFinal | backend/app/agent_runtime/application/developer_progress_governor.py:157-163 | once the input limit is reached every later observation stops for it, restored or not |
| GovernorHistory.NoDiscoveryStopAfterEdit | backend/app/agent_runtime/application/developer_progress_governor.py:120-147 | after an edit no observation stops for discovery or repeated reading |
| AnalyticsCache.Cache.ReadKey | backend/app/analytics/infrastructure/cache.py:20-33 | a fresh value, the fill to await, or a refusal exactly at capacity |
| AnalyticsCache.Cache.FinishFill | backend/app/analytics/infrastructure/cache.py:39-48 | the result is stored, the fill ends, the slot is free |
| AnalyticsCache.CacheIsSafe | backend/app/analytics/infrastructure/cache.py:20-48 | in every interleaving: one fill per key, at most 128 fills and entries, bounded inner calls, and every answer is the value of a finished call with that key, given less than 20 seconds after it finished or to a reader that awaited it |
| AnalyticsCache.TimesAreTrue | backend/app/analytics/infrastructure/cache.py:20-48 | an answer carries the moment it was given, a finished call the moment it finished |
| AnalyticsCache.NoSecondCall | backend/app/analytics/infrastructure/cache.py:26-33 | over any interleaving, as long as a fill has not ended no second fill of its key is created |
| AnalyticsCache.EvictsLeastRecentlyTouched | backend/app/analytics/infrastructure/cache.py:43-45 | what is evicted was hit or first stored longest ago |
| RepositoryIndex.Walk | backend/app/agent_runtime/infrastructure/repo_index.py:196-237 | rows up to the limits, and exactly the changed files are read |
| RepositoryIndex.IndexSnapshot | backend/app/agent_runtime/infrastructure/repo_index.py:164-259 | the incremental index with its early return |
| RepositoryIndex.IncrementalIsFresh | backend/app/agent_runtime/infrastructure/repo_index.py:164-259 | with signatures that determine contents, the incremental index equals a scan from an empty cache |
| RepositoryIndex.HistoryIsForgotten | backend/app/agent_runtime/infrastructure/repo_index.py:164-259 | after any sequence of file changes the index depends on the last workspace alone |
| RepositoryIndex.Catalog | backend/app/agent_runtime/infrastructure/repo_index.py:414-431 | the loop gives the catalogue of its specification: candidates, then the areas layer by layer |
| RepositoryIndex.CatalogMeans | backend/app/agent_runtime/infrastructure/repo_index.py:414-431 | candidates first, no path twice, every file unless a limit was met |
| RepositoryIndex.EveryAreaIsSeen | backend/app/agent_runtime/infrastructure/repo_index.py:421-431 | no area crowds out another: with room for one path of each, every area is in the catalogue |
| RepositoryIndex.PartialMeansMissing | backend/app/agent_runtime/infrastructure/repo_index.py:435 | partial is reported exactly when some file is missing |
| SourceRanges.TopIsBest | backend/app/agent_runtime/infrastructure/patch_context.py:41-44 | the ranked lines are in rank order and none is passed over |
| SourceRanges.SelectionFits | backend/app/agent_runtime/infrastructure/patch_context.py:62-69 | selected lines come from the spans and fit the budget |
| SourceRanges.FailsExactlyPastTheEnd | backend/app/agent_runtime/infrastructure/patch_context.py:64-66 | the selection fails exactly when a span reaches past the last line |
| SourceRanges.SelectionFailsExactly | backend/app/agent_runtime/infrastructure/patch_context.py:41-66 | the selection fails exactly when the span of a ranked matching line ends past the last line |
| SourceRanges.ComponentFailsExactly | backend/app/agent_runtime/infrastructure/repo_index.py:116-120 | with a component symbol the oversized file fails exactly if it has as many newlines as lines, the symbol is short enough for a span, and any line matches |
| SourceRanges.ShortComponentFails | backend/app/agent_runtime/infrastructure/repo_index.py:116-120 | a concrete source that fails |
| SourceRanges.GroupRanges | backend/app/agent_runtime/infrastructure/patch_context.py:72-86 | the ranges are exactly the maximal runs of the selected lines, ascending and disjoint, with their text |
| SourceRanges.CompileSource | backend/app/agent_runtime/infrastructure/patch_context.py:29-92 | whole sources within the budget; otherwise maximal runs within it, or the exact error; an index error exactly if an oversized source has an overrunning match |
| SourceRanges.RunsAreUnique | backend/app/agent_runtime/infrastructure/patch_context.py:72-86 | the ranges are determined by the selected lines |

## Left out

- SQL, sessions and row locks: a transaction is one atomic step; rows skipped because another transaction holds their lock are parameters.
- `ProcessCoordinator`: context expansion by read tools and polling intervals; the transactions of a turn interleave with all others in any order.
- Lifecycle services (`control_task`, `record_transition`, `request_execution`, `current_requirement`) and `authorized`: parameters; the only assumption is that versions never decrease.
- Task events, task messages and review cycles written beside the modelled tables.
- Decimal rounding: amounts are exact reals; wall-clock time is a non-decreasing integer, months are numbered.
- A task never changes its Team, and budgets are fixed; enabling, pausing and archiving are steps.
- LedgerStore.Store.Rollover: the workspace checkpoint, the rollover allowance and the policy only decide whether it is called.
- Run checkpoints, token efficiency records and the consultation accounting of helpers.
- Periods other than the current month in `periodic_usage`.
- JSON: NaN and lone surrogates, integers of more than 4300 digits and recursion limits; a float is its printed lexeme, so other spellings of the same number count as different values.
- `UUID` spellings with braces, prefixes or underscores, which `encode` never writes.
- UTF-8 decoding and JSON parsing of log lines: an arbitrary function from bytes to events.
- The container launch, the mounts and the clean-up of `DockerHarness`; the pace of progress callbacks.
- AdaptivePatch.Execution.Unit: packets, effort levels and prompts; which files a patch touched is part of the attempt's answer.
- AdaptivePatch.Execution.Plan: the graph is assumed to have passed its own validation when it was parsed.
- The exact number of model requests of one adaptive turn; the shared ceiling is proved for the ledger.
- Timings, the phase label and the view of the progress window in the governor.
- Syntax extraction and `dependency_paths`: arbitrary functions; digests are injective, so contents stand for them. The size limit of the saved index is covered by starting from no index.
- Ranking of survey candidates, source slices, and the order of paths inside an area.
- RepositoryIndex.Catalog: the areas are given with their sorted paths.
- Cancellation of a fill before it first runs, which only a closing event loop can cause.
- `quantile`, `parse_changes`, `createLiveRefresh`, merge policy, model policy, unified diffs and the checks of other tools.
