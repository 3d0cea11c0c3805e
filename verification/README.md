# Verified model of the Ruyi Agent Gateway

This Dafny project models the parts of the Gateway whose correctness depends on
many steps, many owners or many bytes, and proves what those parts promise over
every run and every input:

- **Creating a Task once** (`RouteLedger`, `CommandLedger`, `CreateProtocol`,
  `CreateAssertions`, `CreateInvariant`, `CreateChecks`, `CreateSteps`,
  `CreateTheorems`, `CreateRecovery`, `CreateRaces`, `CreateGateway`). A create
  request is recorded in two SQLite databases that cannot commit
  together. The model has each transaction as one atomic step, any number of
  requests and readers with stale values in their program counters, downstream
  outcomes (taken, refused, unknown, not dispatched), cancellations that leave a
  store call running in the background, crashes, and the two recovery sweeps in
  their startup order. The proof is one inductive invariant relating both
  ledgers to ghost counts of sends.
- **The durable event stream** (`EventLog`, `EventStream`,
  `EventStreamTheorems`): an append-only log, subscriptions with resume cursors,
  and the decision to end a stream.
- **Channel delivery** (`DeliveryLedger`, `DeliveryStore`, `DeliveryProtocol`,
  `DeliveryTheorems`, `DeliveryRepeats`, `DeliverySchedule`, `Redrive`): fenced
  leases, the watch loop with its hooks, the step ledger, the reconciler's
  schedule, and back-off.
- **The SSE codec** (`JsonText`, `SseLines`, `Sse`): JSON printing, the nesting
  guard, the chunked line splitter, the record parser. The format is section 9.2
  ("Server-sent events") of the WHATWG HTML Living Standard with stricter
  errors; JSON strings follow section 7 of RFC 8259.
- **Wire budgets** (`BoundedText`, `Projection`, `ReviewProjection`,
  `ReviewBudget`, `LifecycleEvent`): the projections that keep a lifecycle event below 512 KiB.
- **Mailbox** (`Mailbox`, `MailboxStore`), **review pages** (`ReviewPages`), the
  **remote stream monitor** (`RemoteStream`, `RemoteReader`) and the **worker graph**
  (`WorkerGraph`).

Objects that update their fields in place are classes, and each of their
methods is proved equal to a transaction function; the lemmas are about runs of
those functions. Loops are methods proved against a specification.

`dafny verify dfyconfig.toml` checks the whole project.

## Where the code and its description differ

- `create_not_dispatched_is_durable` (gateway_route_store.py:407-423) is
  described as evidence that nothing was dispatched. A boundary that reads
  `reserved` is such evidence for every replay policy except `ruyi_gateway_v1`
  (`ReservedProvesExactly`): there a later replay that was not dispatched resets
  the boundary (create_errors.py:59-77), and `ReplayRewindsBoundary` builds a run
  with a taken send whose route reads pending and reserved.
- A local route can be settled as `failed`, "Gateway Task creation did not
  start", although its Task runs, and then no retry ever activates it. A reader
  does it that read the evidence before the create crossed its boundary and
  commits afterwards (`ReaderFailsARunningTask`), and a cancellation does it that
  finds no durable run yet (`CancellationFailsARunningTask`,
  `CancellationSettles`; route_reservations.py:176-202). `failed` is to be
  believed exactly when the evidence does not read `started`
  (`FailedProvesExactly`, `SettledReservedNeverStarts`).
- An active route can become uncertain, even after its create has succeeded and
  while its Task runs (`ReaderUnsettlesASuccess`). It happens only through a
  process that decided on an outdated copy of the route, a call left behind by
  one, or the sweep of an id that is all blanks (`ActiveEndsOnAStaleCopy`,
  `CheckEndsActiveExactly`).
- A recorded delivery step can be sent again, but never by a later watch
  (`LaterWatchesNeverResend`): exactly by a watch that had already found it
  unrecorded and has not sent it yet (`RepeatableExactly`), at most once each,
  after it was fenced out (`RepeatRule`, `StalledSenderRepeats`).
- Redrive delays can decrease beyond the exponent cap; `NeverDecreasesExactly`
  states exactly when they do not.
- A mailbox watermark can be exceeded without a new publish as long as a message
  beyond it is still claimed or suppressed; `WatermarkExact` is the condition in
  both directions.
- A projected review can exceed its 64 KiB: exactly when `review_configs` is a
  list from which nothing is admitted and what precedes it leaves no room for the
  empty list (`OverBudgetExactly`, with the input of `BrimfulExceeds`); it never
  exceeds 64 KiB plus 20 bytes.

## Model

| member | source | states |
|---|---|---|
| CreateTheorems.AtMostOneEffect | src/ruyi_agent/gateway/create_route_workflow.py:128-264 | over every run of retries, readers, cancellations, crashes and restarts, a `never` remote or local create has at most one effect per key, and none while its boundary reads `reserved` or it has no route |
| CreateTheorems.LedgersAreTruthful | src/ruyi_agent/gateway/create_route_workflow.py:266-328 | a succeeded command has a bound route and its effect (exactly one accepted send where replay is forbidden); an active remote route has an upstream id; a `never` route is failed only if no send was accepted, and a local one with a reserved boundary only if nothing was started |
| CreateTheorems.JointLedgerHistory | src/ruyi_agent/storage/gateway_command_store.py:74-374 | between any two moments of a run: command and route identity fixed, a success keeps its response, failed and uncertain are never left, an active route keeps its upstream id, a settled route its evidence |
| CreateTheorems.RunsKeep | src/ruyi_agent/gateway/commands.py:45-139 | the joint ledger and program-counter invariant holds after every event of every run from an empty database |
| CreateTheorems.ApplyKeeps | src/ruyi_agent/gateway/commands.py:266-351 | one event (a step of any process, a background commit, a crash, a sweep) keeps the invariant |
| CreateTheorems.StepGood | src/ruyi_agent/gateway/create_route_workflow.py:128-165 | every step of a request in any state changes only what its state entitles it to and leaves its own program counter valid |
| CreateSteps.IdleStepGood | src/ruyi_agent/gateway/commands.py:227-264 | claiming, and reopening a failed create, stay within the invariant |
| CreateSteps.ReserveStepGood | src/ruyi_agent/gateway/create_route_workflow.py:177-197 | reserving the route, with or without an existing row, stays within the invariant |
| CreateSteps.RouteMarkStepGood | src/ruyi_agent/gateway/create_route_workflow.py:199-229 | the effect boundary is crossed only when both marks are durable |
| CreateSteps.AnswerStepGood | src/ruyi_agent/gateway/create_errors.py:98-156 | every downstream answer leads to a state whose ledgers may claim it |
| CreateSteps.OutcomeStepGood | src/ruyi_agent/gateway/create_errors.py:36-95 | every classified outcome writes only a transition its evidence allows |
| CreateChecks.SettleGood | src/ruyi_agent/gateway/route_reservations.py:188-210 | settling an interrupted pending route is safe for every other process |
| CreateChecks.CheckGoGood | src/ruyi_agent/gateway/route_reservations.py:140-185 | a reader's reconciliation of a pending route keeps every invariant |
| CreateInvariant.CommitKeeps | src/ruyi_agent/gateway/route_reservations.py:112-121 | a store call left behind by a cancelled request may commit at any later moment |
| CreateSteps.CloseStepGood | src/ruyi_agent/gateway/commands.py:515-536 | command cleanup, including retries after cancellation, keeps the invariant |
| CreateRecovery.RetryAfterCrash | src/ruyi_agent/gateway/commands.py:353-371 | after a crash at any moment, the next same-key create acquires the command if and only if the two ledgers, as they were at the crash, are not closed |
| CreateRecovery.ReservedRouteKeepsKeyOpen | src/ruyi_agent/storage/gateway_route_store.py:407-423 | a pending reserved route (both crash windows between the two databases) always leaves the key open |
| CreateRecovery.RestartIsARun | src/ruyi_agent/runtime/bootstrap.py:152-154 | crash, route sweep, command sweep is a run, and yields the swept ledgers with no process left |
| CreateRecovery.LocalRetrySettles | src/ruyi_agent/gateway/route_reservations.py:140-210 | a same-key retry of a started local create never spawns, whatever its route reads; the route ends active if and only if the Task row shows a run and it had not been settled as failed or uncertain, and otherwise the create is refused for good |
| CreateRecovery.ReplayRewindsBoundary | src/ruyi_agent/gateway/create_errors.py:59-77 | under `ruyi_gateway_v1` a concrete run reaches a pending, reserved route with a send that was taken |
| CreateRecovery.ReservedProvesExactly | src/ruyi_agent/storage/gateway_route_store.py:407-423 | over all runs, a boundary that reads `reserved` proves that nothing was sent if and only if the policy is not `ruyi_gateway_v1` |
| CreateRaces.FailedProvesExactly | src/ruyi_agent/gateway/route_reservations.py:188-210 | over all runs, a failed local route proves that nothing was started if and only if its evidence does not read `started` |
| CreateRaces.SettledReservedNeverStarts | src/ruyi_agent/gateway/route_reservations.py:176-202 | once a local route is settled with a reserved boundary, nothing is started in any continuation |
| CreateRaces.ReaderFailsARunningTask | src/ruyi_agent/gateway/route_reservations.py:164-210 | a concrete run in which a reader settles as failed a local create whose Task runs |
| CreateRaces.CancellationFailsARunningTask | src/ruyi_agent/gateway/create_route_workflow.py:231-264 | a concrete run, without a reader, in which a cancelled local create is settled as failed and its Task then runs |
| CreateRaces.CancellationSettles | src/ruyi_agent/gateway/create_route_workflow.py:231-234 | the cleanup of a cancelled local create whose route is pending ends active when the Task row shows a run at that moment, and failed otherwise, whatever was sent |
| CreateRaces.ReaderUnsettlesASuccess | src/ruyi_agent/gateway/route_reservations.py:188-210 | a concrete run in which a reader turns the active route of a succeeded, running create uncertain |
| CreateRaces.ActiveEndsOnAStaleCopy | src/ruyi_agent/gateway/route_reservations.py:140-210 | in every reachable state an active route ends only as uncertain, and only through a process acting on an outdated copy, a call left behind, or the sweep of a blank id |
| CreateRaces.CheckEndsActiveExactly | src/ruyi_agent/gateway/route_reservations.py:188-210 | a reconciling process ends an active route if and only if its step settles it as uncertain |
| CreateGateway.EveryKeyIsSafe | src/ruyi_agent/gateway/commands.py:45-139 | all keys of the Gateway at once, sharing crashes and sweeps, keep the per-key guarantees |
| RouteLedger.LedgerHistory | src/ruyi_agent/storage/gateway_route_store.py:437-467 | over any history of route transactions: identity fixed, failed and uncertain final, active only to uncertain, the upstream id of an active route unchanged |
| RouteLedger.TransitionEvolves | src/ruyi_agent/storage/gateway_route_store.py:437-467 | an accepted transition reaches the asked state, keeps identity and evidence, and leaves an active route bound |
| RouteLedger.OpEvolves | src/ruyi_agent/storage/gateway_route_store.py:67-170 | every route transaction keeps what a row may never lose |
| RouteLedger.RecoverySettles | src/ruyi_agent/storage/gateway_route_store.py:620-659 | the sweep is idempotent, leaves no started `never` route pending, every active route bound, and durable not-dispatched evidence intact |
| RouteLedger.SweepTable | src/ruyi_agent/storage/gateway_route_store.py:620-659 | three passes over the table equal the per-row recovery |
| RouteLedger.GatewayRouteStore.constructor | src/ruyi_agent/storage/gateway_route_store.py:548-663 | opening a store over existing rows recovers each of them |
| RouteLedger.GatewayRouteStore.Save | src/ruyi_agent/storage/gateway_route_store.py:67-170 | upsert with its identity, evidence and transition guards; a refusal changes nothing |
| RouteLedger.GatewayRouteStore.ReserveCreate | src/ruyi_agent/storage/gateway_route_store.py:175-258 | an existing row wins unless its identity conflicts; otherwise the reservation is inserted |
| RouteLedger.GatewayRouteStore.MarkEffectStarted | src/ruyi_agent/storage/gateway_route_store.py:274-300 | only a pending route's boundary is moved to started |
| RouteLedger.GatewayRouteStore.RestoreNotDispatched | src/ruyi_agent/storage/gateway_route_store.py:308-336 | only a pending started route is reset to reserved |
| RouteLedger.GatewayRouteStore.Transition | src/ruyi_agent/storage/gateway_route_store.py:437-467 | the guarded transition, all other rows unchanged |
| RouteLedger.GatewayRouteStore.GetCreateEvidence | src/ruyi_agent/storage/gateway_route_store.py:376-399 | present exactly for a stored route; scope and policy hold over every later history, and once the route is settled all of the evidence does |
| RouteLedger.GatewayRouteStore.CreateNotDispatchedIsDurable | src/ruyi_agent/storage/gateway_route_store.py:407-423 | the two reads answer whether the row is pending, reserved and of that agent |
| RouteLedger.EvidenceIsFinal | src/ruyi_agent/storage/gateway_route_store.py:274-336 | no history of transactions changes scope or policy, nor the boundary of a settled route |
| CommandLedger.CommandHistory | src/ruyi_agent/storage/gateway_command_store.py:74-374 | over any history of command transactions: identity fixed, success final with its response, a failure left only by reopening |
| CommandLedger.TokenFences | src/ruyi_agent/storage/gateway_command_store.py:220-348 | while a token holds a command, no other token completes, marks, fails or releases it, and no claim or reopening takes it away (startup recovery aside) |
| CommandLedger.OpEvolves | src/ruyi_agent/storage/gateway_command_store.py:74-374 | every command transaction keeps the command's identity and a success's response |
| CommandLedger.FailUnsafeClaims | src/ruyi_agent/storage/gateway_command_store.py:406-456 | the two recovery updates equal the per-row recovery |
| CommandLedger.GatewayCommandStore.ClaimFor | src/ruyi_agent/storage/gateway_command_store.py:74-215 | insert or claim by operation, target and request hash, with every refusal distinguished |
| CommandLedger.GatewayCommandStore.Complete | src/ruyi_agent/storage/gateway_command_store.py:220-242 | only a held claim completes, with its response |
| CommandLedger.GatewayCommandStore.MarkStarted | src/ruyi_agent/storage/gateway_command_store.py:247-268 | only a held claim records that its effect may have started, and whether it is replay-safe |
| CommandLedger.GatewayCommandStore.Fail | src/ruyi_agent/storage/gateway_command_store.py:284-306 | only a held claim is failed |
| CommandLedger.GatewayCommandStore.Release | src/ruyi_agent/storage/gateway_command_store.py:311-324 | only a held claim is released back to the queue |
| CommandLedger.GatewayCommandStore.ReleaseUndispatched | src/ruyi_agent/storage/gateway_command_store.py:329-348 | as release, and the effect marks are reset |
| CommandLedger.GatewayCommandStore.Reopen | src/ruyi_agent/storage/gateway_command_store.py:353-374 | only a failed create with the expected error is reopened |
| EventLog.ScanEvents | src/ruyi_agent/storage/task_event_repository.py:43-64 | the batch is the first `limit` events of the task and run after the id |
| EventLog.SelectSound | src/ruyi_agent/storage/task_event_repository.py:43-64 | a range holds exactly the task's and run's events between its bounds, in increasing id order |
| EventLog.SelectSplit | src/ruyi_agent/storage/task_event_repository.py:43-64 | adjacent ranges concatenate without loss or repetition |
| EventLog.SelectGrows | src/ruyi_agent/storage/task_event_repository.py:67-100 | an append never changes a range that was already visible |
| EventLog.PrefixIsRange | src/ruyi_agent/storage/task_event_repository.py:43-64 | every non-empty batch is exactly the range up to its own last id |
| EventStream.PassKeeps | src/ruyi_agent/runtime/task_event_ledger.py:387-464 | one turn of the subscription loop, with commits between its reads, keeps: delivered plus pending is the log's range since the start |
| EventStreamTheorems.OpenedOk | src/ruyi_agent/runtime/task_event_ledger.py:186-277 | an opened stream, fresh or resumed, starts in a consistent state at the right id |
| EventStreamTheorems.StreamDelivers | src/ruyi_agent/runtime/task_event_ledger.py:387-486 | what a stream yields of the log is a gap-free, duplicate-free beginning of its run's events after its start in increasing order; an end comes once and last |
| EventStreamTheorems.ResumeContinues | src/ruyi_agent/runtime/task_event_ledger.py:186-277 | cut anywhere and resumed from the last delivered id, the two parts together are what one stream would deliver |
| EventStreamTheorems.StreamEndsTruthfully | src/ruyi_agent/runtime/task_event_ledger.py:393-452 | at the end every event of the run in the log has been delivered, and the reason is the Task row's at that moment or `superseded` |
| EventStreamTheorems.QuietDrain | src/ruyi_agent/runtime/task_event_ledger.py:387-464 | once a run is settled, polling yields all that is left and then its end |
| EventStreamTheorems.AnextIsRun | src/ruyi_agent/runtime/task_event_ledger.py:387-464 | one call of the iterator is the stream run over the turns it used |
| EventStreamTheorems.TaskEventSubscription.Next | src/ruyi_agent/runtime/task_event_ledger.py:387-464 | the loop over fields equals the iterator function |
| EventStreamTheorems.TaskEventSubscription.TakePass | src/ruyi_agent/runtime/task_event_ledger.py:388-464 | one turn of the loop over fields equals one pass of the stream |
| EventStreamTheorems.TaskEventSubscription.DecideEnd | src/ruyi_agent/runtime/task_event_ledger.py:393-421 | the decision under the lock re-reads the log and the row before it ends the stream |
| EventStreamTheorems.TaskEventSubscription.QueueStoredEvents | src/ruyi_agent/runtime/task_event_ledger.py:473-486 | queues one batch and advances the start to its last id |
| DeliveryTheorems.DeliveredIsComplete | src/ruyi_agent/channels/presentation.py:788-873 | over every run, delivered implies that a terminal snapshot of the run was presented with message, every artifact of the run and the hook recorded; and only completed sends are recorded |
| DeliveryTheorems.RecordedIsNotResent | src/ruyi_agent/channels/presentation.py:875-908 | whoever holds the newest lease never sends a recorded step, nor any step once the delivery is over |
| DeliveryRepeats.LaterWatchesNeverResend | src/ruyi_agent/channels/presentation.py:788-860 | once a step is recorded, no watch whose token is drawn later ever sends it, in any continuation, fenced out or not |
| DeliveryRepeats.RepeatRule | src/ruyi_agent/channels/presentation.py:808-860 | whoever sends a recorded step had drawn its token and made its check before the step was recorded, and has been fenced out since |
| DeliveryRepeats.RepeatableExactly | src/ruyi_agent/channels/presentation.py:808-860 | a recorded step can be sent again in some continuation if and only if some watch that found it unrecorded has not sent it yet |
| DeliveryRepeats.RepeatsWereAimed | src/ruyi_agent/channels/presentation.py:788-860 | all sends of a recorded step come from watches that were about to send it when it was recorded, at most one from each |
| DeliveryTheorems.StalledSenderRepeats | src/ruyi_agent/channels/presentation.py:808-820 | a concrete run in which a stalled, fenced-out owner repeats a recorded message |
| DeliveryTheorems.RunEvolves | src/ruyi_agent/channels/task_watch.py:145-265 | over whole runs the row's identity is fixed, steps and fence only grow, final states stay, and the fence counts the successful claims |
| DeliveryTheorems.RunIsHistory | src/ruyi_agent/channels/presentation.py:607-748 | every run of the watches is an interleaving of store transactions whose claims never reuse a token |
| DeliveryTheorems.RunKeeps | src/ruyi_agent/channels/task_watch.py:145-265 | the delivery invariant holds after every step of every watch, crash, cancellation and shutdown |
| DeliveryTheorems.WatchTurn | src/ruyi_agent/channels/task_watch.py:145-265 | one step of a watch in any state keeps the invariant and disturbs no other watch |
| DeliveryLedger.OldTokensAreInert | src/ruyi_agent/storage/channel_delivery_store.py:374-785 | once a later claim has succeeded, no transaction of an earlier token ever changes anything |
| DeliveryLedger.FenceCountsClaims | src/ruyi_agent/storage/channel_delivery_store.py:374-484 | the fence is the number of successful claims |
| DeliveryLedger.HolderIsNewest | src/ruyi_agent/storage/channel_delivery_store.py:374-484 | whoever holds the row drew the most recently issued token |
| DeliveryLedger.HistoryEvolves | src/ruyi_agent/storage/channel_delivery_store.py:506-758 | delivered and superseded are never left, steps never lost |
| DeliveryLedger.ClaimableWhenFree | src/ruyi_agent/storage/channel_delivery_store.py:374-413 | a claim succeeds exactly on an unfinished row that is free for the owner |
| DeliveryLedger.LiveLeaseExcludes | src/ruyi_agent/storage/channel_delivery_store.py:389-413 | while a lease lives no other owner can claim |
| ChannelDeliveryStores.ChannelDeliveryStore.StepDelivered | src/ruyi_agent/storage/channel_delivery_store.py:703-712 | tells exactly whether the step is recorded |
| ChannelDeliveryStores.ChannelDeliveryStore.ClaimLease | src/ruyi_agent/storage/channel_delivery_store.py:374-413 | claim: the guard, the new lease and fence, all other rows unchanged |
| ChannelDeliveryStores.ChannelDeliveryStore.ClaimDue | src/ruyi_agent/storage/channel_delivery_store.py:415-484 | the step-by-step guards of the due claim are the claim of a due failed row |
| ChannelDeliveryStores.ChannelDeliveryStore.RenewLease | src/ruyi_agent/storage/channel_delivery_store.py:486-504 | only a live lease is extended |
| ChannelDeliveryStores.ChannelDeliveryStore.Retry | src/ruyi_agent/storage/channel_delivery_store.py:506-535 | records the attempt and keeps a terminal grace |
| ChannelDeliveryStores.ChannelDeliveryStore.Watch | src/ruyi_agent/storage/channel_delivery_store.py:537-556 | resets counters and keeps review waiting and terminal grace |
| ChannelDeliveryStores.ChannelDeliveryStore.StartDelivering | src/ruyi_agent/storage/channel_delivery_store.py:558-585 | enters delivering with its kind and review |
| ChannelDeliveryStores.ChannelDeliveryStore.Fail | src/ruyi_agent/storage/channel_delivery_store.py:587-617 | enters error, counts a redrive only when one is scheduled, and drops the lease |
| ChannelDeliveryStores.ChannelDeliveryStore.WaitForReview | src/ruyi_agent/storage/channel_delivery_store.py:619-636 | only from delivering or review waiting |
| ChannelDeliveryStores.ChannelDeliveryStore.TerminalStepsDone | src/ruyi_agent/storage/channel_delivery_store.py:638-655 | only from delivering or terminal grace |
| ChannelDeliveryStores.ChannelDeliveryStore.Deliver | src/ruyi_agent/storage/channel_delivery_store.py:657-673 | only from terminal grace |
| ChannelDeliveryStores.ChannelDeliveryStore.Supersede | src/ruyi_agent/storage/channel_delivery_store.py:675-691 | from any unfinished state, dropping the lease |
| ChannelDeliveryStores.ChannelDeliveryStore.MarkStepDelivered | src/ruyi_agent/storage/channel_delivery_store.py:714-758 | records the step and advances the cursor under a live lease only |
| ChannelDeliveryStores.ChannelDeliveryStore.ReleaseLease | src/ruyi_agent/storage/channel_delivery_store.py:760-772 | releases by token |
| ChannelDeliveryStores.ChannelDeliveryStore.ReleaseAllOf | src/ruyi_agent/storage/channel_delivery_store.py:774-785 | releases every lease of an owner and nothing else |
| ChannelDeliveryStores.ChannelDeliveryStore.EnsureWatch | src/ruyi_agent/storage/channel_delivery_store.py:204-246 | an existing delivery keeps its state, a new one starts unleased |
| DeliverySchedule.ScheduleAgrees | src/ruyi_agent/storage/channel_delivery_store.py:287-358 | the ranked query's answer is the due list and the next due time of the two simple queries, for every table, time and limit |
| DeliverySchedule.AnswerExists | src/ruyi_agent/storage/channel_delivery_store.py:298-312 | every table has an answer to the ranked query |
| DeliverySchedule.ReadSchedule | src/ruyi_agent/storage/channel_delivery_store.py:313-320 | the loop separates the due rows from the first waiting one |
| DeliverySchedule.RankIsPosition | src/ruyi_agent/storage/channel_delivery_store.py:299-310 | a row's rank in its partition is its position in the ordered list |
| Redrive.DelayBounds | src/ruyi_agent/channels/presentation.py:63-71 | a redrive delay is positive and at most the maximum |
| Redrive.DelaysGrow | src/ruyi_agent/channels/presentation.py:63-71 | from count 1 to 32 the delay never decreases, whatever the two random values |
| Redrive.NeverDecreasesExactly | src/ruyi_agent/channels/presentation.py:63-71 | for all counts from 1 the delays never decrease if and only if the draw no longer matters at the exponent cap, among others when `base_delay * 2^31 >= max_delay` |
| SseLines.IterUtf8SseLines | src/ruyi_agent/gateway_protocol/sse.py:164-187 | however the body is cut into chunks, the lines and the error are those of splitting the whole body |
| SseLines.LineEndsAgree | src/ruyi_agent/gateway_protocol/sse.py:176-182 | LF, CR and CR LF line ends, mixed in any way, split alike |
| SseLines.SplitRender | src/ruyi_agent/gateway_protocol/sse.py:164-187 | well-formed lines written with LF are read back |
| Sse.RoundTrip | src/ruyi_agent/gateway_protocol/sse.py:132-229 | encodable events with comment lines inserted anywhere and any line ends decode to exactly those events, or to those before the first nested too deeply and then an error |
| Sse.EncodedRoundTrip | src/ruyi_agent/gateway_protocol/sse.py:132-161 | the same for the encoder's own output |
| Sse.ReadChunks | src/ruyi_agent/gateway_protocol/transport.py:306-316 | the client's reader depends on the whole body only, not on its chunks, and stops after the first `stream.end` or fails |
| Sse.CutFailsOrIsComplete | src/ruyi_agent/gateway_protocol/transport.py:306-316 | after a connection cut at any byte the client fails, or has exactly what the whole body gives |
| Sse.ReadableIsAll | src/ruyi_agent/gateway_protocol/sse.py:305-322 | all events are read exactly when none exceeds the nesting limit |
| Sse.CommentsAreInvisible | src/ruyi_agent/gateway_protocol/sse.py:209-210 | comment lines change nothing, wherever they stand |
| Sse.CutConnection | src/ruyi_agent/gateway_protocol/sse.py:190-229 | a body cut after any byte shows only events the whole body shows, in the same places |
| Sse.IterGatewayTaskEvents | src/ruyi_agent/gateway_protocol/sse.py:190-229 | the loop over record variables equals the record parser |
| Sse.EncodeIsLines | src/ruyi_agent/gateway_protocol/sse.py:149-161 | an encoded event is its field lines and one blank line, each ended by LF |
| JsonText.DepthScanIsExact | src/ruyi_agent/gateway_protocol/contracts.py:199-219 | the character scan accepts a printed value exactly when its nesting is at most 100, whatever its strings contain |
| JsonText.ValidateJsonDepth | src/ruyi_agent/gateway_protocol/contracts.py:199-219 | the loop computes the scan |
| JsonText.PrintClean | src/ruyi_agent/gateway_protocol/sse.py:138-144 | a printed value is valid UTF-8 without control bytes, so it stays on one line |
| JsonText.StringSizeIsExact | src/ruyi_agent/gateway_protocol/projection.py:408-416 | the size of an encoded string is the sum of its characters' sizes and two quotes |
| BoundedText.BoundText | src/ruyi_agent/gateway_protocol/projection.py:209-230 | the binary search returns the bounded text, and the flag tells exactly whether anything was changed |
| BoundedText.BoundedIsLongest | src/ruyi_agent/gateway_protocol/projection.py:209-230 | the bounded text is the longest prefix of the normalised text within both budgets |
| Projection.ProjectArtifacts | src/ruyi_agent/gateway_protocol/projection.py:348-366 | the longest prefix of the artifacts within count and byte budget, with the running size equal to the true size, and an exact truncation flag |
| Projection.ProjectArtifact | src/ruyi_agent/gateway_protocol/projection.py:369-405 | every field under its own key and budget, and an exact truncation flag |
| Projection.ArrayAppend | src/ruyi_agent/gateway_protocol/projection.py:355-362 | appending an item costs its size and, unless first, one comma |
| ReviewProjection.ProjectPendingReview | src/ruyi_agent/gateway_protocol/projection.py:233-287 | ids, actions and configs of an untyped review within 64 KiB plus 20 bytes, with an exact truncation flag |
| ReviewProjection.ProjectList | src/ruyi_agent/gateway_protocol/projection.py:290-326 | the usable items in order, stopping only at the end or before one that would not fit |
| ReviewBudget.OverBudgetExactly | src/ruyi_agent/gateway_protocol/projection.py:280-287 | a projected review exceeds 64 KiB if and only if its configs are a list from which nothing is admitted and what precedes it leaves no room for the empty list |
| ReviewBudget.BrimfulExceeds | src/ruyi_agent/gateway_protocol/projection.py:250-287 | an input, sixteen long action names and an empty list of configs, whose projection exceeds 64 KiB |
| ReviewProjection.ProjectReviewDecisions | src/ruyi_agent/gateway_protocol/projection.py:329-345 | the first 20 usable choices, bounded, with an exact truncation flag |
| LifecycleEvent.LifecycleEventData | src/ruyi_agent/gateway_protocol/projection.py:32-63 | for every record the event carries its projection, also when the review projects to nothing, and its truncation marks, and fits 512 KiB: the guard never raises |
| Mailbox.RunKeeps | src/ruyi_agent/storage/mailbox_store.py:51-602 | over every interleaving: no row lost, identity fixed, delivered and retracted never left, sequences unique and increasing, every delivered settled intent has its message |
| Mailbox.LiveClaimIsExclusive | src/ruyi_agent/storage/mailbox_store.py:227-440 | while a claim lives, only its owner presenting its token, or a retraction, changes the message |
| Mailbox.HolderActsExactly | src/ruyi_agent/storage/mailbox_store.py:298-388 | an acknowledge or release takes effect exactly for a live claim of that owner and token |
| Mailbox.LostTokenIsInert | src/ruyi_agent/storage/mailbox_store.py:298-440 | a token that lost a message never acknowledges, releases or renews it at any later point of any run |
| Mailbox.DeliveredAtMostOnce | src/ruyi_agent/storage/mailbox_store.py:298-359 | a message is delivered at most once in any run |
| Mailbox.WatermarkExact | src/ruyi_agent/storage/mailbox_store.py:462-509 | without an arrival no operation exceeds a watermark, if and only if no outstanding message lies beyond it |
| Mailbox.WatermarkHolds | src/ruyi_agent/storage/mailbox_store.py:462-481 | with no outstanding message, only a later publish exceeds a recorded watermark |
| Mailbox.WatermarkCanBreak | src/ruyi_agent/storage/mailbox_store.py:493-509 | with an outstanding one, expiry and an end of suppression alone exceed it |
| Mailbox.PublishWakes | src/ruyi_agent/storage/mailbox_store.py:586-597 | a new trigger exceeds every watermark recorded before it |
| Mailbox.SettledOnce | src/ruyi_agent/storage/mailbox_store.py:85-147 | a settled result marked delivered has exactly one message, however often it was retried |
| MailboxStores.ClaimTakesExactly | src/ruyi_agent/storage/mailbox_store.py:238-283 | a claim under a fresh token takes exactly the pending or lapsed, addressed, unsuppressed messages |
| MailboxStores.MailboxStore.PublishMessage | src/ruyi_agent/storage/mailbox_store.py:51-83 | inserts with the next sequence exactly when id and key are new |
| MailboxStores.MailboxStore.ClaimMessages | src/ruyi_agent/storage/mailbox_store.py:227-296 | frees expired claims, then claims; returns what the token holds |
| MailboxStores.MailboxStore.AcknowledgeClaims | src/ruyi_agent/storage/mailbox_store.py:298-331 | the loop over pairs delivers and counts each live claim once |
| MailboxStores.MailboxStore.AcknowledgeClaimTokens | src/ruyi_agent/storage/mailbox_store.py:333-359 | delivers and counts the live claims under the tokens |
| MailboxStores.MailboxStore.ReleaseClaimTokens | src/ruyi_agent/storage/mailbox_store.py:361-388 | releases and counts the live claims under the tokens |
| MailboxStores.MailboxStore.RenewClaimTokens | src/ruyi_agent/storage/mailbox_store.py:390-440 | extends and reports exactly the tokens that still hold a live claim |
| MailboxStores.MailboxStore.RetractSettledMessages | src/ruyi_agent/storage/mailbox_store.py:442-460 | retracts the open messages of one child run in one thread |
| MailboxStores.MailboxStore.MaxTriggeringSequence | src/ruyi_agent/storage/mailbox_store.py:462-481 | exceeds a watermark exactly when a pending, unsuppressed trigger lies beyond it |
| MailboxStores.MailboxStore.PendingTriggerRecipients | src/ruyi_agent/storage/mailbox_store.py:206-225 | lists exactly the recipients with such a trigger |
| ReviewPages.WalkIsExact | src/ruyi_agent/gateway/reviews.py:73-127 | walking the cursors to the end under any inserts and deletions, each review that stays pending until shown, with its owner admitted when the review itself is looked at, comes exactly once |
| ReviewPages.ItemsWereAdmitted | src/ruyi_agent/gateway/reviews.py:97-115 | nothing is shown that was not pending with an admitted owner at its own turn |
| ReviewPages.DifferentOwnersStay | src/ruyi_agent/gateway/reviews.py:186-222 | reviews of different owners on different pages both stay, although no refresh knows the other's owner |
| ReviewPages.WalkIsOrdered | src/ruyi_agent/gateway/reviews.py:73-127 | such a walk is strictly descending in ingest order and never shows a review that arrived after its first page |
| ReviewPages.PagesAreBounded | src/ruyi_agent/gateway/reviews.py:94-117 | no page of a walk exceeds the limit |
| ReviewPages.ListReviews | src/ruyi_agent/gateway/reviews.py:73-127 | a page is what its batches admitted from its start on, and stops short only at an unreachable owner |
| ReviewPages.StartSplits | src/ruyi_agent/gateway/reviews.py:551-569 | a resumed page starts where the cursor's sequence splits the list, whether or not its review is still there |
| RemoteStream.ProjectRemote | src/ruyi_agent/gateway/routing.py:346-428 | whatever the peer sends, the longest prefix in the language is forwarded, and nothing else; it fails unless the reader ended and that was everything but a last unpaired error |
| RemoteStream.EndIsLast | src/ruyi_agent/gateway/routing.py:346-428 | over the client's reader an end is the last event yielded, and the proxy succeeds if and only if it yielded one |
| RemoteReader.ClientIsReader | src/ruyi_agent/gateway_protocol/transport.py:306-317 | the client's reader hands over nothing after an end and raises exactly when none came, for every body and validation |
| RemoteStream.AfterEndExactly | src/ruyi_agent/gateway/routing.py:382-422 | the monitor alone lets an event follow an end if and only if an acceptable beginning of its input has one |
| RemoteStream.FreshEndsAgree | src/ruyi_agent/gateway/routing.py:398-421 | in a fresh stream every other end agrees with the latest forwarded state |
| WorkerGraph.ValidateLocalGraphAcyclic | src/ruyi_agent/config/agent_parser.py:284-307 | accepts exactly the acyclic graphs, with a topological order; a reported cycle is a real, simple closed path |
| WorkerGraph.OrderRulesOutCycles | src/ruyi_agent/config/agent_parser.py:284-307 | a topological order of all local agents rules out every cycle |
| WorkerGraph.CycleCheck.Visit | src/ruyi_agent/config/agent_parser.py:289-304 | the recursive visit keeps path, visiting and visited consistent and finishes its agent, or returns a real cycle |
| WorkerGraph.ValidateAgentGraph | src/ruyi_agent/config/agent_parser.py:255-281 | accepts exactly the valid configurations, and each error names a real defect |
| WorkerGraph.LocalEdgesAre | src/ruyi_agent/config/agent_parser.py:276-280 | the checked edges are the worker edges between local agents |

## Left out

- SQLite itself, WAL, schema creation and migration, legacy rows: every transaction is an atomic guarded update; a store call fails only when its guard refuses.
- CreateRaces.ActiveEndsOnAStaleCopy: says of a call left behind only that it writes `uncertain`, not what its sender had read.
- Transient store failures during a create: with them `_settle_interrupted_route` can return a pending row and the workflow goes on.
- The A2A client, `AgentControl`, LangGraph and `TaskStore`: represented by send outcomes, durable run evidence, and rows committed together with their events; a 4xx answer means that nothing was created.
- `command_id` of a command: the unique pair of principal and key stands for it; fresh Task ids make the route rows of different keys disjoint.
- Creates without an idempotency key, `send_input` commands, response texts, error wording, the replayed outcome's projection, descendant route recovery, and the claim wait timeout except as a refusal.
- Timestamps, webhooks and metadata of routes: opaque or absent.
- The subscriber queue's limit on pending deltas, wakeups, and the cursor's base64 form: the stream model receives deltas and log views directly.
- Channel deliveries: chat ids and update times, hook wiring, restart requests and delivery events of the coordinator; a restarted watch is a new claim, and several coordinators may share an owner name.
- Two coordinators of one owner in one process: the in-process check that a watch is already running is not assumed, so the delivery theorems hold without it.
- `json.loads` and `str.isdecimal`: parameters of the SSE reader; the round trip asks of `loads` only that it inverts the printer on the events sent.
- Validation of remote payload schemas before the monitor, and the projection of deltas and single artifact events.
- ReviewPages.WalkIsExact and ReviewPages.WalkIsOrdered: assume that review ids and ingest sequences are unique and never change; legacy cursors (offset and versions 1, 2, 3 and 5), the base64 form and the cursor's range check on sequences are absent.
- The order of messages within one mailbox claim, and the rest of the settled outbox: its other state changes are arbitrary environment steps.
- Artifact and run sizes are natural numbers; ISO timestamps are assumed to take at most 64 bytes with their quotes.
- Floating-point rounding of delays: they are real numbers.
- Attachments, permissions, turn receipts, adapters, HTTP transport, configuration parsing other than the worker graph, command line and scripts: easier forms of the same ideas, or no state.
