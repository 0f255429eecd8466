# BTS durable execution protocol

This project models how BTS, a trading bridge between the Eagle signal feed and Interactive
Brokers (IB), turns an Eagle signal into at most one broker order, and proves what holds over
all its runs, with a process crash allowed between any two durable writes.

Durable state is the Eagle event store (processed ids and cursor), the signal lifecycle, the
execution ledger with its append-only transition log, and the table of processed IB execution
ids. Everything else (duplicate guard, order-id allocator, session flags, what the program was
about to do) is lost in a crash. Each `with self._connect()` block of the repository is one
atomic write; separate blocks are separate steps.

## Layout

| file | models |
|---|---|
| `Protocol.dfy` | identifiers, trade intents and requests |
| `ExecutionLedger.dfy` | `app/execution_ledger.py`: reserve, transition, mark_*, history, lookup by broker id; class `ExecutionLedger` |
| `OrderIdAllocator.dfy` | `app/ib_order_id_allocator.py`; class `IBOrderIdAllocator` |
| `OrderCallbacks.dfy`, `OrderCallbackHandlers.dfy` | `app/ib_order_status_transport.py`, `app/ib_execution_details_transport.py`, `app/ib_error_handler.py`, as functions on the tables and as the classes that update them |
| `ApiCallbacks.dfy` | `app/ib_api_position_app.py`: dispatch of the IB callbacks |
| `ExecutionClient.dfy` | `app/ib_execution_client.py`, `app/duplicate_order_guard.py` |
| `ExecutionMachine.dfy` | every interleaving of submissions, callbacks and crashes over the components above |
| `TwoThreads.dfy` | the read and the write of `transition`, interleaved by the runner and IB threads |
| `ThreadedMachine.dfy` | the client and the handlers step by step on two threads, refining the execution machine |
| `EventStore.dfy` | `app/event_store.py`; class `EventStore` |
| `ReplayDelivery.dfy` | replay over broken connections: `scripts/fake_eagle_disconnect_server.py`, `app/replay_tracker.py` |
| `SignalLifecycle.dfy`, `TradeCoordinator.dfy` | `app/signal_lifecycle_guard.py`, `app/communications/eagle_trade_adapter.py`, `app/trade_coordinator.py` |
| `RiskManager.dfy`, `DailyLossGuard.dfy` | `app/risk_manager.py`, `app/daily_loss_guard.py` |
| `RiskUnderLoss.dfy` | the two together: trades judged under the trip of the moment |
| `CanonicalOrder.dfy`, `Reconciliation.dfy` | `app/reconciliation_manager.py` |
| `RunnerDecisions.dfy` | the decision functions of `scripts/run_real_eagle_ib_paper_trader.py` |
| `Runner.dfy` | the message loop of the runner as a step machine: startup (1284-1377, 1880-2054), hello (2246-2395), heartbeat and reserved-exit recovery (2136-2244, 2397-2427, 1524-1878), updates (2429-2481), replayed frames (2491-2914), live exits (3037-3304), live entries (3306-3691), disconnects (3712-3810) |
| `RunnerSession.dfy` | the loop's session variables as a class, each method proved against `Runner.dfy` |
| `RunnerGate.dfy` | what the runner guarantees whatever its environment does |
| `RunnerInvariant.dfy`, `RunnerSafety.dfy` | the invariant and the exposure theorems |
| `RunnerLimits.dfy` | counterexamples for the assumptions, and exact conditions |
| `RunnerRoundTrip.dfy` | a whole trade, from process start through entry and exit back to flat, inside the assumptions |
| `RunnerAssumptions.dfy` | for each remaining assumption a run that breaks it alone and ends orphaned |
| `RunnerDepartures.dfy` | where the runner does something other than its messages suggest, with exact conditions |
| `RunnerFeed.dfy` | the runner at the end of Eagle's numbered stream: what its cursor passes |
| `ThreadedRunner.dfy` | the trader with the ledger work of both threads taken apart; the exposure theorems over every interleaving |

The parts fit together by refinement: every class method is proved equal to a function on
values, the execution machine steps through those functions, and every run of the trader is
a run of the execution machine (`RunnerGate.RunnerRefinesCore`), so at-most-once submission,
id uniqueness and callback legality carry over to the trader.

## Assumptions of the exposure theorems

`Runners.Enabled` is what the program can do; `Runners.Assumed` is what is asked of the world:
the first frame of a session is fund.hello, a signal has one exit event, terminal broker
reports are true, and the operator flattens only with nothing working and no close on its way.
Each of them is needed, by a run from process start that breaks it and ends with a position no
signal covers: `RunnerLimits.HelloFirstIsNeeded` (the program never checks that a hello came
first), `RunnerAssumptions.OneExitPerSignalIsNeeded`, `RunnerAssumptions.TruthfulReportsAreNeeded`,
`RunnerAssumptions.FlattenWhileWorkingOrphans` and `RunnerRoundTrip.FlattenDuringCloseOrphans`.
`FlatCloseSafeIffNothingWorks` and `CloseSafeIffCheckedPositionHolds` give exact conditions for
the two closes concerned. In `ThreadedRunner.dfy` a report need only be true when the IB thread
looks it up; that it still is when it is written is proved. All other runner theorems need
`Enabled` alone; `RunnerFeed.dfy` takes Eagle's history as numbered with rising positive numbers
and no event id twice, and a session as what Eagle sends after the durable cursor.

## Where code and documentation part

- A replayed exit of a missed signal is announced as consumed
  (`scripts/run_real_eagle_ib_paper_trader.py:2536-2540`) but is not marked processed, because
  line 2503 leaves exits out of the early consume. Of the replayed frames of a missed signal
  exactly the new entries change the store: `RunnerDepartures.MissedReplayConsumesIffEntry`. The
  cursor then passes the exit unprocessed with the next frame, and these are the only events it
  ever passes so: `RunnerFeeds.CursorPassesOnlyMissedExits`.
- Replayed exits are not filtered by symbol, so with IB reachable a new replayed exit stops the
  runner exactly when BTS does not own its signal (1144-1211):
  `RunnerDepartures.ReplayedExitRunsIffOwned`. With IB unreachable the session is given up
  instead, and the exit comes again: `RunnerDepartures.UnreachableReplayedExitRunsOn`.
- The gap-exit check of a heartbeat (2400) comes after the recovery of a reserved exit (2220).
  It stops the runner exactly when a possible gap exit is unexplained after replay, also after
  a recovery that succeeded: `RunnerDepartures.HeartbeatTailStopsIffGap` and
  `RunnerDepartures.GapHeartbeatNeverListens`.
- `get_trade_request` (1533, 1923, 2697) is not defined in the ledger. It is taken to return the
  request the record was reserved for (`RunnerDecisions.RequestBehind`).
- `nextValidId` announces readiness before it initialises the allocator
  (`app/ib_api_position_app.py:281-287`), and a floor asked for in between is dropped. Every
  later id clears such a floor exactly when the allocator is initialised or the floor is at most
  one above the highest observed id: `OrderIdAllocators.FloorHoldsIff` and `FloorHoldsIffReady`.
  The machines take the callback and the following floor as one step.

## Model

| member | source | states |
|---|---|---|
| ExecutionLedgers.LedgerAgreesWithLog | app/execution_ledger.py:151-387 | after any sequence of ledger calls each record's status and broker id are what its own history ends in; the history starts with RESERVED and follows the allowed transitions |
| ExecutionLedgers.BrokerIdWrittenOnce | app/execution_ledger.py:389-473 | through the mark_* methods the broker id is unset until the SUBMITTED row and constant from there on |
| ExecutionLedgers.TransitionKeepsIdsIff | app/execution_ledger.py:270-387 | an accepted transition keeps broker ids written once if and only if SUBMITTED comes with an id and any other status with none or the one stored |
| ExecutionLedgers.IdsWrittenOnceIff | app/execution_ledger.py:270-473 | over any sequence of calls, direct transitions included, broker ids are written once if and only if every accepted call respected the id stored at that moment |
| ExecutionLedgers.RawTransitionCanReplaceId | app/execution_ledger.py:328-332 | a call that breaks that condition: `transition` used directly replaces a stored broker id |
| ExecutionLedgers.TransitionExtendsIff | app/execution_ledger.py:328-387 | a transition undoes nothing if and only if it is refused, finds the record RESERVED, or brings no id other than the one stored |
| ExecutionLedgers.TerminalRowIsLast | app/execution_ledger.py:34-64 | a terminal status is never left |
| ExecutionLedgers.TransitionExtends | app/execution_ledger.py:389-473 | no mark_* transition changes what was ordered, lowers the progress rank, leaves a terminal status, or changes the broker id of a record past RESERVED |
| ExecutionLedgers.ExecutionLedger.ReserveEvent | app/execution_ledger.py:151-268 | in place: one new RESERVED record and one log row, or an error and nothing changed |
| ExecutionLedgers.ExecutionLedger.TransitionTo | app/execution_ledger.py:270-387 | in place: the record moves and the row is appended together, or an error and nothing changed |
| ExecutionLedgers.ExecutionLedger.MarkSubmitted | app/execution_ledger.py:389-401 | in place: the one status written with a broker id |
| ExecutionLedgers.ExecutionLedger.Mark | app/execution_ledger.py:403-473 | in place: the other five statuses, keeping the stored broker id |
| ExecutionLedgers.ExecutionLedger.HistoryOf | app/execution_ledger.py:527-565 | the rows of one event in log order |
| ExecutionLedgers.ExecutionLedger.FindByBrokerOrderId | app/ib_error_handler.py:446-477 | none, the one, or several records holding a broker id |
| ExecutionLedgers.LookupNeverAmbiguous | app/ib_execution_details_transport.py:357-381 | with unique broker ids the "multiple records" branch is unreachable |
| OrderIdAllocators.FieldsEncodeLeastSafeId | app/ib_order_id_allocator.py:75-229 | over any sequence of calls the next id is the least one above every id offered, observed or taken and not below a floor applied since the handshake |
| OrderIdAllocators.TakenIdExceedsEarlier | app/ib_order_id_allocator.py:127-229 | each id taken exceeds every id taken or observed before it and respects earlier handshakes and floors |
| OrderIdAllocators.LeastSafeIdIsLeast | app/ib_order_id_allocator.py:75-229 | that number is above every id observed or taken and not below any offer or any floor since the handshake, and no smaller number is |
| OrderIdAllocators.FloorHoldsIff | app/ib_order_id_allocator.py:197-229 | whatever calls come before and after, every id taken after a floor clears it if and only if the handshake came before the floor, or the floor is not above the least safe id |
| OrderIdAllocators.FloorHoldsIffReady | app/ib_order_id_allocator.py:218-221 | the same condition as a caller can check it: the allocator is initialised, or the floor is at most one above the highest observed id (at most 0 when none was observed) |
| OrderIdAllocators.FloorBeforeHandshakeIsLost | app/ib_order_id_allocator.py:218-221 | the first handshake: a floor asked for just before the offer holds exactly when the offer clears it anyway, one asked for just after it always holds |
| OrderIdAllocators.IBOrderIdAllocator.InitializeFrom | app/ib_order_id_allocator.py:75-125 | in place: nextValidId raised above observed, current and allocated ids |
| OrderIdAllocators.IBOrderIdAllocator.TakeId | app/ib_order_id_allocator.py:127-154 | in place: the next id, or a refusal before initialisation |
| OrderIdAllocators.IBOrderIdAllocator.ObserveOrderId | app/ib_order_id_allocator.py:156-195 | in place: highest observed id, and the next id moved past it |
| OrderIdAllocators.IBOrderIdAllocator.EnsureMinimumNextId | app/ib_order_id_allocator.py:197-229 | in place: raises the next id to a floor, only after initialisation |
| OrderCallbacks.RedeliveryCompletesExecution | app/ib_execution_details_transport.py:203-289 | a crash between the fill update and the execution row, followed by redelivery, ends in the same ledger, log and rows as no crash |
| OrderCallbacks.CallbackRequestsAreLegal | app/ib_order_status_transport.py:193-222 | a callback requests only allowed, rank-raising transitions, except an orderStatus cancellation of a FILLED record, which the ledger refuses unchanged |
| OrderCallbacks.CallbackKeepsTracked | app/ib_execution_details_transport.py:86-318 | a callback keeps broker ids unique and the execution table behind the ledger |
| OrderCallbacks.ReportsReachHighest | app/ib_order_status_transport.py:330-425 | after any sequence of progress reports the status is the highest level reported |
| OrderCallbacks.HighestIsMaximum | app/ib_order_status_transport.py:381-425 | that level is an upper bound which the start or some report attains |
| OrderCallbacks.CallbacksConfluent | app/ib_execution_details_transport.py:195-289 | reordering, repeating or interleaving the reports does not change the final record |
| OrderCallbackHandlers.IBOrderStatusTransport.HandleOrderStatus | app/ib_order_status_transport.py:92-222 | in place: exactly the ledger change of one orderStatus callback, with its outcome |
| OrderCallbackHandlers.IBOrderStatusTransport.HandleRejection | app/ib_order_status_transport.py:224-302 | in place: a rejection counts unless the record is terminal |
| OrderCallbackHandlers.IBExecutionDetailsTransport.HandleExecution | app/ib_execution_details_transport.py:86-318 | in place: validation, ledger write, then execution row, with its outcome |
| OrderCallbackHandlers.IBExecutionDetailsTransport.RecordExecutionId | app/ib_execution_details_transport.py:538-579 | in place: one row per execution id, the first one stays |
| OrderCallbackHandlers.IBErrorHandler.Handle | app/ib_error_handler.py:143-288 | in place: ledger change by severity; the kill switch goes on exactly for critical codes and ambiguous order ids |
| OrderCallbackHandlers.IBErrorHandler.Close | app/ib_error_handler.py:290-444 | in place: a confirmed rejection or cancellation of the one record concerned |
| ApiCallbacks.NextIdExceedsEveryIdShown | app/ib_api_position_app.py:275-373 | over any callbacks and lost connections the next id exceeds every order id shown before |
| ApiCallbacks.IBApiPositionApp.OnNextValidId | app/ib_api_position_app.py:275-287 | on return ready, with an initialised allocator |
| ApiCallbacks.IBApiPositionApp.OnOpenOrder | app/ib_api_position_app.py:289-300 | the id shown is observed |
| ApiCallbacks.IBApiPositionApp.OnOrderStatus | app/ib_api_position_app.py:302-340 | the id is observed, then the ledger changes as the transport says, even for a foreign order |
| ApiCallbacks.IBApiPositionApp.OnExecDetails | app/ib_api_position_app.py:342-373 | the id is observed, then ledger and execution rows change as the transport says |
| ApiCallbacks.IBApiPositionApp.OnError | app/ib_api_position_app.py:375-428 | a lost connection withdraws readiness and keeps allocator history; the kill switch goes on exactly for critical codes and ambiguous order ids, and never off |
| ApiCallbacks.IBApiPositionApp.OnConnectionClosed | app/ib_api_position_app.py:455-466 | readiness and the position request are reset, order-id history is kept |
| ExecutionClients.SubmissionCallsOnceOrNever | app/ib_execution_client.py:142-379 | submit calls the broker once, with the event's own side and quantity, exactly when the event is new and the order can be built, and otherwise not at all |
| ExecutionClients.SecondSubmissionIsRefused | app/ib_execution_client.py:142-206 | a second submission of an event changes nothing, not even after a restart has emptied the guard |
| ExecutionClients.DuplicateOrderGuard.ReserveEvent | app/duplicate_order_guard.py:66-126 | in place: the first reservation of an event succeeds |
| ExecutionClients.DuplicateOrderGuard.Release | app/duplicate_order_guard.py:146-178 | in place: undoes one reservation |
| ExecutionClients.IBExecutionClient.Reserve | app/ib_execution_client.py:142-206 | in place: guard then ledger, the guard undone when the ledger refuses |
| ExecutionClients.IBExecutionClient.SubmitReservedOrder | app/ib_execution_client.py:208-325 | in place: SUBMITTED is durable before the one broker call, or REJECTED and no call |
| ExecutionClients.IBExecutionClient.SubmitOrder | app/ib_execution_client.py:327-379 | in place: reserve, then submit |
| ExecutionMachines.AtMostOneSubmission | app/ib_execution_client.py:208-325 | over every run with crashes anywhere: at most one broker call per event, none while missing or RESERVED, carrying the reserved quantity and side under the record's broker id |
| ExecutionMachines.BrokerIdsUniqueAcrossRestarts | scripts/run_real_eagle_ib_paper_trader.py:626-655 | with the durable floor applied in each process no two records share a broker id, and the next id exceeds every stored one |
| ExecutionMachines.AtMostFiveRowsPerEvent | app/execution_ledger.py:34-64 | however many callbacks arrive, at most five history rows per event, and ledger and log agree |
| ExecutionMachines.ExecutionRowsNeverAhead | app/ib_execution_details_transport.py:220-289 | a full-quantity execution row implies a FILLED record in every reachable state |
| ExecutionMachines.GuardNeverDecides | app/ib_execution_client.py:160-206 | in every reachable state the durable ledger alone decides a reservation |
| ExecutionMachines.ReachableCallbacksAreLegal | app/ib_error_handler.py:299-444 | legality and rank increase of callback requests over all reachable states |
| ExecutionMachines.ReachableCallbacksConfluent | app/ib_order_status_transport.py:330-425 | confluence from every reachable submitted order |
| ThreadedMachines.ThreadsRefineMachine | app/ib_execution_client.py:208-325 | with get, check, read and write of the client and find, decide, read, write and row insertion of the handlers as separate steps, every interleaving with crashes is a run of the execution machine |
| ThreadedMachines.ThreadsKeepGuarantees | app/ib_api_position_app.py:302-373 | so over every interleaving: one broker call per event, ledger and log in agreement, unique write-once ids, at most five rows |
| TwoThreads.InterleavingsAreAtomic | app/execution_ledger.py:307-376 | every interleaving of reads and writes by the two threads equals a sequence of atomic ledger calls |
| TwoThreads.InterleavingsKeepLedger | app/ib_execution_client.py:290-318 | so every row starts from the status the previous row ended in, over allowed edges only |
| TwoThreads.WriteKeepsLedgerIffCurrent | app/execution_ledger.py:307-376 | a checked write keeps ledger and log in agreement exactly when the status read is still current |
| TwoThreads.RacingWritersBreakLedger | app/execution_ledger.py:307-376 | without ownership two racing writers break the ledger |
| EventStores.CursorIsMaximum | app/event_store.py:108-447 | over any calls the cursor is the maximum of accepted and marked numbers; accepted events rise strictly and are distinct |
| EventStores.CheckForetellsConsume | app/event_store.py:268-447 | the read-only check says what the mutating call does next, and a second call is refused |
| EventStores.EventStore.CheckEventWithSeq | app/event_store.py:268-337 | duplicate, out of sequence or accepted, with nothing changed |
| EventStores.EventStore.CheckAndMarkEventWithSeq | app/event_store.py:339-447 | in place: id and cursor move together or not at all |
| EventStores.EventStore.MarkSeqProcessed | app/event_store.py:162-211 | in place: the cursor moves forward only |
| EventStores.EventStore.CheckAndMarkSeq | app/event_store.py:213-266 | in place: the cursor moves forward only, and whether it did |
| EventStores.EventStore.CheckAndMarkEvent | app/event_store.py:108-139 | in place: the id is processed from now on, and whether it was new |
| ReplayDelivery.ExactlyOnceDelivery | scripts/fake_eagle_disconnect_server.py:259-281 | over any number of breaks the accepted events are exactly the history's lifecycle events up to the durable cursor, in order, each once, and nothing is lost |
| ReplayDelivery.ReplayCompleteIffDrained | scripts/test_eagle_automatic_reconnect.py:158-185 | replay is complete exactly when every announced lifecycle frame has been accepted |
| ReplayDelivery.RunSession | scripts/test_eagle_automatic_reconnect.py:188-330 | one session, from its hello to the end of its stream, equals the fold of its frames on store and tracker |
| ReplayDelivery.SessionIsARun | scripts/test_eagle_automatic_reconnect.py:188-330 | that fold, cut after any number of frames, is what as many deliveries do in a run |
| ReplayDelivery.ReplayTracker.RecordLifecycleEvent | app/replay_tracker.py:76-94 | in place: counts up to the announced number; refused before a hello |
| SignalLifecycles.AcceptedIntentsPairUp | app/signal_lifecycle_guard.py:115-257 | over any requests a signal's accepted intents are none, one opening, or an opening and its close, and the row stored is their fold |
| SignalLifecycles.AdapterAgreesWithGuard | app/communications/eagle_trade_adapter.py:218-285 | an adapted exit carries the one intent the guard accepts; an ignored exit is one the guard would refuse |
| SignalLifecycles.ExitTranslatedIffOpen | app/communications/eagle_trade_adapter.py:218-285 | over every run an exit is translated exactly while its signal has one accepted opening, into that opening's close |
| SignalLifecycles.SignalLifecycleGuard.ProcessRequest | app/signal_lifecycle_guard.py:115-257 | in place: the accepted transition or no change |
| TradeCoordinators.ProcessingHappensOnce | app/trade_coordinator.py:138-172 | an event is approved exactly when trading runs and the lifecycle accepts it, and only once |
| TradeCoordinators.TradeCoordinator.CommitRequest | app/trade_coordinator.py:103-136 | in place: the lifecycle transition of one prepared request |
| TradeCoordinators.TradeCoordinator.ProcessOneEvent | app/trade_coordinator.py:138-172 | in place: prepare, then commit |
| RiskManagers.PositionStaysBounded | app/risk_manager.py:188-399 | over approved, filled requests the position stays within the larger of its start and the limit |
| RiskManagers.BlockedPositionOnlyShrinks | app/risk_manager.py:274-399 | while a switch blocks, the position never grows or changes side and each approval brings it closer to flat |
| RiskManagers.ApprovedCloseShrinks | app/risk_manager.py:274-318 | an approved close strictly shrinks the position, keeps its sign, and ignores the switches |
| RiskUnderLoss.BreachFreezesGrowth | app/risk_manager.py:320-399 | over any mix of profit-and-loss updates and trades, from a breach of the loss limit until the day is reset the position only moves towards flat and never changes side |
| DailyLossGuards.TrippedIffBreached | app/daily_loss_guard.py:99-175 | tripped exactly when the limit was reached since the last reset, however far the totals recover |
| DailyLossGuards.DailyLossGuard.UpdateRealizedPnl | app/daily_loss_guard.py:99-110 | in place: replaces the realised figure and evaluates the limit |
| DailyLossGuards.DailyLossGuard.UpdateUnrealizedPnl | app/daily_loss_guard.py:112-123 | in place: replaces the unrealised figure and evaluates the limit |
| DailyLossGuards.DailyLossGuard.UpdatePnl | app/daily_loss_guard.py:125-147 | in place: replaces both before evaluating the limit |
| DailyLossGuards.DailyLossGuard.EvaluateLimit | app/daily_loss_guard.py:166-175 | in place: trips at or below minus the limit and never untrips |
| DailyLossGuards.DailyLossGuard.Reset | app/daily_loss_guard.py:148-153 | in place: a new day |
| DailyLossGuards.DailyLossGuard.RemainingLossCapacity | app/daily_loss_guard.py:80-97 | zero once tripped; otherwise a further loss trips the guard exactly when it reaches this amount |
| Reconciliation.CanonicalIffSameItems | app/reconciliation_manager.py:188-215 | for all inputs the sorted forms agree exactly when the two lists are the same multiset of printed item multisets |
| Reconciliation.CanonicalIffSameMaps | app/reconciliation_manager.py:188-215 | when no two keys of a position print alike, exactly when they are the same multiset of key/value maps |
| Reconciliation.RowIsCanonical | app/reconciliation_manager.py:196-209 | two positions have the same canonical row exactly when they print the same items |
| Reconciliation.ItemLEIsTotalOrder | app/reconciliation_manager.py:198-207 | tuples of strings compare by a total order |
| CanonicalOrder.LexIsTotalOrder | app/reconciliation_manager.py:211-215 | lexicographic comparison of a total order is a total order |
| CanonicalOrder.SortIsCanonical | app/reconciliation_manager.py:188-215 | sorting forgets the order of elements and nothing else |
| Reconciliation.ReconciliationManager.Reconcile | app/reconciliation_manager.py:53-107 | MATCHED exactly when both sides print the same multiset of item multisets, and of maps when no two keys of a position print alike; the result is remembered |
| Reconciliation.ReconciliationManager.NormalizeBrokerPositions | app/reconciliation_manager.py:144-186 | dictionaries and position objects in the order given |
| Reconciliation.ReconciliationManager.SortPositions | app/reconciliation_manager.py:189-215 | the canonical form |
| RunnerDecisions.ReconcileMeansOwed | scripts/run_real_eagle_ib_paper_trader.py:911-985 | reconciliation passes exactly when the broker holds what the lifecycle owes |
| RunnerDecisions.RecoveryIsValidatedClose | scripts/run_real_eagle_ib_paper_trader.py:749-908 | the recovery gate admits exactly the authorised closes the live request policy admits |
| RunnerDecisions.AdmittedRequestKeepsReconciliation | scripts/run_real_eagle_ib_paper_trader.py:988-1064 | an admitted request starts from a reconciled state and its expected position reconciles with the lifecycle it commits |
| RunnerDecisions.AdmittedRequestPassesRisk | scripts/run_real_eagle_ib_paper_trader.py:3131-3162 | the risk manager approves every admitted close, and every admitted opening unless a switch blocks, projecting the expected position |
| RunnerDecisions.HelloMirrorsLifecycle | scripts/run_real_eagle_ib_paper_trader.py:369-483 | after reconciliation the hello passes exactly when Eagle's list mirrors the lifecycle |
| RunnerDecisions.FindReservedExit | scripts/run_real_eagle_ib_paper_trader.py:656-746 | none exactly when no record is RESERVED; a found reservation is the only one and closes; unrecoverable exactly for a reserved opening or several reservations |
| RunnerDecisions.OpensOf | scripts/run_real_eagle_ib_paper_trader.py:563-602 | none, the one, or several open signals |
| RunnerSessions.EagleSession.RecordReplayFrame | scripts/run_real_eagle_ib_paper_trader.py:1078-1086 | in place: counts one replay frame and decides completion |
| RunnerSessions.EagleSession.HandleHello | scripts/run_real_eagle_ib_paper_trader.py:2246-2395 | in place: the step machine's reaction to a hello, with IB ready, re-established or unreachable |
| RunnerSessions.EagleSession.HandleUpdate | scripts/run_real_eagle_ib_paper_trader.py:2429-2481 | in place: the step machine's reaction to an update |
| RunnerSessions.EagleSession.FinishHeartbeat | scripts/run_real_eagle_ib_paper_trader.py:2397-2427 | in place: gap check, cursor and heartbeat flag |
| RunnerSessions.EagleSession.HandleMissed | scripts/run_real_eagle_ib_paper_trader.py:2932-2972 | in place: a missed trade's live frame is consumed when armed, and its exit ends the trade |
| RunnerGate.RunnerRefinesCore | scripts/run_real_eagle_ib_paper_trader.py:1411-1433 | every run of the trader is a run of the execution machine |
| RunnerGate.RunnerSubmitsAtMostOnce | scripts/run_real_eagle_ib_paper_trader.py:1747-1778 | over every run of the trader, at most one broker call per event |
| RunnerGate.SubmissionGate | scripts/run_real_eagle_ib_paper_trader.py:2136-2244 | the broker is called only when armed and, outside startup recovery, only after a heartbeat that came in this session when replay was already complete |
| RunnerGate.UnarmedFramesChangeNothing | scripts/run_real_eagle_ib_paper_trader.py:3426-3454 | in observe mode no frame after replay changes cursor, processed ids, lifecycle, ledger or broker |
| RunnerGate.ReplayedExitIsDurableBeforeConsumed | scripts/run_real_eagle_ib_paper_trader.py:2799-2829 | when a replayed exit becomes processed the ledger holds a RESERVED close for it or its signal is closed by it |
| RunnerGate.DurableForever | scripts/run_real_eagle_ib_paper_trader.py:2542-2829 | that obligation stays on record over every continuation, crashes included |
| RunnerGate.RedoneExitAddsNothing | scripts/run_real_eagle_ib_paper_trader.py:2565-2645 | redelivery of a durable exit adds no second record and no second lifecycle change |
| RunnerGate.InheritedExitWaitsForReplay | scripts/run_real_eagle_ib_paper_trader.py:2178-2190 | a reservation inherited at startup stays untouched and nothing reaches the broker until that very exit has been replayed and consumed |
| RunnerGate.MissedSignalsAreNotTraded | scripts/run_real_eagle_ib_paper_trader.py:2932-2972 | a frame of a missed signal leaves lifecycle, ledger and broker alone and starts no work, replayed or live |
| RunnerGate.UnreachableEntryBecomesMissed | scripts/run_real_eagle_ib_paper_trader.py:3316-3369 | an entry that finds IB unreachable is consumed and remembered as missed |
| RunnerSafety.FlatSnapshot | scripts/run_real_eagle_ib_paper_trader.py:1144-1175 | with no opening order at work a flat snapshot means nothing works |
| RunnerSafety.ReconciledSnapshot | scripts/run_real_eagle_ib_paper_trader.py:2282-2296 | a reconciled snapshot means no opening order is still at work |
| RunnerSafety.AdmittedCloseIsPoised | scripts/run_real_eagle_ib_paper_trader.py:1720-1745 | an admitted close of a reserved exit finds nothing at work and the full position |
| RunnerSafety.StepKeepsInv | scripts/run_real_eagle_ib_paper_trader.py:2124-3810 | every step of program, broker, operator and callbacks keeps the coupling of ledger, lifecycle, orders and position |
| RunnerSafety.NoOrphanExposure | scripts/run_real_eagle_ib_paper_trader.py:3552-3632 | in every reachable state a position has an open signal on its side |
| RunnerSafety.ExposureBound | scripts/run_real_eagle_ib_paper_trader.py:911-1053 | the position stays within the approved quantity, at most one order is unfilled, and filling it stays within |
| ThreadedRunners.SplitRunsAreRuns | scripts/run_real_eagle_ib_paper_trader.py:2124-3810 | with checks, reads and writes of both threads as separate steps between those of program, broker, Eagle and operator, every run is a run of the trader |
| ThreadedRunners.AtomicRunsSplit | app/ib_execution_client.py:142-325 | conversely every run of the trader can be taken apart into such steps, so both reach the same worlds |
| ThreadedRunners.ProgramFollowsReservation | app/ib_execution_client.py:142-206 | what the program makes of a reservation agrees with the checks its thread made steps before |
| ThreadedRunners.ProgramFollowsSubmission | app/ib_execution_client.py:208-325 | the same of a submission: it goes on exactly after a SUBMITTED write |
| ThreadedRunners.AssumedWhereItCounts | app/ib_execution_details_transport.py:195-289 | a terminal report that is true when the IB thread looks it up is still true when it is written, whatever the other threads and the broker do in between |
| ThreadedRunners.ExposureOverInterleavings | scripts/run_real_eagle_ib_paper_trader.py:3552-3632 | so over every interleaving a position has an open signal on its side, stays within the approved quantity, and at most one order is unfilled, which fits too |
| RunnerLimits.CloseSafeIffCheckedPositionHolds | scripts/run_real_eagle_ib_paper_trader.py:1606-1778 | a close that fills leaves no orphan exactly when the position at the broker call is the one checked |
| RunnerLimits.HelloFirstIsNeeded | scripts/run_real_eagle_ib_paper_trader.py:1078-1086 | a run in which only the hello is missing ends with a position and no open signal |
| RunnerLimits.FlatCloseSafeIffNothingWorks | scripts/run_real_eagle_ib_paper_trader.py:1144-1175 | closing a signal on a flat snapshot is safe against the next fill exactly when no order works |
| RunnerLimits.FlatCloseSafeWhenLedgerQuiet | scripts/run_real_eagle_ib_paper_trader.py:1144-1175 | a guard the program could evaluate: with no record between SUBMITTED and a terminal status such a close is safe without any hello |
| RunnerRoundTrip.FlattenDuringCloseOrphans | scripts/run_real_eagle_ib_paper_trader.py:3118-3200 | a run in which only an operator flatten between approval and send breaks an assumption ends short under a signal open long |
| RunnerAssumptions.TruthfulReportsAreNeeded | app/ib_execution_details_transport.py:195-289 | a run in which only one fill report is false closes the signal while the broker holds the whole position |
| RunnerAssumptions.FlattenWhileWorkingOrphans | scripts/run_real_eagle_ib_paper_trader.py:3118-3200 | a run in which only an operator flatten while a close works, with none on its way, breaks an assumption ends short under a signal open long |
| RunnerAssumptions.OneExitPerSignalIsNeeded | scripts/run_real_eagle_ib_paper_trader.py:1524-1878 | a run in which only a second exit event for a signal whose close is at work breaks an assumption: the recovery at the next heartbeat sends a second close, and both fill |
| RunnerDepartures.ReplayedExitRunsIffOwned | scripts/run_real_eagle_ib_paper_trader.py:1104-1219 | with IB reachable a new replayed exit with no record leaves the runner running if and only if its signal is the one open and the broker is flat or holds all of it |
| RunnerDepartures.UnreachableReplayedExitRunsOn | scripts/run_real_eagle_ib_paper_trader.py:3770-3810 | with IB unreachable such an exit only ends the session, and is still to be consumed afterwards |
| RunnerDepartures.MissedReplayConsumesIffEntry | scripts/run_real_eagle_ib_paper_trader.py:2491-2540 | a replayed frame of a missed signal changes the event store if and only if it is a new entry |
| RunnerDepartures.HeartbeatTailStopsIffGap | scripts/run_real_eagle_ib_paper_trader.py:2397-2406 | the end of heartbeat handling stops the runner if and only if a possible gap exit is unexplained after replay |
| RunnerDepartures.GapHeartbeatNeverListens | scripts/run_real_eagle_ib_paper_trader.py:2193-2406 | with such a gap a heartbeat never leads back to listening in its session, through every step of a recovery it starts |
| RunnerFeeds.CursorPassesOnlyMissedExits | scripts/run_real_eagle_ib_paper_trader.py:2429-2960 | over every run with breaks, crashes and outages the cursor passes no event unprocessed but a replayed exit of a missed signal, every processed event has been passed, and a session's cursor stays before the frames it has yet to deliver |
| RunnerFeeds.SkippedExitIsLost | scripts/run_real_eagle_ib_paper_trader.py:2536-2540 | such an exit is refused as out of sequence once the next update has been consumed |
| RunnerLimits.TradesAnEntry | scripts/run_real_eagle_ib_paper_trader.py:3306-3632 | a run from process start to a working entry order in which every assumption is kept |
| RunnerRoundTrip.TradesRoundTrip | scripts/run_real_eagle_ib_paper_trader.py:3037-3304 | a run with every assumption kept goes from start through a filled entry and a filled live exit to a flat broker and a closed signal, with exactly two broker calls |

## Left out

- RunSession: printing, counters and connection health of the scenario around the loop.
- InterleavingsAreAtomic: takes the client's own RESERVED check and a fresh order id as given; ThreadsRefineMachine takes those apart too.
- ReportsReachHighest: reports are whole callbacks; a callback cut between its two writes is covered by RedeliveryCompletesExecution.
- SubmissionGate: says when the broker may be called, not that a pending exit is eventually sent; an inherited exit can be stopped at hello.
- HandleMissed: which frames reach it (a live frame of a missed signal after the heartbeat) is decided in the step machine.
- The message loop and its nested functions are values stepping through `Runner.dfy`, not one imperative method: a crash or a callback may fall between any two of its writes, which a method body cannot express. A position snapshot and the checks that follow it are one step; the broker call is a separate, later step.
- Reconnection of IB inside a frame: only its result (ready, re-established and revalidated, unreachable) is kept, and the kill switch and readiness checks before a submission appear as a failure that may happen at any point.
- The runner's other checks on the account (no unrelated positions), on the order object after submission, and on the message limit.
- SQLite, file paths, transports, asyncio, threads as such, timestamps, audit reasons, printing, argument parsing, counters kept for the summary.
- Type validation and trimming of identifiers; identifiers and symbols are taken as already trimmed, directions as lower case, symbols as upper case.
- Contract details other than the symbol, the environment and stop-loss fields of a request, and the verdict on the contract month, which is a parameter.
- Decimal rounding: profit and loss and IB quantities are reals, order quantities integers.
- Values of a reconciliation dictionary that are equal but print differently: positions are compared as they print.
- Exceptions a handler raises into the IB thread: the outcome is returned instead.
- Lifecycle frames other than fund.entry and fund.exit.
- Snapshot getters, `KillSwitch`, `IBApiReady`, `TradingControls`, `IBTradingReadiness`, `ResumeManager`, `IdempotencyManager`, `SequenceManager`: plain flags or repetitions of the event store.
- `scripts/run_real_eagle_ib_paper_trader_staging_backup.py`, which commits closes before submitting them.
