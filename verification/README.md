# QuantEmbrace: one signal, one decision, one broker order

A Dafny 4.11 model of the stateful cores of QuantEmbrace, with proofs. `dafny verify dfyconfig.toml`
checks everything.

A trading signal passes two services that may crash at any await and see every message at least
once. The risk engine validates it, reserves a decision, publishes SIGNAL_APPROVED and marks the
reservation; the execution engine reserves an order together with its signal, asks the broker
whether it knows the order's key, and places it. Around that pair stand the kill switch, protective
stops with emergency flatten, the end-of-day square-off, and smaller stateful helpers.

## How it is modelled

| part | files |
|---|---|
| order statuses, entry-order protocol | `Orders`, `OrderProtocol`, `OrderProtocolInvariant`, `OrderSafety`, `OrderCompletion`, `OrderCounterexamples`, `PaperIsolation`, `OrderHandler` |
| risk pipeline and approval outbox | `RiskPipeline`, `RiskOutbox`, `RiskOutboxSafety`, `RiskOffsets`, `RiskLoops`, `RiskLoopRuns` |
| both services together, consumer loop | `SignalPath`, `ApprovedLoop` |
| fills, protective stops, flatten | `FillSlices`, `FillProtection`, `ProtectiveStops`, `ProtectionSafety`, `ProtectionOutcomes`, `ProtectionConflicts`, `ProtectionLinks` |
| square-off | `SquareOff` |
| candles | `CandleScheduler`, `CandleIntervals`, `CandleHistory` |
| entry-block cache, incident log | `EntryBlock`, `IncidentLog` |
| shared | `Wrappers`, `Texts` |

What interleaves is a step machine on values: every await is a step, a step that is not enabled
leaves the state alone, and a run is any sequence of steps. What one call does from start to end is
a class with the source's fields, proved against a specification function or, for the entry handler,
against the step machine itself: `OrderHandler.Service` carries the machine run it has performed, so
the machine's theorems hold of the code as written.

The outside world is explicit. Table rows keep the set of statuses they ever had, so that an
eventually consistent index read may return any of them. A place call becomes a request that stays
in flight until the broker accepts it or it is lost, whatever the caller saw. A write or a publish
may fail, succeed, or succeed while the caller sees an error. Oracles (a reply, a clock delay, a
failed read) are parameters.

Conditions a theorem needs are named predicates over single steps that a caller or operator could
check (`OneWorker`, `LookupSees`, `FreshRead`, `OneHandler`, `CurrentRead`, `CurrentListing`,
`WritesStick`, `RescanFinds`, `RefusalsHold`). They come with runs that fail without them, or the theorem
is an equivalence.

## What turned out to be false of the code

- A handler that reads a stale PENDING from the signal index places an ACK_UNKNOWN order again, and
  only such a handler does; the kill-switch sweep can cancel an ACK_UNKNOWN row it had listed as
  PENDING. The docstring at services/execution_engine/service.py:1153 calls the rescan the only way out.
- A local halt does not survive a restart unless the durable row is read as active.
- A paper row left PENDING reaches the real broker when a handler or startup reconciliation reads it,
  and only then, although service.py:1227 promises paper isolation for reconciliation.
- The fallback risk loop takes almost every rejection for a stale signal (services/risk_engine/service.py:1287-1302).
- A fallback delivery can commit a signal whose reservation is PENDING without retry: the reservation
  read at services/risk_engine/service.py:1650 is eventually consistent, and two instances may both
  read before either reserves. With current reads and one handler per signal it cannot.
- The pipeline's docstring (services/risk_engine/service.py:641-647) puts the daily-loss check before margin
  and slippage; the code runs it last, behind checks the docstring does not name. The code is followed.
- The enriched loop commits what no topic took; an approved message that expires between its two
  expiry checks is committed with no trace; a commit skips an earlier unrouted message.
- The stops exceed the reported fill when a report is measured against a row behind the stops that
  exist: a lost row write, a second starting instance with an earlier listing, a second answer to one
  placement, or a late report that lowered the row. They fall short of the stored fill when a fill is
  stored on a path without a stop: startup recovery of an ACK_UNKNOWN order, and a partly filled order
  reported as cancelled, both with nothing failing. The theorems give both conditions exactly.
- A partial fill that grows while the status stays is not acted on, and a REJECTED mark resets the stored
  quantity of a PLACED order to zero.
- A stop that the broker answers as REJECTED or CANCELLED is linked and counted as protection; nothing
  halts and nothing is flattened.
- A stop and its flatten can both be accepted, even when one protective call runs at a time: when a stop
  that the broker accepted is taken for failed (its place call ends in an exception classified as a
  refusal, or its acknowledgement is lost and the rescan misses it), or when startup recovery places a
  flattened stop (the REJECTED write on it was lost, or the listing still shows PENDING). One call at a
  time, these are the only ways.
- A recovery that lists a placed stop as PENDING finds it and links it again: its quantity counts twice.
- The square-off reads `response.success`, which the placement reply does not have, and looks for
  `tradingsymbol` in position rows that services/execution_engine/brokers/zerodha_broker.py:479-488 keys by
  `symbol`: accepted close orders count as rejected, and any successful read confirms every symbol. In
  paper mode the close call passes a keyword that `apply_fill_to_position` does not take, so it always
  counts as rejected too.
- A refetched candle window is processed again, despite the comment at
  services/data_ingestion/candle_stream.py:242-244; a non-empty priority set starves the standard queue,
  although the comment at line 239 speaks of a third of the budget.
- The entry-block reader answers "allowed, read" unread while the monotonic clock is below the TTL,
  and its fail-closed answer does not stick.
- The order docstring (services/execution_engine/orders/order.py:32-33) lists FLATTENING transitions
  that the table in order_manager.py does not have. The table is followed.

## Model

| member | source | states |
|---|---|---|
| Orders.ChainsOnlyAdvance | services/execution_engine/orders/order_manager.py:41-82 | along any chain of writes the transition table allows, PENDING and ACK_UNKNOWN are never re-entered and FILLED, CANCELLED, REJECTED are kept for ever; FLATTENING cannot be reached at all |
| Orders.LegalExactly | services/execution_engine/orders/order_manager.py:41-82 | one write may move a status to any later one of PENDING, ACK_UNKNOWN, PLACED, PARTIALLY_FILLED and the terminal ones, except a partly filled order to REJECTED, and to nothing else; several legal writes can do no more than one |
| OrderProtocolInvariant.RunSound | services/execution_engine/service.py:834-1007 | after every run of any number of interleaved handlers, with no condition: rows and reservations point at each other one to one, each handler works on its own signal's row, hands over at most one request, and records only an order the broker has |
| OrderSafety.OneKeyPerSignal | services/execution_engine/service.py:834-892 | with any concurrency, stale reads and crashes, every placement of a signal carries the key of the order that won the reservation, and the winner never changes |
| OrderSafety.PlacementsShareKey | services/execution_engine/service.py:953-976 | any two placements ever issued for one signal use one broker key, the reserved one |
| OrderSafety.AtMostOneEntryOrder | services/execution_engine/service.py:1047-1105 | in every run with one live handler per signal and a lookup that misses only when nothing with the key is, or is still in flight to, the broker, the broker accepts at most one entry order per signal, under any crash, redelivery, lost acknowledgement, stale read or failed write |
| OrderSafety.LaterHandlersNeverPlace | services/execution_engine/service.py:836-930 | when index reads are current throughout: once a row has left PENDING, only handlers that had already read it can still place it, one request each; no later handler or reconciliation does, whatever lookups show |
| OrderSafety.LaterRequestsNeedLateReads | services/execution_engine/service.py:836-930 | with no condition: once a row has left PENDING, every later request for it comes from a handler that had already read it or from one whose read still shows PENDING, one each |
| OrderSafety.AckUnknownIsNeverPlaced | services/execution_engine/service.py:1143-1184 | with one handler per signal and current index reads, an ACK_UNKNOWN order is never handed over again; nothing is assumed of the lookup |
| OrderSafety.AckUnknownNeedsLateRead | services/execution_engine/service.py:1143-1184 | without a condition on later reads: an order that became ACK_UNKNOWN (one handler per signal, current reads until then) is handed over again only by a handler whose later read still shows PENDING |
| OrderSafety.LeavesAckUnknownExactly | services/execution_engine/service.py:2648-2655 | in runs with one handler per signal and current reads, a live ACK_UNKNOWN row leaves that status with no broker order found if and only if a sweep or the corrupt-row branch writes on a listing taken while the row was PENDING |
| OrderSafety.HaltEndsExactly | services/execution_engine/service.py:2466-2512 | a halted process is resumed by a step if and only if it is a clear event or a restart that does not read an active durable row |
| OrderSafety.HaltBeginsExactly | services/execution_engine/service.py:2466-2512 | a running process is halted by a step if and only if it activates, or a poll, a restart or the head of a handler reads an active durable row |
| OrderSafety.HaltBoundsHandOvers | services/execution_engine/service.py:2466-2528 | between an activation and the next clear or restart, requests come only from handlers whose gate check lay before it, one each; durable polls and failed reads never end the halt |
| OrderSafety.AtMostOneAfterActivation | services/execution_engine/service.py:1033-1076 | with one consumer loop per process at most one entry order slips past an activation |
| OrderCompletion.FirstDeliveryCompletes | services/execution_engine/service.py:934-1007 | from any reachable state without a reservation for the signal, one delivery without faults in a running process ends with exactly one accepted request under the new order's key, and the row with the acknowledged status and a broker id |
| OrderCompletion.StrandedOrderIsPlaced | services/execution_engine/service.py:836-892 | from any reachable state a row left PENDING is completed by one more handler without faults, from a redelivery or from startup reconciliation, under the reserved order id |
| OrderCompletion.StrandedOrderIsFound | services/execution_engine/service.py:1047-1060 | if the broker has that order already, the handler records it and hands over nothing |
| OrderCompletion.DoubtIsMarked | services/execution_engine/service.py:1089-1105 | a place call that ends in a fault and is not found by the rescan leaves the row ACK_UNKNOWN, whether or not the broker has the order |
| OrderCompletion.DoubtIsResolved | services/execution_engine/service.py:1535-1566 | from any reachable state one startup reconciliation that finds an ACK_UNKNOWN order records its status and broker id and places nothing, also while halted |
| OrderCompletion.RefusalIsMarked | services/execution_engine/service.py:1080-1088 | a refused place call leaves the row REJECTED |
| OrderCompletion.ReportsReachPlacedRows | services/execution_engine/service.py:1636-1652 | a reported status moves a row if and only if the row has a broker id and the table allows the move |
| OrderCompletion.SweepCancelsExactly | services/execution_engine/service.py:2621-2700 | the kill-switch sweep leaves a row CANCELLED if and only if it was not FILLED or REJECTED before |
| OrderCompletion.PaperOrderCompletes | services/execution_engine/service.py:2203-2345 | a paper order is reserved and its simulated fill recorded without any request |
| OrderCounterexamples.TwoWorkersPlaceTwice | services/execution_engine/service.py:837-877 | the one-handler condition is needed: two live handlers get two orders accepted although every lookup sees everything |
| OrderCounterexamples.UnseenOrderIsPlacedTwice | services/execution_engine/service.py:1047-1060 | the lookup condition is needed: a missed accepted order is placed twice after a crash |
| OrderCounterexamples.LateArrivalIsPlacedTwice | services/execution_engine/service.py:1047-1080 | requests in flight have to count: with one handler, current reads and a lookup that sees every accepted order, a request accepted after the lookup still makes two |
| OrderCounterexamples.StaleReadPlacesAckUnknown | services/execution_engine/orders/order_manager.py:614-682 | the current-read condition is needed: an index read that still shows PENDING lets an ACK_UNKNOWN order be placed again |
| OrderCounterexamples.RestartForgetsLocalHalt | services/execution_engine/service.py:2466-2512 | a halt that is only local does not survive a restart whose durable read fails or is inactive |
| OrderCounterexamples.PendingPaperRowReachesBroker | services/execution_engine/service.py:1568-1615 | a paper row left PENDING by a crash is handed to the real broker by startup reconciliation |
| PaperIsolation.PaperStaysIsolated | services/execution_engine/service.py:1511-1615 | over every run in which no handler of the live path reads a paper row as PENDING, nothing handed over carries a paper row's key |
| PaperIsolation.BreaksExactly | services/execution_engine/service.py:836-892 | isolation breaks at a step if and only if a handler about to read does read PENDING on a paper row |
| PaperIsolation.RecordedPaperStaysIsolated | services/execution_engine/service.py:1568-1615 | with current reads, isolation holds over every run in which no handler reads a paper row before its simulated fill is recorded, which leaves only rows a crash left PENDING |
| OrderHandler.Service.ReadExisting | services/execution_engine/service.py:834-930 | the three cases of an existing row: retry PENDING under its order id, rescan ACK_UNKNOWN, leave every other status alone |
| OrderHandler.Service.SubmitOrder | services/execution_engine/orders/order_manager.py:212-334 | order row and reservation are written together, or neither when the order id or the signal is taken |
| OrderHandler.Service.SearchFirst | services/execution_engine/service.py:1047-1060 | the search before the place call either yields the order to record or leads to the rate limiter, and is a step of the machine |
| OrderHandler.Service.HandOver | services/execution_engine/service.py:1071-1080 | exactly one request is added, with the order's key, signal and decision |
| OrderHandler.Service.RecoverAckUnknown | services/execution_engine/service.py:1143-1184 | the recovery scan searches and never places: requests and rows are untouched |
| OrderHandler.Service.RecordOrder | services/execution_engine/orders/order_manager.py:463-500 | returns normally if and only if the write took effect and the table allows the move; the row then holds the broker's status and a broker id, and is untouched otherwise |
| OrderHandler.Service.PlaceWithIdempotency | services/execution_engine/service.py:1009-1105 | the wrapper adds at most one request, for its own order, none while halted; a search is only counted as blind when something was outstanding |
| OrderHandler.Service.ExecuteApprovedSignal | services/execution_engine/service.py:742-1007 | the sequential handler is a run of the step machine with the stated effect on tables, broker and outcome; at most one request, under the reserved order id; none while halted, expired, unapproved, without decision id, or when the row read was not PENDING; a normal return means the reserved row is recorded |
| OrderHandler.AcknowledgedReturns | services/execution_engine/service.py:934-1007 | a first delivery, or a later one that reads PENDING, whose search misses and whose place call is acknowledged returns that status, with one accepted request and the row holding status and broker id |
| OrderHandler.FoundReturns | services/execution_engine/service.py:1047-1060 | a row read as PENDING or ACK_UNKNOWN whose order the search finds is recorded and returned, and nothing is handed over |
| OrderHandler.RefusalRejects | services/execution_engine/service.py:1080-1088 | a refused place call raises and leaves the row REJECTED |
| OrderHandler.FaultIsMarkedAndRescanned | services/execution_engine/service.py:1089-1105 | a faulted place call marks the row ACK_UNKNOWN; the call returns the order if the rescan finds it, and raises and leaves the mark if not |
| OrderHandler.HandsOverExactly | services/execution_engine/service.py:1033-1080 | a call hands over a request if and only if the signal is admitted and unhalted, its row is new or read as PENDING, the search answered and missed, and the limiter let it through |
| OrderHandler.NothingToDoExactly | services/execution_engine/service.py:893-932 | a call ends as a duplicate if and only if it read a row in any other status, and as a lost race if and only if it read none and the order id or signal was taken; nothing changes then |
| OrderHandler.Service.Restart | services/execution_engine/service.py:291-294 | a new process knows only the durable kill switch |
| OrderHandler.Service.NoSignalTwiceAtBroker | services/execution_engine/service.py:742-1007 | after any sequence of calls whose searches saw what was outstanding, no two accepted orders belong to one signal |
| RiskPipeline.Validator.Validate | services/risk_engine/service.py:636-895 | the early-returning loops decide as specified: first check in order that does not let the signal through rejects, with its audit trail; only the daily-loss check triggers the kill switch |
| RiskPipeline.Validator.RunGroup | services/risk_engine/service.py:770-840 | one group of validators, named as in the code: the pass rejects at the first that fails or has come past the group with the trail it should have |
| RiskPipeline.Validator.RunValidators | services/risk_engine/service.py:770-840 | the bare loop: how many validators passed, and the results it appended |
| RiskPipeline.DecidesByStopper | services/risk_engine/service.py:658-895 | the decision is that of the first failing check in the order of the code, written out straight; what each rejection carries, and that all but its last result approve |
| RiskPipeline.ApprovedMeansEveryCheck | services/risk_engine/service.py:658-895 | APPROVED if and only if all thirteen checks let the signal through, and then the trail holds approvals only |
| RiskPipeline.TrailOfPrefix | services/risk_engine/service.py:658-895 | every non-silent check of an approving pass has its approval in the trail |
| RiskPipeline.TakenForStaleExactly | services/risk_engine/service.py:1287-1302 | the fallback loop takes a rejection for a stale signal if and only if it is not a kill-switch or entry-block rejection, whether or not the signal was stale |
| RiskOutboxSafety.RunMoves | services/risk_engine/service.py:1656-1719 | over all interleavings of both loops, instances and faults a reservation moves only absent, PENDING, PUBLISHED, its id never changes, and published events and commits stay |
| RiskOutboxSafety.EventsCarryTheReservedId | services/risk_engine/service.py:946-971 | all SIGNAL_APPROVED events of a signal carry the reserved id, and that id stands for an approving pass over the signal |
| RiskOutboxSafety.PublishedWasAcknowledged | services/risk_engine/service.py:1568-1591 | PUBLISHED implies an acknowledged event with the reserved id |
| RiskOutboxSafety.ApprovedOffsets | services/risk_engine/service.py:1204-1321 | the offset of a delivery whose own pass was APPROVED is committed only once the reservation is settled or the message went to retry; the fallback loop commits only what retry took. Other deliveries are covered by RiskOffsets.PendingOffsetsWentToRetry |
| RiskOffsets.PendingOffsetsWentToRetry | services/risk_engine/service.py:1204-1321 | with one live handler per signal and current reads, an offset committed by any delivery while the signal's reservation is PENDING went to retry: the fallback loop commits only what retry took, the enriched loop whatever it answered |
| RiskOffsets.PendingWithoutRetryExactly | services/risk_engine/service.py:1204-1321 | with no condition, over every run: a handler commits while the reservation is PENDING without having tried retry if and only if its first read had found none and its own pass ended in a refusal or a dead letter |
| RiskOffsets.StaleReadDropsPending | services/risk_engine/service.py:1641-1654 | current reads are needed: after a crash behind the reservation, a delivery whose read finds none dead-letters the expired message and commits, with the reservation PENDING and no event |
| RiskOffsets.TwoHandlersDropPending | services/risk_engine/service.py:1266-1285 | one handler is needed: two instances that read before either reserves reach the same end with current reads |
| RiskOutboxSafety.RedeliveryCompletes | services/risk_engine/service.py:1593-1639 | from any reachable state with a PENDING reservation one fault-free redelivery to either loop ends PUBLISHED and committed with the original id, expired or not |
| RiskOutboxSafety.EnrichedCommitsUnrouted | services/risk_engine/service.py:1153-1159 | where the loops differ: when publish and retry both fail the enriched loop commits, the fallback loop does not |
| RiskLoops.RiskEngine.PublishApproved | services/risk_engine/service.py:1568-1591 | publish then mark; an error leaves exactly what had taken effect |
| RiskLoops.RiskEngine.HandleExisting | services/risk_engine/service.py:1593-1639 | republishes a PENDING reservation under its own id, accepts legacy and PUBLISHED ones, raises on malformed ones |
| RiskLoops.RiskEngine.Reserve | services/risk_engine/service.py:1656-1693 | conditional put: the first writer wins and nothing is overwritten |
| RiskLoops.RiskEngine.HandleFallback | services/risk_engine/service.py:1204-1321 | the fallback loop has the abstract handler's effect on reservations and events, and commits, retries and dead-letters exactly the stated messages; what a commit then means is FallbackCommitsExactly |
| RiskLoops.RiskEngine.HandleEnriched | services/risk_engine/service.py:1032-1159 | the inline enriched code has the same effect on reservations and events, and commits every message |
| RiskLoops.FallbackCommitsExactly | services/risk_engine/service.py:1204-1321 | the fallback loop commits if and only if the reservation ended settled without a fault, or the retry or the dead-letter topic took the message, or the kill switch or the entry block refused the signal |
| RiskLoops.FaultFreeDelivers | services/risk_engine/service.py:1656-1719 | without faults either loop leaves a reserved or newly approved signal PUBLISHED under the id that was reserved first, with one acknowledged event, or untouched if it was settled; a refused or expired signal changes nothing |
| RiskLoops.LoopsFaultAlike | services/risk_engine/service.py:1105-1134 | the fallback loop alone raises exactly on malformed rows and on stale rejections that cannot be dead-lettered; the enriched loop never raises alone |
| RiskLoopRuns.HandlerIsARun | services/risk_engine/service.py:1204-1321 | the abstract handler both loops implement is a run of the outbox machine, cut where a rival instance may reserve: same effect on reservations and events, other handlers untouched, a commit exactly when the loop commits, for a dead letter or a retry exactly when that topic took the message |
| RiskLoopRuns.UnroutedCommitsExactly | services/risk_engine/service.py:1153-1159 | a message that failed or expired is committed although no topic took it if and only if it met the enriched loop and the topic it was offered to refused it |
| SignalPath.EveryOrderWasApproved | services/execution_engine/service.py:780-784 | both services composed: every entry order handed over carries the decision id reserved for its signal, from a pass in which every check let the signal through |
| SignalPath.OneDecisionOneKey | services/execution_engine/service.py:934-953 | two placements of one signal carry one decision and one broker key across both services |
| ApprovedLoop.Consumer.Iterate | services/execution_engine/service.py:1930-1994 | one pass of the consumer loop: outcomes, position and committed offset as specified, including raises inside the except clause |
| ApprovedLoop.TracesByCause | services/execution_engine/service.py:1930-1994 | each trace has its cause: executed exactly on success, dead-lettered exactly for a malformed or expired message the topic took, retried exactly when a retry was accepted after a failure, a raise or a failed commit |
| ApprovedLoop.CommitsByCause | services/execution_engine/service.py:1930-1994 | when a turn moves the committed offset, by cause: a failed message only after a retry, a malformed or expired one only after the dead letter |
| ApprovedLoop.ExecutedExactly | services/execution_engine/service.py:1958-1960 | over every run a message counts as executed if and only if some delivery of it succeeded |
| ApprovedLoop.CommittedWithoutTraceExactly | services/execution_engine/service.py:2014-2021 | a message is committed without having been executed, retried or dead-lettered if and only if it expires between the two expiry checks |
| ApprovedLoop.LosesExactly | services/execution_engine/service.py:1930-1994 | one turn makes some committed offset untraced if and only if it commits over a gap or drops an untraced message |
| ApprovedLoop.NeverLosesExactly | services/execution_engine/service.py:1930-1994 | at every point of a run every offset below the committed one was executed, retried or dead-lettered if and only if no turn commits over a message of the session that was not, or drops an untraced one that expired between the two expiry checks |
| ApprovedLoop.RoutingLosesDropsOnly | services/execution_engine/service.py:1930-2021 | if retry and dead-letter publishing always succeed, then at every point every offset below the committed one was executed, retried or dead-lettered if and only if no message that expires between the two checks is dropped untraced |
| FillSlices.QuantityConserved | services/execution_engine/service.py:1662-1674 | the quantities of the slices handed on sum to the growth of the cumulative quantity if and only if that quantity never shrinks, otherwise to more |
| FillSlices.SliceCost | services/execution_engine/service.py:1191-1205 | one slice is worth the change of the cumulative cost, or nothing when that cost fell |
| FillSlices.CostAccounted | services/execution_engine/service.py:1191-1205 | slice costs sum to the growth of the cumulative cost plus every fall of it |
| FillSlices.CostConservedExactly | services/execution_engine/service.py:1191-1205 | the sum is never too small, and right if and only if the cumulative cost never falls |
| FillSlices.SlicesRecoverTrades | services/execution_engine/service.py:1191-1205 | round trip: from the broker's running averages the slices recover each trade, quantity and price |
| FillProtection.AtMostOneStopPerFill | services/execution_engine/service.py:1186-1189 | over any replay of fills the conditional put admits at most one child row per cumulative fill, and none is ever dropped |
| FillProtection.ProtectionAccounted | services/execution_engine/service.py:1641-1698 | over every run, whatever is lost, listed late or out of order: the quantity of the reserved stop rows minus the largest fill they cover equals the sum of the lags of the listings they were made from |
| FillProtection.OverprotectedExactly | services/execution_engine/service.py:1641-1698 | over every run, at some point the reserved stops exceed what the broker reported filled if and only if those lags show; the cause is always a stop made from a listing behind the stops that exist, and with quantities arriving in order and no stop after a fill stored without one, such a stop always is over-protection |
| FillProtection.UnderprotectedExactly | services/execution_engine/service.py:1535-1698 | when differing reports are written, reports and sweeps act on current listings, answers are recorded before any fill is stored or protected, and no write lowers the stored quantity: the stored quantity exceeds the reserved stops by exactly what was stored without one, and the two agree if and only if no raising write is startup recovery of an ACK_UNKNOWN row, a report that is not a fill, or cut off before its stop |
| FillProtection.StoredAccounted | services/execution_engine/service.py:1641-1698 | with no condition: the stored quantity minus the reserved stops is the sum over the run of what each event stored and did not protect |
| FillProtection.NeverMoreThanFilled | services/execution_engine/service.py:1641-1698 | under the four conditions of UnderprotectedExactly (reports written, current listings, answers first, never lowered) the reserved stops never exceed the stored quantity, nor that the largest quantity the broker reported |
| FillProtection.CleanRunsProtectExactly | services/execution_engine/service.py:1641-1698 | under those four conditions and with no raising write on a path without a stop, the reserved stop rows add up to exactly the stored quantity at every point, and after a written report to the broker's cumulative quantity; whether each was placed is ProtectionSafety.ProtectsOrFailsClosed |
| FillProtection.EarlierRowOverprotects | services/execution_engine/service.py:1636-1668 | a fill of 60 and a full fill of 100 both measured against the row as placed leave stops for 160: because the first write was lost (the result of the row write is ignored), or, with every write effective, because a second starting instance still holds the earlier listing |
| FillProtection.SecondAnswerOverprotects | services/execution_engine/service.py:934-1000 | answers have to come first: two answers to one placement, at 60 and at 100, leave stops for 160 |
| FillProtection.LoweredRowOverprotects | services/execution_engine/service.py:1641-1652 | a report that arrives late lowers the stored quantity, and the next one is measured from there: stops for 120 on a fill of 100 |
| FillProtection.RecoveredFillUnprotected | services/execution_engine/service.py:1535-1566 | with nothing failing, a fill that startup recovery finds for an ACK_UNKNOWN order is stored without any stop |
| FillProtection.CancelledFillUnprotected | services/execution_engine/service.py:1670-1674 | a partly filled order reported as CANCELLED never gets a stop for its fill |
| FillProtection.SameStatusIsPassedOver | services/execution_engine/service.py:1641-1647 | a partial fill that grows while the status stays is neither stored nor protected |
| FillProtection.RejectionForgetsSweepKeeps | services/execution_engine/orders/order_manager.py:684-715 | a rejection mark resets the stored quantity to zero and a sweep keeps it; stops stay in both cases |
| ProtectiveStops.Desk.PlaceWithIdempotency | services/execution_engine/service.py:1009-1105 | the placement wrapper with the kill switch overridden: rows, requests and answer for every course of the dialogue, a refused place call that the broker accepted included |
| ProtectiveStops.Desk.SubmitChild | services/execution_engine/orders/order_manager.py:336-409 | a child row is created at most once and never overwritten, also when the write is not acknowledged |
| ProtectiveStops.Desk.LinkChild | services/execution_engine/orders/order_manager.py:578-612 | the parent's protected quantity grows by the child's and points at it |
| ProtectiveStops.Desk.PlaceFlatten | services/execution_engine/service.py:1415-1479 | the flatten order's whole effect; what becomes of its row is ProtectionOutcomes.FlattenRowExactly, its side and quantity over runs are ProtectionConflicts.ChildrenCloseTheParent and ProtectionSafety.RunSound |
| ProtectiveStops.Desk.HandleStopFailure | services/execution_engine/service.py:1347-1413 | halt first, reject the stop row, flatten, and mark the parent whatever became of the flatten order |
| ProtectiveStops.Desk.MaybePlaceProtectiveStop | services/execution_engine/service.py:1237-1345 | the whole effect and outcome of a protective call; what each outcome promises is ProtectionSafety.ProtectsOrFailsClosed |
| ProtectiveStops.Desk.PlacePendingProtective | services/execution_engine/service.py:1829-1892 | recovery of a stop row listed as PENDING, whatever its status is by then; a flatten row is refused for want of a stop price; its effect on the broker is ProtectionSafety.StopAcceptedAtMostOnce and ProtectionConflicts.BothAcceptedExactly |
| ProtectionOutcomes.OutcomesExactly | services/execution_engine/service.py:1252-1345 | when each outcome of a protective call comes about: not needed, already there, protected, failed closed, and an exception otherwise |
| ProtectionOutcomes.FlattenRowExactly | services/execution_engine/service.py:1415-1479 | the row of a new flatten order at the end of the call: there exactly when the handler came to it and its put took effect; with a broker id, and then the broker's status, exactly when the broker answered and the answer was recorded |
| ProtectionOutcomes.FailedStopRow | services/execution_engine/service.py:1378-1388 | after a failed placement the stop row is REJECTED if either rejection was written, else ACK_UNKNOWN if the doubt was, else PENDING, and has no broker id |
| ProtectionOutcomes.RecoveryPlacesStop | services/execution_engine/service.py:1829-1892 | recovery of a stop listed as PENDING hands over the row's own side and quantity, records the answer and links the stop |
| ProtectionOutcomes.RecoveryRecordsFound | services/execution_engine/service.py:1535-1566 | recovery of an ACK_UNKNOWN child records the order it finds and changes nothing otherwise; it never places or links |
| ProtectionOutcomes.UpdatesMoveKnownRows | services/execution_engine/service.py:1636-1652 | a reported status moves a child row if and only if it has a broker id and the table allows the move |
| ProtectionSafety.ProtectsOrFailsClosed | services/execution_engine/service.py:1252-1345 | on every normal return for a fill that needs a stop: the broker accepted the stop, its row has exactly the status of the broker's answer and it is linked for that quantity on the opposite side; or its row was there and nothing changed; or the service is halted and the parent marked unprotected |
| ProtectionSafety.DeadStopExactly | services/execution_engine/service.py:1310-1345 | when it does not fail closed: a call returns normally with a REJECTED or CANCELLED stop row and no halt if and only if the service was running and the row was there and dead already, or the new stop's answer was recorded, linked and itself REJECTED or CANCELLED |
| ProtectionSafety.RunSound | services/execution_engine/service.py:1252-1307 | over every run in which flatten orders come back with the protective mark their row was stored with: children belong to entry orders only, and whatever is handed over has the side and quantity of its reserved row; a flatten has those of the stop it replaces |
| ProtectionSafety.FlattenHandedAtMostOnce | services/execution_engine/service.py:1415-1479 | over every such run at most one flatten per parent and cumulative fill is handed over, whatever lookups see: the replay branch for an existing flatten row is never reached |
| ProtectionSafety.StopHandedAtMostOnce | services/execution_engine/service.py:1290-1307 | over every such run without renewed placement by startup recovery a stop is handed over at most once |
| ProtectionSafety.StopAcceptedAtMostOnce | services/execution_engine/service.py:1829-1892 | over every such run with recovery, and lookups that see accepted orders, at most one stop per fill is accepted |
| ProtectionSafety.CallsFollowFills | services/execution_engine/service.py:1676-1698 | each protective call that gets as far as the child row moves the fill accounting by exactly one event |
| ProtectionConflicts.BothByCallExactly | services/execution_engine/service.py:1252-1345 | one protective call leaves a stop and its flatten both accepted if and only if the stop is accepted, its place call ends in a refusal or in a lost acknowledgement that the rescan misses, and the flatten goes out and is accepted |
| ProtectionConflicts.BothAcceptedExactly | services/execution_engine/service.py:1347-1413 | over every run of protective calls, one at a time, the broker has accepted both if and only if some call did that, or startup recovery had a stop accepted that it found listed as PENDING after its flatten was accepted |
| ProtectionConflicts.NeverBothAccepted | services/execution_engine/service.py:1829-1892 | one call at a time: if rescans find what was accepted, refused place calls were not accepted, and either recovery leaves stops with a flatten row alone, or the REJECTED writes on them take effect and recovery lists rows as they are, then the broker never accepts both |
| ProtectionConflicts.LostStopIsFlattened | services/execution_engine/brokers/zerodha_broker.py:1105-1146 | the rescan and the refusal condition are needed: an accepted stop whose acknowledgement is lost and whose rescan misses, or whose place call raises an exception classified as a refusal, is flattened as well, with every other condition met |
| ProtectionConflicts.RevivedStopIsAcceptedToo | services/execution_engine/service.py:1378-1388 | the recovery conditions are needed: the search before the stop raises, the flatten goes out, and startup recovery places the stop, because the ignored REJECTED write was lost or because its listing still shows PENDING; the rescan and refusal conditions and the other of these two hold, and every search sees what was accepted |
| ProtectionConflicts.ChildrenCloseTheParent | services/execution_engine/service.py:1271-1273 | over every run each stop and each flatten handed over belongs to an entry order and is on the side opposite to it |
| ProtectionLinks.ProtectedQuantityAccounted | services/execution_engine/orders/order_manager.py:578-612 | over every run a parent's protected quantity is the sum of the stop quantities linked to it, once per linking |
| ProtectionLinks.LinkedAtMostOnce | services/execution_engine/service.py:1829-1892 | if recovery lists rows as they are and the broker never answers PENDING, each stop is counted at most once in its parent's protected quantity |
| ProtectionLinks.FoundStopIsCountedAgain | services/execution_engine/service.py:1829-1892 | both conditions are needed: a recovery that lists a placed stop as PENDING and finds it at the broker links it again, and twice its quantity counts as protected |
| SquareOff.BuildValidExitIds | services/execution_engine/mis_square_off.py:335-390 | the result is exactly the exit ids whose order was found in a non-terminal status, and empty without an order manager |
| SquareOff.ResolveAll | services/execution_engine/mis_square_off.py:293-333 | the loop over the scanned rows yields the chosen positions in order |
| SquareOff.GetOpenPositions | services/execution_engine/mis_square_off.py:293-333 | the positions are, one for one and in order, those of the rows that must be closed |
| SquareOff.ChosenExactly | services/execution_engine/mis_square_off.py:392-492 | a position is chosen if and only if some row is MIS, at or above the zero tolerance, has no exit order in flight, and the position has its name, its signed quantity, and the side and size that take it to zero |
| SquareOff.EachRowOnce | services/execution_engine/mis_square_off.py:392-492 | every row that must be closed is chosen once, in order, with its own name and signed quantity |
| SquareOff.OrdersCloseRows | services/execution_engine/mis_square_off.py:263-282 | the orders are, one for one, those that take each row's quantity to zero |
| SquareOff.PlacedExactly | services/execution_engine/mis_square_off.py:581-603 | the placed counter is the number of replies that say success |
| SquareOff.LongsExactly | services/execution_engine/mis_square_off.py:247-248 | the long counter is the number of positions with a positive quantity |
| SquareOff.CloseEndsAtZero | services/execution_engine/mis_square_off.py:480-492 | any partial fill of the close order for a row shrinks the row's quantity without crossing zero; it is zero exactly when the order is filled |
| SquareOff.ClientRepliesCountAsRejected | services/execution_engine/mis_square_off.py:581-603 | the broker client's reply has no success attribute, so accepted close orders are counted as rejected |
| SquareOff.LeftOpenShrinks | services/execution_engine/mis_square_off.py:625-662 | the pending set only shrinks |
| SquareOff.OpenSymbolsCounted | services/execution_engine/mis_square_off.py:664-668 | the open symbols never outnumber the open positions |
| SquareOff.FlatCounter | services/execution_engine/mis_square_off.py:664-668 | the flat counter never under-reports, and is right when no symbol has two rows |
| SquareOff.AnyClientReadConfirms | services/execution_engine/mis_square_off.py:638-651 | with the rows the broker client returns, a symbol stays open if and only if every read failed: any successful read confirms it |
| SquareOff.KeyedReadsAreRight | services/execution_engine/mis_square_off.py:638-651 | with rows keyed by trading symbol a confirmation means that the symbol's first MIS row is flat |
| SquareOff.Manager.PlaceCloseOrders | services/execution_engine/mis_square_off.py:263-282 | hands over one order per position, on its closing side and for its whole quantity; placed and rejected replies add up to the positions |
| SquareOff.Manager.ConfirmRound | services/execution_engine/mis_square_off.py:633-660 | a round removes exactly the symbols it confirmed |
| SquareOff.Manager.AwaitFillsOrEscalate | services/execution_engine/mis_square_off.py:605-690 | terminates by the deadline; what is left are exactly the symbols never confirmed, and the kill switch is requested exactly when there are any, rejected close orders included |
| SquareOff.Manager.Execute | services/execution_engine/mis_square_off.py:207-291 | the whole run: positions and orders are those of the rows that must be closed, counters, escalation |
| CandleIntervals.NormaliseIntervals | services/data_ingestion/candle_stream.py:318-336 | non-empty, no blank, no duplicate, equal to the specification |
| CandleIntervals.CollectsExactly | services/data_ingestion/candle_stream.py:318-336 | exactly the canonical names of the input, each once |
| CandleIntervals.CanonicalKeepsMinutes | services/data_ingestion/candle_stream.py:318-336 | the canonical name of a known interval stands for the same minutes; any other text is only stripped |
| CandleIntervals.CollectIsStable | services/data_ingestion/candle_stream.py:318-336 | first occurrences keep their order |
| CandleIntervals.NormaliseTwice | services/data_ingestion/candle_stream.py:318-336 | normalising is idempotent |
| CandleScheduler.ProductDistinct | services/data_ingestion/candle_stream.py:230-241 | no pair is queued twice when instruments and intervals are distinct |
| CandleScheduler.Scheduler.SetPriorityInstruments | services/data_ingestion/candle_stream.py:296-316 | keeps the known instruments, once each, and refills the priority queue with all their pairs |
| CandleScheduler.Scheduler.NextInstrumentInterval | services/data_ingestion/candle_stream.py:420-444 | one pick: priority queue first, refilled when exhausted, otherwise the standard queue rotated by one |
| CandleScheduler.TurnedIsRotation | services/data_ingestion/candle_stream.py:438-442 | the standard queue is always a rotation of its initial contents |
| CandleScheduler.EveryWindowServesAll | services/data_ingestion/candle_stream.py:438-442 | without priorities every window of L picks serves each of the L pairs exactly once and leaves the queue as it was |
| CandleScheduler.PriorityWindowServesBlock | services/data_ingestion/candle_stream.py:428-437 | with priorities every window of P times intervals picks is a permutation of those pairs, standard queue untouched: it is starved |
| CandleScheduler.StandardTurns | services/data_ingestion/candle_stream.py:420-444 | over any mixture of picks and priority changes the standard queue turns by the picks it served |
| CandleScheduler.StandardResumes | services/data_ingestion/candle_stream.py:420-444 | the standard picks form one uninterrupted walk around the queue |
| CandleScheduler.AlwaysQueued | services/data_ingestion/candle_stream.py:309-313 | the priority queue is always a rest of the current block, never empty while priorities are set |
| CandleHistory.Stream.FetchCandles | services/data_ingestion/candle_stream.py:489-514 | what a response contributes, the last start time, and the bounded history, for this key only |
| CandleHistory.Stream.UpdateHistory | services/data_ingestion/candle_stream.py:578-588 | the history keeps the last forty |
| CandleHistory.OnlyTheFirstIsDropped | services/data_ingestion/candle_stream.py:495-498 | de-duplication drops at most the first candle of a window |
| CandleHistory.OnlyParsedCount | services/data_ingestion/candle_stream.py:489-498 | a candle that does not parse changes nothing for the others |
| CandleHistory.RefetchedWindow | services/data_ingestion/candle_stream.py:495-498 | a refetched window is processed wholly again if and only if it has two candles or more |
| EntryBlock.Reader.Read | services/shared/entry_block_reader.py:106-162 | result and cache of a read, cached, fetched or failed |
| EntryBlock.ReadsAreCurrent | services/shared/entry_block_reader.py:106-162 | over any run, once the clock has passed the TTL: a result that claims to be read is what the table held less than one TTL ago, and in fail-closed mode allowed is only returned if the table allowed then |
| EntryBlock.InvalidateForcesExactly | services/shared/entry_block_reader.py:164-166 | an invalidation forces the next read if and only if the clock has passed the TTL |
| EntryBlock.UnreadExactly | services/shared/entry_block_reader.py:106-162 | after any run a result says it was not read if and only if the call had to ask and the ask failed; it names the failure and blocks exactly in fail-closed mode |
| EntryBlock.AnswerLastsExactly | services/shared/entry_block_reader.py:106-146 | an answer serves unforced reads that start less than one TTL after its own read started, and no later ones |
| EntryBlock.EarlyReadsAreUnread | services/shared/entry_block_reader.py:92-104 | before that a new reader answers allowed, read, without having read, also in fail-closed mode |
| EntryBlock.FailureDoesNotStick | services/shared/entry_block_reader.py:148-155 | a fail-closed answer is followed by the cached one if the next unforced read comes inside the TTL |
| IncidentLog.Log.Restore | services/monitoring_agent/incident_log.py:65-85 | the loop restores exactly the replay of the file |
| IncidentLog.Log.RecordCycle | services/monitoring_agent/incident_log.py:99-118 | transitions, memory and file after a cycle |
| IncidentLog.TransitionsTell | services/monitoring_agent/incident_log.py:99-118 | each transition tells of one result of the cycle: a change from what was remembered, a recovery exactly when the new status is OK, an alert exactly as documented |
| IncidentLog.TransitionsAreRecorded | services/monitoring_agent/incident_log.py:120-138 | with appends kept the file grows by one record per transition, holding its fields |
| IncidentLog.ReplayIsTheLastRecord | services/monitoring_agent/incident_log.py:65-85 | a restart remembers of a component exactly its last record with neither field blank |
| IncidentLog.ComponentSyncedExactly | services/monitoring_agent/incident_log.py:99-138 | from agreement, a component's replay and memory agree after a cycle if and only if it did not change or its record was kept |
| IncidentLog.SyncedExactly | services/monitoring_agent/incident_log.py:99-138 | the file replays to the memory after a cycle over distinct components if and only if every change was kept |
| IncidentLog.RestartsGoUnnoticed | services/monitoring_agent/incident_log.py:65-85 | with kept records, restarts between cycles change no transition, no alert flag and no state |
| IncidentLog.LostRecordIsReportedAgain | services/monitoring_agent/incident_log.py:120-138 | a transition whose record was lost is reported once more, identically, after a restart |
| IncidentLog.TransitionsLinkUp | services/monitoring_agent/incident_log.py:99-118 | per component a transition starts where the previous one ended and ends elsewhere, across restarts |
| IncidentLog.AlertsExactly | services/monitoring_agent/incident_log.py:87-97 | an alert is a status at or above the threshold, or OK directly after one |
| IncidentLog.RecoveryThroughUnknownIsSilent | services/monitoring_agent/incident_log.py:87-97 | with the default threshold, recovery from DOWN through UNKNOWN alerts at neither step |

## Left out

- OrderSafety.AtMostOneEntryOrder: a missed lookup is excluded for requests still in flight as well, because an order that arrives after the search is otherwise placed twice (OrderCounterexamples.LateArrivalIsPlacedTwice).
- OrderSafety.AckUnknownIsNeverPlaced: assumes current index reads and one handler per signal; without current reads it is false, see OrderCounterexamples.StaleReadPlacesAckUnknown; what holds without them is OrderSafety.AckUnknownNeedsLateRead and LaterRequestsNeedLateReads.
- RiskOffsets.PendingOffsetsWentToRetry: needs current reservation reads and one live handler per signal; without either it is false, see StaleReadDropsPending and TwoHandlersDropPending.
- FillProtection.CleanRunsProtectExactly: counts reserved stop rows; a refused placement leaves its row, and what then becomes of the fill is ProtectionSafety.ProtectsOrFailsClosed and DeadStopExactly.
- RiskOutboxSafety.ApprovedOffsets: for the enriched loop only "went to the retry attempt" is stated, because it commits whatever the attempt answers.
- FillProtection.NeverMoreThanFilled: needs written reports, current listings, answers first and no lowering write; without any one of them it is false (EarlierRowOverprotects, SecondAnswerOverprotects, LoweredRowOverprotects), and the exact condition over every run is OverprotectedExactly.
- ProtectionConflicts.NeverBothAccepted: one protective call at a time; two instances that work on one stop at once are not modelled.
- EntryBlock.ReadsAreCurrent: needs a clock past the TTL; EarlyReadsAreUnread shows what happens before.
- Broker, Kafka, DynamoDB, SNS, S3, HTTP and SDK code: only the abstract effect on the modelled state.
- Hashes and formatted ids are taken to be injective (broker key, fill key at eight decimals, child ids); floats are reals.
- Bodies of the individual risk validators, the universe validator and the rate limiter: their answers are inputs.
- OrderHandler models one call at a time; concurrent calls are in the step machine, which is on values because handlers interleave between any two awaits.
- Child orders are not rows of the entry-order machine; ProtectiveStops has its own, one call at a time, with the kill-switch sweep of other orders reduced to raising or not. A clear during the failure handler is not modelled.
- The bulk order poller, which makes stops under another fill id, and the placement-pause circuit.
- Live position accounting after a handled message; a duplicate delivery of a filled order applies its fill again there, so exactly-once positions are not claimed.
- Kafka partitions and rebalances beyond one partition with restarts from the committed offset; message parsing.
- The square-off's daily timer, scan pagination, alerts and logging; a failed kill-switch write is modelled, its consequences are not.
- Incident-log lines torn by a partial write, and JSON lines that are not objects; candle phase, warm-up tags and feature computation; text is ASCII.
- AI engine, scripts, preflight and live-gate checks: independent one-branch checks and I/O.
