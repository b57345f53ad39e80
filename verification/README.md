# Kairos kernels: a Dafny model

Kairos is a trading agent. This project models the parts of it where branching, state and
arithmetic are densest - its ledgers, its protocols and its fast algorithms - and proves what
they keep over every run. One module per component:

- **Ledgers.** `PaperLedger`, `PaperOrders`, `PaperPrices` and `PaperSimulator`: the paper-trading
  simulator, its conservation identity, the life of its orders and the prices they fill at. `Backtest`: the backtest engine's
  books. `Risk`: the acceptance rules, and what they guarantee about the paper ledger.
- **Protocols.** `CircuitBreakers` and `CircuitBreakerRuns`, `Router`, `OrderService` and
  `OrderAnswers`, `EventBus` with `EventBusStreams` and `EventBusLosses`, `AnalyticsQueue`, `Jobs`
  and `JobHistory`, `Runtime` and `RuntimeHistory`. Each lock section, channel operation or external
  answer is one step; a run is any finite sequence of steps, so it covers every interleaving.
- **Fast form against simple form.** `Journal` with `Deduplication` (the replay loop against
  a declarative description), `Reconciliation` (bulk against one order at a time), `Vault`
  (re-encryption against a plain map), `Attestation` (cutting the block out), `Indicators`
  (loops over decimals) and `Allocator` (a bump allocator in 32-bit arithmetic).

`Entities`, `Sums` and `Strings` hold shared definitions.

## How the model is built

An object whose methods change its fields is a class. Each of its methods ends in exactly the
state that a specification function (`Step`, `Begin`, `Settle`, `WriteStep`, ...) gives for
the old state, and loops are proved against recursive functions. The theorems are lemmas about
those functions and their runs. Calls into databases, the venue, the cipher, the clock or the
random source take their answer, good or bad, as a parameter. A step that is not possible in a
state leaves the state as it is.

For most components one theorem describes the state that any run ends in from the run's events
alone, in the numbers and words of the source and without the step functions: what a channel
was sent, at what price an order filled, which answer a row holds, since when a slot is taken
(`EventBusStreams`, `PaperPrices`, `OrderAnswers`, `RuntimeHistory`, `JobHistory`, and
`Router.SlotTellsTheEvents`, `Backtest.TradesTellTheCandles`, `AnalyticsQueue.QueueTellsTheCalls`,
`Journal.SegmentsAreFull`).

Conventions: decimals are `real`; time is an integer that never goes backwards (each event
carries the time since the one before it, or a reading that only the outcome depends on);
generated ids are fresh; 32-bit counters and offsets wrap explicitly, 64-bit ones are unbounded.

## What the code does not keep

Some intended properties hold only under a condition that the code does not enforce. Each is
proved under the condition, and the named member says exactly when it fails; short runs that
break it stand beside it.

- A fill larger than what is open on the other side closes the position but pays for the whole
  order: the books gain or lose the surplus at the entry price (`PaperLedger.BooksKeptExactlyWhen`).
- A call whose context is cancelled after admission is never given back; a full half-open
  breaker with no call in flight refuses for ever (`CircuitBreakerRuns.WedgedExactlyWhenNothingInFlight`).
- Cleaning up or confirming a slot while its venue call is out lets the same order out twice
  (`Router.TwiceOutExactlyWhen`).
- A failed row update after the venue accepted an order leaves it pending and submittable, and
  submissions that overlap both read the pending row, so that the venue accepts the order twice
  (`OrderService.PlaceableExactlyWhen`, `OrderService.PlacementsBounded`); overlapping calls also
  write old copies over final rows (`OrderService.FinalRowChangesExactlyWhen`).
- The journal's active file sorts before its rotated segments, so an older entry can win
  (`Journal.LatestWinsExactlyWhen`); two rotations in one second share a name, and the first
  segment is lost (`Journal.RotationLosesExactlyWhen`).
- A halt with an empty reason stays blocked after it is lifted (`Runtime.ResumeNeedsReason`), and
  overlapping transitions can leave a halted machine behind a status that admits entries
  (`Runtime.AgreeExactlyWhen`, `Runtime.OvertakenHaltExactlyWhen`).
- Bulk reconciliation books an order that has filled at the exchange as cancelled
  (`Reconciliation.PassesAgreeExactlyWhen`), and position reconciliation never takes over the side
  of a position that is held (`Reconciliation.SideDiffersExactlyWhen`).
- A publisher that holds a copy of the subscription list, or can still make one, can send to a
  channel nobody reads any more, or that is closed (`EventBusLosses.HeldCopyExactlyWhen`).
- A symbol with a negative minimum quantity lets a negative order push a position past its limit
  (`Risk.WithinLimitsExactlyWhen`), and the entry rules let one over-close (`Risk.SessionConservesExactlyWhen`).
- A commission rate or a slippage above one whole - neither is checked - can make sales cost money,
  and the backtest's balance can go negative (`Backtest.SolventExactlyWhen`).
- The writer without a closed check accepts calls after Close and never writes them
  (`AnalyticsQueue.UnguardedCloseLosesLaterCalls`).
- Two active jobs under one id share an entry in the table (`Jobs.ActiveIsPendingExactlyWhen`).
- Backtest trade profits count the exit commission only (`Backtest.FinalEquity`).
- A stray end marker ahead of the attestation block keeps the block in the hash
  (`Attestation.StrayEndKeepsBlock`); flat prices have an index of 100 in both directions
  (`Indicators.MirrorImage`); Bollinger widths are variances (`Indicators.WidthScalesBySquare`).

The comment on `Close` in `internal/storage/dual/writer.go:218-220` calls events that were in
flight lost; the code writes them. The model follows the code.

## Model

| member | source | states |
|---|---|---|
| CircuitBreakerRuns.Accounting | internal/circuitbreaker/circuitbreaker.go:119-285 | over every interleaving of calls that begin, end late, end in another generation or never end: requests = successes + failures + in flight + abandoned in the current generation, modulo the 32-bit counters |
| CircuitBreakerRuns.WrappedIsModulo | internal/circuitbreaker/circuitbreaker.go:177 | a counter incremented n times holds n modulo 2 to the 32 |
| CircuitBreakerRuns.StaleResultIgnored | internal/circuitbreaker/circuitbreaker.go:182-198 | a result of an earlier generation changes nothing that looking at the clock would not |
| CircuitBreakerRuns.HalfOpenBounded | internal/circuitbreaker/circuitbreaker.go:164-179 | a half-open generation admits at most maxRequests calls and has seen no failure |
| CircuitBreakerRuns.ClosesOnlyOnFullSuccess | internal/circuitbreaker/circuitbreaker.go:201-217 | the step that closes a half-open breaker ends a generation of maxRequests successes and nothing else |
| CircuitBreakerRuns.NothingAdmittedWithinTimeout | internal/circuitbreaker/circuitbreaker.go:236-285 | after a trip no run admits a call until more than the timeout has passed |
| CircuitBreakerRuns.ConsecutiveCounts | internal/circuitbreaker/circuitbreaker.go:201-233 | in every run the consecutive counts are the successes since the last failure, and the failures since the last success, among the calls that ended in the current generation, modulo 2 to the 32 |
| CircuitBreakerRuns.TripsExactlyWhen | internal/circuitbreaker/circuitbreaker.go:220-233 | with the rule more than n failures in a row (the default has n = 5, line 109), a closed breaker opens exactly in the step in which the (n+1)-th ended call in a row fails |
| CircuitBreakerRuns.ClockMovesExactlyWhen | internal/circuitbreaker/circuitbreaker.go:236-285 | the clock alone ends a closed generation exactly after more than the interval since it began, with all counts zero, and lets an open breaker probe exactly after more than the timeout |
| CircuitBreakerRuns.FullHasCallInFlight | internal/circuitbreaker/circuitbreaker.go:119-198 | a full half-open generation has a call in flight, unless one was abandoned |
| CircuitBreakerRuns.WedgedExactlyWhenNothingInFlight | internal/circuitbreaker/circuitbreaker.go:119-198 | a full half-open breaker refuses every call in every future exactly when none of its calls is in flight |
| CircuitBreakerRuns.AbandonedProbeWedges | internal/circuitbreaker/circuitbreaker.go:126-130 | a concrete run: one call cancelled after admission wedges a breaker with maxRequests 1 for good |
| CircuitBreakers.CircuitBreaker.Execute | internal/circuitbreaker/circuitbreaker.go:119-138 | a whole call: refused, or admitted and then cancelled, panicked or returned; only a return ends it |
| CircuitBreakers.CircuitBreaker.BeforeRequest | internal/circuitbreaker/circuitbreaker.go:164-179 | the verdict and the new state, for every state and clock reading |
| CircuitBreakers.CircuitBreaker.AfterRequest | internal/circuitbreaker/circuitbreaker.go:182-198 | the state after a result for a given generation |
| CircuitBreakers.CircuitBreaker.OnSuccess | internal/circuitbreaker/circuitbreaker.go:201-217 | the state after a success, by mode |
| CircuitBreakers.CircuitBreaker.OnFailure | internal/circuitbreaker/circuitbreaker.go:220-233 | the state after a failure, by mode |
| CircuitBreakers.CircuitBreaker.CurrentState | internal/circuitbreaker/circuitbreaker.go:236-248 | what the clock alone changes |
| CircuitBreakers.CircuitBreaker.SetState | internal/circuitbreaker/circuitbreaker.go:251-264 | a change of mode starts a new generation, no change does nothing |
| CircuitBreakers.CircuitBreaker.ToNewGeneration | internal/circuitbreaker/circuitbreaker.go:267-285 | counts cleared, expiry by mode |
| PaperLedger.ApplyConserves | internal/service/paper/simulator.go:250-305 | one fill: cash, position cost and realized profit balance, up to the surplus of an over-closing fill at the entry price |
| PaperLedger.StepConserves | internal/service/paper/simulator.go:172-236 | every step keeps the books, up to that surplus |
| PaperLedger.BooksKeptExactlyWhen | internal/service/paper/simulator.go:289-294 | a step keeps the books exactly when it is not an over-closing fill at an entry price other than zero |
| PaperLedger.Conservation | internal/service/paper/simulator.go:172-312 | every run, any number of symbols: balance + sum of quantity times entry price = initial balance + sum of realized profit + the exact sum of surpluses, plus for longs and minus for shorts |
| PaperLedger.ConservationWithoutOverClosing | internal/service/paper/simulator.go:172-312 | the plain identity for every run in which no opposite fill exceeds the open quantity |
| PaperLedger.MarkedEquity | internal/service/paper/simulator.go:145-157 | with every position marked, balance + market value = initial + realized + unrealized profit |
| PaperLedger.OverClosingCreatesMoney | internal/service/paper/simulator.go:289-294 | a concrete run that breaks the identity by two units of the entry price |
| PaperOrders.BalanceIsFoldOfFills | internal/service/paper/simulator.go:172-236 | in every run the balance is the initial one plus the cash flow of each filled order, once |
| PaperOrders.TerminalForGood | internal/service/paper/simulator.go:54-236 | a filled, cancelled or rejected order is the same record for the rest of any run |
| PaperOrders.NeverOverdrawn | internal/service/paper/simulator.go:202-226 | from a non-negative balance, non-negative prices and quantities never make it negative |
| PaperOrders.PositiveOrdersNeverCrash | internal/service/paper/simulator.go:283-286 | orders for positive quantities never divide by zero |
| PaperOrders.EmptyOrderCrashes | internal/service/paper/simulator.go:283-286 | a fill divides by zero exactly when it extends a position whose quantity it cancels |
| PaperSimulator.Simulator.SubmitOrder | internal/service/paper/simulator.go:54-82 | a fresh order is stored as submitted, its fill pending |
| PaperSimulator.Simulator.CancelOrder | internal/service/paper/simulator.go:85-104 | missing, terminal and open orders; the new state |
| PaperSimulator.Simulator.UpdateMarketPrice | internal/service/paper/simulator.go:145-157 | the price is stored and an open position marked |
| PaperSimulator.Simulator.Reset | internal/service/paper/simulator.go:160-170 | orders, positions and prices cleared; delayed fills stay |
| PaperSimulator.Simulator.SimulateFill | internal/service/paper/simulator.go:172-236 | the delayed fill as one step, in each of its branches |
| PaperSimulator.Simulator.FillOrder | internal/service/paper/simulator.go:186-236 | rejection, or the fill with its cash and position |
| PaperSimulator.Simulator.UpdatePosition | internal/service/paper/simulator.go:250-305 | the position after a fill, or the panic of a division by zero |
| PaperPrices.OrdersTellTheEvents | internal/service/paper/simulator.go:54-247 | in every run each order is the one submitted under its id: still submitted; or filled whole at 10005/10000 (purchase) or 9995/10000 (sale) of the last price heard for its symbol, its own if none was, with cash for it and a commission of 6/10000; or a purchase without such cash, rejected; or cancelled |
| PaperPrices.PendingTellsTheEvents | internal/service/paper/simulator.go:79-183 | a delayed fill is waiting exactly when its order was submitted, or it was left over, and it has neither run nor been dropped since: no fill runs twice |
| PaperPrices.PositionsTellTheEvents | internal/service/paper/simulator.go:145-157 | a position shows the price of the last fill of its symbol, or the last price heard since while it was open and the profit at that price; a closed one shows none |
| PaperPrices.EquityOnceMarked | internal/service/paper/simulator.go:145-157 | so once a price has been heard for every open position, equity at market is the initial balance plus total profit |
| Risk.FillWithinLimitsExactlyWhen | internal/service/paper/simulator.go:250-305 | an accepted fill keeps a position on the step grid, not negative and within its limit exactly when the order is not for a negative quantity that opens, outweighs what it extends, or pushes the other side past the limit |
| Risk.TradeWithinLimitsExactlyWhen | internal/domain/risk/engine.go:54-117 | one validated request keeps all positions within limits exactly when it is not such a fill |
| Risk.WithinLimitsExactlyWhen | internal/domain/risk/engine.go:54-117 | every state of a session of validated orders filled one by one is within limits exactly when no request of it is such a fill |
| Risk.ValidatedQuantityBounded | internal/domain/risk/engine.go:94-106 | then, with none such, each quantity ends on the step grid and within a non-zero position limit |
| Risk.MinimumsSuffice | internal/domain/entity/symbol.go:68-76 | minimum quantities that are not negative see to that |
| Risk.NegativeMinimumBreaksLimit | internal/domain/entity/symbol.go:68-76 | a concrete family: with a negative minimum quantity an accepted sale pushes a long past its limit |
| Risk.ValidatedCloseNeverExceeds | internal/domain/risk/engine.go:126-151 | an accepted close never over-closes and never extends |
| Risk.EntryMayExceed | internal/domain/risk/engine.go:94-106 | a concrete family: an order accepted as an entry can over-close |
| Risk.TradeConservesExactlyWhen | internal/domain/risk/engine.go:94-151 | a validated request keeps the ledger identity exactly when it is not an entry that fills for more than is open on the other side, at an entry price other than zero; closes see to that themselves |
| Risk.SessionConservesExactlyWhen | internal/domain/risk/engine.go:94-151 | every state of a session keeps the ledger identity, whatever the prices do, exactly when no request of it is such an entry |
| Risk.MultiplesAdd | internal/domain/entity/symbol.go:68-76 | multiples of the step add and subtract to multiples |
| Risk.VerdictExactlyWhen | internal/domain/risk/engine.go:53-123 | an order is refused for the first check it violates, in this order, and accepted when it violates none: trading, quantity in range and in whole steps, limit price likewise, minimum notional, daily loss, position size, balance |
| Risk.CloseVerdictExactlyWhen | internal/domain/risk/engine.go:126-151 | the same for a close: something is open, on the other side, at least as much, in range and in whole steps |
| Risk.CrashesExactlyWhen | internal/domain/entity/symbol.go:68-88 | the checks divide by zero exactly when a step, or after a fitting quantity a tick, of zero is reached |
| Router.InFlightBounded | internal/service/router/router.go:94-98 | in every interleaving the in-flight journal stays within the limit |
| Router.OutstandingBounded | internal/service/router/router.go:87-161 | with idempotency, venue calls outstanding for one client order id exceed one by at most the number of slots freed too early |
| Router.AtMostOneOutstanding | internal/service/router/router.go:87-161 | so without such a release at most one call is outstanding, and its slot is held |
| Router.EarlyCleanupResends | internal/service/router/router.go:236-261 | a concrete run: a timeout during a venue call lets the same order out twice |
| Router.ResendNeedsRelease | internal/service/router/router.go:105-161 | an order that was sent is not sent again until a call for it fails, or it is confirmed or times out |
| Router.TwiceOutExactlyWhen | internal/service/router/router.go:87-161 | one more submission, at some moment of a run from an empty journal, makes two calls outstanding for one id exactly when the run frees a slot of that id while its call is out |
| Router.SecondCallExactlyWhen | internal/service/router/router.go:226-261 | a confirmation or cleanup lets the next submission make one more outstanding call exactly when it frees the slot |
| Router.ResentExactlyWhen | internal/service/router/router.go:105-161 | one more submission, at some moment of a run, sends an order again exactly when the run frees its slot by a failed call, a confirmation or a timeout |
| Router.DuplicateAnswersVenueId | internal/service/router/router.go:105-115 | a duplicate is answered with an id the venue gave for that client order id, or with none yet |
| Router.SlotTellsTheEvents | internal/service/router/router.go:87-261 | after any run an id has a slot exactly when a submission reserved it and no error, confirmation or timeout freed it since; it holds the time of that submission and the id of the venue's last acceptance since, or none |
| Router.OrderRouter.Reserve | internal/service/router/router.go:91-125 | limit, duplicate or reservation, and the new journal |
| Router.OrderRouter.Settle | internal/service/router/router.go:141-159 | the journal after the venue's answer |
| Router.OrderRouter.ConfirmOrder | internal/service/router/router.go:226-233 | the slot is freed |
| Router.OrderRouter.CleanupTimedOutOrders | internal/service/router/router.go:236-261 | exactly the timed-out slots are freed, and counted |
| Deduplication.DedupPut | internal/journal/journal.go:110-126 | the declarative spec - ids at their first position, last entry kept, entries without id all kept - one entry further |
| Deduplication.LastDedup | internal/journal/journal.go:98-132 | deduplication forgets nothing about the latest entry of an id |
| Deduplication.DedupDistinct | internal/journal/journal.go:98-132 | no id stays twice |
| Deduplication.Idempotent | internal/journal/journal.go:98-132 | deduplicating twice is deduplicating once |
| Deduplication.PrefixFirst | internal/journal/journal.go:98-132 | dedup(a ++ b) = dedup(dedup(a) ++ b) |
| Journal.Log.Append | internal/journal/journal.go:60-72 | the file map after an append with its rotation |
| Journal.Log.RotateIfNeeded | internal/journal/journal.go:74-95 | rotation exactly when the size is reached, under the name of the second |
| Journal.Log.Replay | internal/journal/journal.go:98-132 | the map-and-index loop over all files equals the declarative spec; a line that is too long fails it |
| Journal.Log.Scan | internal/journal/journal.go:109-129 | one file's loop, with the index map it keeps |
| Journal.Log.TruncateAfterReconciliation | internal/journal/journal.go:135-154 | all segments go, the active file is empty |
| Journal.FilesHoldBook | internal/journal/journal.go:60-95 | after any run the files are the segments in order of rotation and the active lines |
| Journal.LayoutOfSurvivors | internal/journal/journal.go:74-95 | on disk, segments overwritten by a rotation of the same second might as well never have been |
| Journal.ReadOrder | internal/journal/journal.go:99-103 | with time that does not go backwards, sorted names put the active file before every surviving segment, in order |
| Journal.RotationLosesExactlyWhen | internal/journal/journal.go:82 | some line appended is gone exactly when two neighbouring rotations shared a second |
| Journal.LatestWinsExactlyWhen | internal/journal/journal.go:98-132 | exactly when replay gives the latest entry of an id, with segments overwritten or not |
| Journal.LatestWinsWithoutCollision | internal/journal/journal.go:98-132 | with rotations in distinct seconds: exactly when the id does not span the active file and a segment, or ends alike in both |
| Journal.ReplayWithoutRotation | internal/journal/journal.go:98-132 | without rotation replay is the deduplicated history: the latest append wins |
| Journal.TruncationForgets | internal/journal/journal.go:135-154 | after a truncation there is nothing to replay |
| Journal.RotatedEntryWinsOverUpdate | internal/journal/journal.go:103 | a concrete run: an intent rotated away beats its later update |
| Journal.SameSecondRotationLosesSegment | internal/journal/journal.go:82 | the shortest run with such a loss |
| Journal.SegmentsAreFull | internal/journal/journal.go:60-95 | every segment is what had been appended when its bytes, newlines included, first reached the limit, stamped with the second of its last append; the active file is below the limit |
| Strings.SortedUnique | internal/journal/journal.go:103 | a set of names has one sorted order |
| Strings.DecimalOrder | internal/journal/journal.go:82 | numerals of one length sort as their numbers |
| Runtime.ModesAgree | internal/runtime/runtime.go:49-70 | over serialised steps, restarts included, the status shows the machine's mode |
| Runtime.RestartIsSafe | internal/runtime/restore.go:11-64 | whatever the snapshot, after a restart the agent is idle or halted and the gate refuses |
| Runtime.EntryNeedsExplicitStart | internal/service/tradinggate/gate.go:65-100 | an entry passes only after an explicit move into live or paper trading from a machine that was not halted |
| Runtime.EntryAfterHaltPassesIdle | internal/runtime/statemachine.go:66-96 | after a halt, the machine was first taken to idle, and trading started later |
| Runtime.DriftUnblocksWhileHalted | internal/runtime/runtime.go:102-112 | a small drift clears the block while halted; the gate still refuses, by mode |
| Runtime.ResumeNeedsReason | internal/runtime/runtime.go:57-66 | halt, idle, paper: entries are allowed again exactly when the halt had a reason |
| Runtime.ModesAre | internal/runtime/runtime.go:49-70 | in any interleaving of overlapping transitions and restarts, the machine is in the mode accepted or taken over last, the status shows the one written last |
| Runtime.AgreeExactlyWhen | internal/runtime/runtime.go:50-56 | so they agree exactly when those two are equal |
| Runtime.TwoAgreeExactlyWhen | internal/runtime/runtime.go:50-56 | two overlapping transitions agree exactly when written in order or equal |
| Runtime.HaltedGateOpenExactlyWhen | internal/runtime/runtime.go:50-56 | a halted machine is behind an open gate exactly when a start was written last and nothing else blocks |
| Runtime.OvertakenHaltExactlyWhen | internal/runtime/runtime.go:50-66 | a start overtaken by a halt, then a clock reading: open exactly when the halt was written first, the drift is small and nothing else blocks |
| Runtime.InOrderWritesAgree | internal/runtime/runtime.go:50-56 | between restarts, statuses written in the order of acceptance agree |
| Runtime.HaltedMachineOpenGate | internal/runtime/runtime.go:50-56 | out of order, the machine is halted while the gate admits entries: a concrete run |
| RuntimeHistory.StatusTellsTheEvents | internal/runtime/runtime.go:49-128 | after any run the status shows for mode, halt reason and time, block, link, integrity, licence, drift, degradation, banner and last update what the last event that concerns each of them said, with blocks above 500 and unblocks below 200 milliseconds |
| RuntimeHistory.EntryAllowedExactlyWhen | internal/service/tradinggate/gate.go:65-104 | so the gate lets an entry pass exactly under conditions on those last events |
| RuntimeHistory.AcceptedAreWrittenOrWait | internal/runtime/runtime.go:49-70 | in every interleaving each transition that the machine accepted has been written to the status once or still waits to be |
| RuntimeHistory.RestartsAreTakenOverOrWait | internal/runtime/restore.go:60-63 | and the mode of each restart has been taken over by the machine once or is still to be |
| Runtime.StateMachine.Transition | internal/runtime/statemachine.go:66-96 | accepted or refused, and the new mode |
| Runtime.StateMachine.Restore | internal/runtime/statemachine.go:54-63 | the mode is set without a check |
| Runtime.Manager.Transition | internal/runtime/runtime.go:49-70 | machine and status after a transition |
| Runtime.Manager.SetConnectivity | internal/runtime/runtime.go:83-88 | only the link changes |
| Runtime.Manager.SetLicense | internal/runtime/runtime.go:91-99 | the licence, and a banner for risk-only |
| Runtime.Manager.UpdateNTPDrift | internal/runtime/runtime.go:102-112 | blocks above 500 ms, unblocks below 200 ms, keeps between |
| Runtime.Manager.SetIntegrity | internal/runtime/runtime.go:115-120 | only the integrity changes |
| Runtime.Manager.EnableAnalyticsDegrade | internal/runtime/runtime.go:123-128 | only the flag changes |
| Runtime.Manager.RestoreSafetySnapshot | internal/runtime/restore.go:11-64 | status and machine after a restart, branch by branch |
| Runtime.Manager.Rescue | internal/runtime/restore.go:16-44 | the branches on the snapshot's mode |
| Reconciliation.UpdatesCountChangedRows | internal/service/reconciliation/reconciliation.go:60-169 | OrdersUpdated is the number of rows changed |
| Reconciliation.RetryConverges | internal/service/reconciliation/reconciliation.go:60-169 | failed writes are made up for by the next pass |
| Reconciliation.SecondPassWritesNothing | internal/service/reconciliation/reconciliation.go:60-169 | a second pass writes nothing |
| Reconciliation.ByExchangeIdIs | internal/service/reconciliation/reconciliation.go:83-87 | the map knows exactly the exchange ids that are listed, each with the last order listed under it |
| Reconciliation.PassFollows | internal/service/reconciliation/reconciliation.go:60-142 | from the listing alone: a writable active row with an exchange id takes over status, fills and, along with a change, fill time of the last order listed under it, or is cancelled if there is none; every other row stays |
| Reconciliation.ReportTells | internal/service/reconciliation/reconciliation.go:100-150 | from the listing alone: the zombies are the written rows whose exchange id is not listed, the partial fills those listed, or kept, as partially filled |
| Reconciliation.BySymbolIs | internal/service/reconciliation/reconciliation.go:195-199 | the map knows exactly the listed symbols, each with the last position listed under it |
| Reconciliation.PositionPassFollows | internal/service/reconciliation/reconciliation.go:201-257 | from the listing alone: an open row whose symbol is not held is closed, any other takes over quantity and price and, along with either, the unrealized profit |
| Reconciliation.PassesAgreeExactlyWhen | internal/service/agent/order_service.go:266-298 | whole passes of the bulk and the per-order form leave the same statuses and fills exactly when every active order with an exchange id is still open at the exchange or was cancelled there with the fills known locally |
| Reconciliation.FormsAgreeExactlyWhen | internal/service/agent/order_service.go:266-298 | the same for one order; the time of the fill is not compared, for only the bulk form copies it |
| Reconciliation.FormsEqualExactlyWhen | internal/service/reconciliation/reconciliation.go:136-138 | the very same row, exactly when besides the bulk form does not move the time of the fill |
| Reconciliation.PositionRetryConverges | internal/service/reconciliation/reconciliation.go:172-268 | positions converge in one pass without failures |
| Reconciliation.SideDiffersExactlyWhen | internal/service/reconciliation/reconciliation.go:203-255 | however many passes find a symbol held at the exchange, with whatever failures, the local side differs from the exchange's afterwards exactly when it did at first, while quantity and price of an open row that could be written agree |
| Reconciliation.Reconciler.ReconcileOrders | internal/service/reconciliation/reconciliation.go:60-169 | rows and report after a pass, with any set of failing writes |
| Reconciliation.Reconciler.ReconcileOne | internal/service/reconciliation/reconciliation.go:85-147 | one local order: skipped, cancelled, updated, or its write failed |
| Reconciliation.Reconciler.Index | internal/service/reconciliation/reconciliation.go:79-82 | the map by exchange id, the last order of an id counting |
| Reconciliation.Reconciler.FindPartials | internal/service/reconciliation/reconciliation.go:150-154 | the partially filled copies, written or not |
| Reconciliation.Reconciler.ReconcileByQuery | internal/service/agent/order_service.go:266-298 | rows after the query form; the first failed write ends it |
| Reconciliation.ReconcilePosition | internal/service/reconciliation/reconciliation.go:196-246 | one position row, and whether it changed |
| Reconciliation.ReconcilePositions | internal/service/reconciliation/reconciliation.go:172-268 | rows and the number changed, or neither when a listing failed |
| Reconciliation.ReconcileEach | internal/service/reconciliation/reconciliation.go:202-255 | the loop over the local positions |
| Reconciliation.IndexPositions | internal/service/reconciliation/reconciliation.go:196-199 | the map by symbol, the last position of a symbol counting |
| OrderService.FinalRowChangesExactlyWhen | internal/service/agent/order_service.go:184-298 | with calls overlapping in any way, a filled, cancelled or rejected row can change in some future exactly when a call under way holds a copy it can write over it |
| OrderService.TerminalForGood | internal/service/agent/order_service.go:184-298 | if calls on an order have not overlapped until its row became filled, cancelled or rejected, the row never changes again, whatever overlaps and is answered from then on |
| OrderService.PlaceableExactlyWhen | internal/service/agent/order_service.go:184-298 | from any state, with calls overlapping in any way, the venue can come to accept an order once more exactly when its row is pending or a call under way will submit it or write a pending copy; if answers to queries may call an order pending, also when the row or such a copy is active under an exchange id, or a query is under way |
| OrderService.PlaceableAgainOnlyUnrecorded | internal/service/agent/order_service.go:184-298 | after any run in which no query answers pending, that is so exactly when the row is pending or a submission waits for the venue; with no acceptance still to be recorded, each acceptance but those of overlapping submissions went unrecorded |
| OrderService.PlacementsBounded | internal/service/agent/order_service.go:184-298 | in every run, with any overlaps and answers, the venue accepts an order at most once more than the number of times that its row could not be written after an acceptance, that a submission of it began beside another, and that a pending copy was written back |
| OrderService.PlacementsConserved | internal/service/agent/order_service.go:184-223 | in every run each acceptance has been recorded, went unrecorded, or is still to be written |
| OrderAnswers.RowIsLastAnswer | internal/service/agent/order_service.go:184-298 | after any run, with any overlaps, each row is what the call whose write came last had read when it began, changed as the venue answered: Rejected, Submitted under the id given, Canceled, or as described; a row nobody wrote is as it was |
| OrderAnswers.SubmittedOnlyByTheVenue | internal/service/agent/order_service.go:197-215 | a row becomes submitted through a submission only under an id that the venue gave for that order |
| OrderAnswers.AnswerIsStored | internal/service/agent/order_service.go:184-298 | an undisturbed call whose write succeeds leaves its row so answered, or as it was if the venue refused a cancel or did not answer a query, and no other row changed |
| OrderService.PlacedOncePerRecord | internal/service/agent/order_service.go:184-223 | so while calls on the order do not overlap and no query answers pending, at most once more than it went unrecorded |
| OrderService.OverlapPlacesTwice | internal/service/agent/order_service.go:184-223 | a concrete run: two submissions side by side, both accepted, with nothing unrecorded |
| OrderService.FailedRecordPlacesTwice | internal/service/agent/order_service.go:217-219 | one failed write after an acceptance and the order can be placed again: a concrete run |
| OrderService.OverlapLosesFill | internal/service/agent/order_service.go:226-253 | a cancel overlapping a query turns a filled row into a cancelled one: a concrete run |
| OrderService.PendingAnswerReopens | internal/service/agent/order_service.go:283-292 | a venue that reports pending makes the row submittable again |
| OrderService.Service.SubmitOrder | internal/service/agent/order_service.go:184-223 | an undisturbed submission: reply, row and placement in every branch |
| OrderService.Service.CancelOrder | internal/service/agent/order_service.go:226-253 | an undisturbed cancellation: reply and row in every branch |
| Backtest.ThroughBooks | internal/service/backtest/engine.go:152-216 | after every candle: balance + open cost = initial + profit of trades - commission rate times notional bought |
| Backtest.FinalEquity | internal/service/backtest/engine.go:327-411 | with all closed, final equity = initial + total profit - total loss - entry commissions, and the last equity point is the balance |
| Backtest.ProfitLessLoss | internal/service/backtest/engine.go:360-411 | total profit - total loss = sum of trade profits |
| Backtest.EquityPointsTellTheBooks | internal/service/backtest/engine.go:344-358 | each point of the equity curve tells the same books |
| Backtest.SolventExactlyWhen | internal/service/backtest/engine.go:241-325 | no run of non-negative prices and quantities overdraws a fresh engine exactly when (1 - slippage) times (1 - commission rate) is not negative |
| Backtest.NeverOverdrawn | internal/service/backtest/engine.go:241-325 | under that condition, from any solvent state |
| Backtest.BuyThenSellOverdraws | internal/service/backtest/engine.go:281-325 | otherwise two candles overdraw any initial balance |
| Backtest.NeverOverdrawnByClosing | internal/service/backtest/engine.go:327-333 | nor does closing everything, under that condition |
| Backtest.TradesTellTheCandles | internal/service/backtest/engine.go:241-342 | after any run a symbol is held exactly when a candle bought it - not held, affordable - and none has sold it since, at that close with slippage on top; each trade was so bought, and sold at a close with slippage taken off, its profit less the exit commission |
| Backtest.CurveTellsTheCandles | internal/service/backtest/engine.go:152-217 | after any run the equity curve holds, in order, cash plus the cost of what is open after each hundredth candle, from the first on, that bought, sold what was held, or asked for neither |
| Backtest.WinsAreCounted | internal/service/backtest/engine.go:375-383 | the winning trades are those with a profit above zero |
| Backtest.Engine.OpenPosition | internal/service/backtest/engine.go:241-279 | opened or refused, and the new state |
| Backtest.Engine.ClosePosition | internal/service/backtest/engine.go:281-325 | closed or refused, and the new state |
| Backtest.Engine.ExecuteSignal | internal/service/backtest/engine.go:230-239 | dispatch by action |
| Backtest.Engine.CloseAllPositions | internal/service/backtest/engine.go:327-333 | nothing stays open, closed one by one in some order |
| Backtest.Engine.RecordEquity | internal/service/backtest/engine.go:344-358 | one more equity point |
| Backtest.Engine.AddPositions | internal/service/backtest/engine.go:346-350 | the loop adds up the cost of all open positions |
| Backtest.Engine.CalculateResult | internal/service/backtest/engine.go:360-411 | the summary's sums, counts, win rate and profit factor |
| Backtest.Engine.Run | internal/service/backtest/engine.go:152-216 | interrupted, crashed or done, with the state of each |
| Backtest.Engine.Reset | internal/service/backtest/engine.go:219-228 | a fresh engine |
| AnalyticsQueue.Conservation | internal/providers/storage/dualstream.go:150-222 | in every reachable state of either writer: calls = dropped + written + failed + being written + queued, in the order of acceptance, and what the writes counter holds |
| AnalyticsQueue.GuardedCloseLosesNothing | internal/providers/storage/dualstream.go:225-257 | when the guarded Close has returned, everything accepted was written or failed, and in every future the queue stays empty and nothing is accepted |
| AnalyticsQueue.UnguardedCloseLosesLaterCalls | internal/storage/dual/writer.go:206-235 | the unguarded Close returns on an empty queue; what is queued later is never written, and there is some exactly when anything is called at all and the queue has room for one item |
| AnalyticsQueue.CallsDoNotDisturb | internal/providers/storage/dualstream.go:150-201 | once the guarded writer is flagged, a call amid a stretch of steps might as well come after it |
| AnalyticsQueue.CallAfterClose | internal/storage/dual/writer.go:161-178 | one call after Close: kept and lost by the one writer, dropped and counted by the other |
| AnalyticsQueue.QueueTellsTheCalls | internal/providers/storage/dualstream.go:150-222 | what was accepted are the calls that found room - and with the guard no Close before them - in order, and each write is recorded with its own answer |
| AnalyticsQueue.Writer.WriteAnalytics | internal/providers/storage/dualstream.go:150-174 | queued, or dropped and counted |
| AnalyticsQueue.Writer.WriteAnalyticsEvent | internal/providers/storage/dualstream.go:203-222 | one write that may fail to encode or to store |
| AnalyticsQueue.Writer.ServeOne | internal/providers/storage/dualstream.go:177-190 | one turn of the worker's select, either ready branch |
| AnalyticsQueue.Writer.DrainAnalytics | internal/providers/storage/dualstream.go:192-201 | the drain loop is a run of the worker's steps that writes the whole queue in order and ends |
| AnalyticsQueue.Writer.Close | internal/providers/storage/dualstream.go:225-236 | flag and stop signal; a second call does nothing |
| Jobs.Conservation | internal/service/jobs/manager.go:173-347 | over every run: accepted = processed + running + queued, each priority starts its jobs in order of acceptance, every queue is bounded, no send reaches a closed queue |
| Jobs.ActiveCount | internal/service/jobs/manager.go:173-280 | the exact difference between the active table and the pending jobs, and when there is none |
| Jobs.ActiveIsPendingExactlyWhen | internal/service/jobs/manager.go:205-209 | the table is exactly the queued and running jobs in every state of a run exactly when no submission is accepted under an active id |
| Jobs.ListedExactlyWhen | internal/service/jobs/manager.go:261-280 | in any reachable state the table lists the pending jobs exactly when it has as many entries |
| Jobs.AfterStop | internal/service/jobs/manager.go:232-258 | after Stop no job runs; what is not processed is in the queues, and still listed exactly when the table has as many entries, as it has without reused ids |
| Jobs.NothingAcceptedAfterStop | internal/service/jobs/manager.go:177-179 | after Stop no submission is accepted in any future |
| Jobs.ReusedIdIsForgotten | internal/service/jobs/manager.go:329 | a concrete run: the end of one job removes the entry of another with its id |
| JobHistory.QueuesByPriority | internal/service/jobs/manager.go:190-204 | after any run each queue holds, in order, the accepted jobs of one priority that nobody has taken: critical 0, live 1, background 2, analytics 3; and there are no others |
| JobHistory.AdmittedAre | internal/service/jobs/manager.go:173-220 | the accepted jobs are, in order, those of a known priority submitted before any Stop to a queue with room, under a generated id if they had none |
| JobHistory.OutcomeExactlyWhen | internal/service/jobs/manager.go:173-220 | a submission is refused for the first of: stopped, no job, unknown priority, full queue; and accepted when none holds |
| JobHistory.WorkersTellTheEvents | internal/service/jobs/manager.go:282-347 | the workers hired for a queue are idle, busy with a job of its priority, or gone; the counters are the numbers of jobs that ended, and that failed |
| JobHistory.CancelledByEvents | internal/service/jobs/manager.go:232-258 | workers are told to leave exactly once Cancel or Stop was called, and the queues are closed exactly once Stop was |
| Jobs.Manager.Submit | internal/service/jobs/manager.go:173-219 | the outcome, in the order of the checks, and the new state |
| Jobs.Manager.Receive | internal/service/jobs/manager.go:282-301 | an idle worker takes the oldest job of its queue |
| Jobs.Manager.ExecuteJob | internal/service/jobs/manager.go:303-330 | counters, table and worker after a job |
| Jobs.Manager.Stop | internal/service/jobs/manager.go:232-248 | queues closed once; a second call does nothing |
| EventBus.DeliveredInOrder | internal/engine/eventbus.go:209-289 | in every reachable state, for every subscription: delivered ++ in hand ++ buffered = sent, in order, within the buffer; guaranteed delivery drops nothing; a gone goroutine has delivered all but the late sends |
| EventBus.NoSilentLoss | internal/engine/eventbus.go:209-260 | each time a subscription was on a publisher's copy, the event was sent, dropped and counted, is still to be sent, or was given up at the end of the bus |
| EventBusStreams.SentIsPublished | internal/engine/eventbus.go:209-258 | in every reachable state what a subscription was sent is exactly the list of the events published by those whose sends met it open and with room - 1000 places if guaranteed, 10 otherwise - in the order of the sends, all of the kind it asked for |
| EventBusStreams.OffersInOrder | internal/engine/eventbus.go:231-258 | every publisher goes through its copy from the front: those offered its event, followed by those ahead of it, are the list it copied |
| EventBusLosses.NothingLost | internal/engine/eventbus.go:175-206 | if no publisher holds a copy when a subscription or the context ends, no send hits a closed channel and every gone goroutine has delivered everything sent |
| EventBusLosses.HeldCopyExactlyWhen | internal/engine/eventbus.go:175-258 | in every reachable state, for every subscription: an event for it is lost in some continuation exactly when one has been, a publisher holds it on a copy, or - it is not cancelled and no sweep has the lock - a publisher of its kind is about to copy the list or can still begin |
| EventBusLosses.CancelSafeExactlyWhen | internal/engine/eventbus.go:191-194 | cancelling a subscription loses nothing in any continuation exactly when no publisher holds it on a copy |
| EventBusLosses.HeldCopyLoses | internal/engine/eventbus.go:231-258 | wherever on the copy it stands: what is ahead is closed, advances, makes room or can be closed |
| EventBusLosses.NoCopyNoLoss | internal/engine/eventbus.go:231-258 | on no copy, it stays on none and is never sent anything again |
| EventBusLosses.LateSend | internal/engine/eventbus.go:231-258 | a send to a closed or deserted channel loses the event |
| EventBus.DrainRun | internal/engine/eventbus.go:274-286 | draining delivers the whole buffer in order and exits |
| EventBus.Bus.Subscribe | internal/engine/eventbus.go:124-172 | a registered subscription with its id, or 0 once closed |
| EventBus.Bus.Unsubscribe | internal/engine/eventbus.go:175-206 | cancelled, closed and unregistered; any unknown id is ignored, 0 and 1 included; no empty map stays |
| EventBus.Bus.CopyList | internal/engine/eventbus.go:218-235 | the copy is exactly the registered subscriptions of the kind, each once |
| EventBus.Bus.SendTo | internal/engine/eventbus.go:237-258 | one send: delivered to the buffer, dropped, waiting, or a crash |
| EventBus.Bus.DrainRemaining | internal/engine/eventbus.go:274-286 | the drain loop |
| EventBus.Bus.Shutdown | internal/engine/eventbus.go:307-329 | every channel closed once, the map emptied, the context ended: the run of the flag, the sweep over the subscriptions of each kind, and the end of the context |
| EventBus.Bus.Enumerate | internal/engine/eventbus.go:231-234 | ranging over a map gives each key once |
| Vault.Refinement | internal/vault/vault.go:108-376 | over every sequence of operations, with failures anywhere, the vault answers as a plain map under a password does |
| Vault.ReencryptionKeepsView | internal/vault/vault.go:318-354 | the new table holds the same plaintexts under the new key, exactly when no answer on the way was bad |
| Vault.ChangeSucceedsExactlyWhen | internal/vault/vault.go:278-376 | when a change of password succeeds; otherwise table, salt, hash and master key are unchanged |
| Vault.ChangePasswordKeepsSecrets | internal/vault/vault.go:278-376 | every secret stays readable, and after a lock exactly the passwords deriving the new key unlock |
| Vault.Vault.Initialize | internal/vault/vault.go:59-104 | an empty vault, or an error that keeps an existing salt |
| Vault.Vault.Unlock | internal/vault/vault.go:108-145 | the reply in every branch and the new state |
| Vault.Vault.Lock | internal/vault/vault.go:148-157 | the key is gone |
| Vault.Vault.Set | internal/vault/vault.go:165-193 | the reply and the table |
| Vault.Vault.Get | internal/vault/vault.go:196-217 | the reply |
| Vault.Vault.Delete | internal/vault/vault.go:220-240 | the reply and the table |
| Vault.Vault.ChangePassword | internal/vault/vault.go:278-376 | both loops against their specification, with every early return |
| Attestation.IndexOf | internal/integrity/integrity.go:41-55 | the first match, or -1 when there is none |
| Attestation.ExcludingAttestationBlock | internal/integrity/integrity.go:16-25 | the text changes exactly when it has a block, and then the block alone is cut out |
| Attestation.BlockTrimmed | internal/integrity/integrity.go:16-25 | text ++ BEGIN ++ payload ++ END ++ more is hashed as text ++ more |
| Attestation.PayloadDoesNotMatter | internal/integrity/integrity.go:16-25 | binaries that differ only inside the block are hashed alike |
| Attestation.CutIsBlock | internal/integrity/integrity.go:19-24 | whatever is cut out is a block, first of its kind |
| Attestation.TrimmedExactlyWhen | internal/integrity/integrity.go:19 | cut exactly when the first end marker is after the first begin marker |
| Attestation.StrayEndKeepsBlock | internal/integrity/integrity.go:18-19 | a stray end marker before the block is the only thing that keeps it in |
| Attestation.NoStraddle | internal/integrity/integrity.go:11-12 | no match of a marker straddles the start of another |
| Indicators.SimpleMovingAverage | internal/strategy/sdk/sdk.go:104-115 | the loop computes the mean of the last prices; short lists and a period of zero |
| Indicators.AverageWithin | internal/strategy/sdk/sdk.go:104-115 | between the least and the greatest price it uses |
| Indicators.AverageRescales | internal/strategy/sdk/sdk.go:104-115 | commutes with rescaling |
| Indicators.AverageSlides | internal/strategy/sdk/sdk.go:104-115 | a new price moves the average by its distance from the price that drops out of the window, over the period |
| Indicators.ExponentialMovingAverage | internal/strategy/sdk/sdk.go:118-131 | the loop against its recursive form |
| Indicators.EmaWithinExactlyWhen | internal/strategy/sdk/sdk.go:118-131 | within the range of the prices, for all lists, exactly for periods from one up |
| Indicators.EmaRescales | internal/strategy/sdk/sdk.go:118-131 | commutes with rescaling |
| Indicators.EmaMoves | internal/strategy/sdk/sdk.go:118-131 | a new price moves the exponential average 2/(period + 1) of the way towards it |
| Indicators.RSI | internal/strategy/sdk/sdk.go:134-162 | the loop against sums of rises and falls; a zero or negative period |
| Indicators.IndexRange | internal/strategy/sdk/sdk.go:134-162 | always between 0 and 100 |
| Indicators.IndexIsShare | internal/strategy/sdk/sdk.go:134-168 | the index is the share of the upward way in the whole way over the last period changes, and 100 if prices did not move |
| Indicators.RisesAndFalls | internal/strategy/sdk/sdk.go:140-154 | rises less falls is where prices have come to, rises and falls together the way they went |
| Indicators.StrengthIsShare | internal/strategy/sdk/sdk.go:151-161 | the index is the share of the gains |
| Indicators.MirrorImage | internal/strategy/sdk/sdk.go:134-162 | the indices of a list and its negation make 100 exactly when it is not flat; flat, both are 100 |
| Indicators.BollingerBands | internal/strategy/sdk/sdk.go:200-224 | the loop against the mean and the mean square; short lists, and periods of zero and below |
| Indicators.BandsInOrder | internal/strategy/sdk/sdk.go:200-224 | in order exactly when the multiplier is not negative or the prices are all equal |
| Indicators.WidthScalesBySquare | internal/strategy/sdk/sdk.go:215-217 | the width scales with the square of the unit: what is called a deviation is a variance |
| Indicators.DeviationIsVariance | internal/strategy/sdk/sdk.go:200-225 | the deviation is the mean of the squares less the square of the mean |
| Allocator.AdvanceRounds | internal/strategy/wasm/strategy.go:52-58 | the offset is rounded up to 8, with 32-bit wrap-around written out |
| Allocator.NoWrapExactlyWhen | internal/strategy/wasm/strategy.go:44-61 | offsets are the plain sums of the rounded sizes exactly while that sum is below 2 to the 32 |
| Allocator.SafeCount | internal/strategy/wasm/strategy.go:39 | 4095 blocks of any allowed size always fit |
| Allocator.WrapRestartsLow | internal/strategy/wasm/strategy.go:53 | the block that reaches the end throws the next offset to the bottom |
| Allocator.BlocksDisjoint | internal/strategy/wasm/strategy.go:44-61 | below the bound blocks are aligned, at or above 65536, in order and disjoint |
| Allocator.GrownLeast | internal/strategy/wasm/strategy.go:325-335 | memory grows by the fewest pages that hold the block |
| Allocator.WriteEffect | internal/strategy/wasm/strategy.go:318-344 | a successful write puts the bytes where it says and changes no other; a failed one changes none |
| Allocator.WriteSucceedsExactlyWhen | internal/strategy/wasm/strategy.go:318-344 | a write succeeds exactly with at most 1048576 bytes and room for them: the block ends in the memory there is, or the host grants the pages; the 32-bit arithmetic at the very top is part of the condition |
| Allocator.NewPagesAreZero | internal/strategy/wasm/strategy.go:325-335 | the pages a write adds are zero outside its block |
| Allocator.EverythingReadable | internal/strategy/wasm/strategy.go:318-344 | of any mixture of successful and failed writes since a reset, below the bound, every successful one can be read back where it was put |
| Allocator.MemoryAllocator.Allocate | internal/strategy/wasm/strategy.go:44-61 | refused, or the old offset, and the next one |
| Allocator.MemoryAllocator.Reset | internal/strategy/wasm/strategy.go:64-68 | back to 65536 |
| Allocator.WasmStrategy.WriteToMemory | internal/strategy/wasm/strategy.go:318-344 | the outcome and the machine after it, for every size and whether or not the host grants room |

## Left out

- Rounding of the decimal library's division: it is taken as exact, in `Entities.Quotient`
  (`internal/service/paper/simulator.go:284`), in the backtest's slippage and return, and in the indicators.
- The breaker's 64-bit generation counter is unbounded, and clock arithmetic does not overflow.
- CircuitBreakers.CircuitBreaker.Execute: the state-change callback is not modelled.
- The paper simulator's order and position look-ups, position ids and timestamps.
- Risk.ValidatedQuantityBounded: one direction, about the last state; both, about every state, are in `Risk.WithinLimitsExactlyWhen`.
- `UpdateUnrealizedPnL` and `TotalPnL` of `internal/domain/entity/position.go:47-62`: the simulator uses its own form, which is modelled.
- The risk engine's published violations and warnings, and the force-close predicates.
- The order router's trading gate is an input to submission, client order ids arrive as already generated, and orders reach it without an exchange id.
- The order service's creation of orders, its gate and its events; its listing for reconciliation is taken row by row.
- OrderService.TerminalForGood: assumes that calls on the order have not overlapped so far, which the code does not enforce; `OrderService.FinalRowChangesExactlyWhen` assumes nothing of the kind.
- OrderService.PlacedOncePerRecord: assumes that calls on the order do not overlap and that no query answers pending; `OrderService.PlacementsBounded` assumes neither.
- Journal.Log.Append: marshal, write and sync errors are not modelled, because what they leave of a line depends on the file system.
- Journal.Log.RotateIfNeeded: stat, close, rename and reopen errors are not modelled.
- Journal.Log.Replay: errors of listing and opening files are not modelled; a line that is too long is.
- Journal.Log.TruncateAfterReconciliation: removal errors are not modelled.
- fsync and a crash in the middle of a write; JSON is an opaque line that parses or not. The longest line is the scanner's default limit, which the source does not state. Glob metacharacters in the path are not modelled.
- Journal.ReadOrder: rotations in seconds whose numerals have one length, as they have from 2001 to 2286; other orders of names are not described.
- Journal.LatestWinsExactlyWhen: the same, and only for files the scanner can read.
- Journal.RotationLosesExactlyWhen: the same numerals.
- Journal.LatestWinsWithoutCollision: the same numerals and files, for rotations in distinct seconds; `Journal.LatestWinsExactlyWhen` covers the others.
- Runtime listeners, memory limits, the NTP worker, the live disclaimer and policies other than the default gate policy.
- Runtime.Manager.RestoreSafetySnapshot: the status write and the machine's restore are one step in it; they are two in the model of overlaps (`Runtime.ModesAre`).
- Runtime.InOrderWritesAgree: a sufficient order of writes between restarts; the exact condition is `Runtime.AgreeExactlyWhen`.
- Reconciled rows are values: repositories that hand out shared pointers are not modelled; publishing and timings are left out.
- The backtest's drawdown fields and the strategy calls other than their signal.
- The analytics writers' critical stream and their databases. The other writer's counter moves in the same step as its channel send; in the code another section may run between the two.
- AnalyticsQueue.Writer.DrainAnalytics: the loop runs undisturbed; calls in between change nothing for the guarded writer (`AnalyticsQueue.CallsDoNotDisturb`), and for the other one are runs of the step machine.
- AnalyticsQueue.Writer.Close: the wait for the worker and the closing of the databases are not part of it; the worker's exit is a step of the run.
- Router.OutstandingBounded: an upper bound; when it is reached is `Router.TwiceOutExactlyWhen`.
- Router.AtMostOneOutstanding: one direction; both are in `Router.TwiceOutExactlyWhen`.
- Router.ResendNeedsRelease: one direction; both are in `Router.ResentExactlyWhen`.
- Channels of capacity zero, which hand over directly, in the job manager and in the analytics writer.
- Job functions, durations and timestamps; starting workers is a step of the run and not a method.
- Event handlers' effects, panics (recovered, and counted as handled) and logging; the wait at the end of Shutdown is the state in which every goroutine has exited.
- EventBusLosses.NothingLost: a sufficient condition on a whole run; the exact ones, state by state, are `EventBusLosses.HeldCopyExactlyWhen` and `EventBusLosses.CancelSafeExactlyWhen`.
- EventBus.Bus.Shutdown: the wait for the goroutines is not part of it; that they exit is a step of the run.
- EventBus.Bus.DrainRemaining: the loop runs undisturbed; interleaved drains are runs of the step machine.
- The vault's cipher, key derivation and base64 text: decryption inverts encryption under every nonce, and the stored hash and the key come from the same derivation. A commit that takes effect and still reports an error is not modelled.
- Vault.Vault.Initialize: the schema's creation and a failing random source are not modelled.
- Vault.Refinement: starts from an initialised vault whose rows all decrypt under its key.
- The digest and the file reading around the attestation block.
- The composition of averages in the MACD, which adds nothing to its parts.
- Allocator.EverythingReadable: between two resets; the guest's own writes into memory are not modelled, and the memory's reported size is its length as a 32-bit number.
- The strategy executor's table, parameter validation and calls into the guest.
- Command line, terminal interface, exchange adapters, cloud client, licensing tables, configuration and backups.
- Liveness and fairness: apart from the stuck breaker, only safety is stated.
