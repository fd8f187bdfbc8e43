# Verification of the options trading platform's safety core

The platform's stated bar is that a crash at any moment leaves no duplicate or
forgotten orders (`README.md:9-11`). This project models the parts that carry
that bar and proves, for all inputs and all runs, what they keep:

- **Placing orders** (`Placement`). A leg's entry and closing orders as the steps
  around each broker call, with crashes, lost acknowledgements and late requests.
- **Recovery against broker truth** (`Recovery`, `RecoveryConfluence`,
  `RecoveryRuns`, `CrashRestart`, `ScanOrder`, `RepeatPass`, `TwoPasses`,
  `RecoverySafety`, `RecoveryAborts`, `RecoveryAlarms`, `RecoveryRows`,
  `RecoveryPositions`, `RecoveryBreaks`, `RecoveryExamples`, `RecoveryEngine`). The database is finite maps plus an
  append-only list of breaks, the broker an immutable snapshot, and each unit of
  work one atomic step. `RecoveryEngine.Engine` is the engine as an object that
  changes its tables in place; `Recovery` says the same on values; the other
  modules prove the value account.
- **Order rows under two writers** (`OrderUpdates`, `OrderTable`). One shared
  decision, applied to lossy, repeated and reordered deliveries, and to racing
  transactions under optimistic versions.
- **The simulated exchange** (`Ledger`, `Exchange`, `SimulationBroker`). The
  position arithmetic as a pure fold, the book of orders on values, and the
  broker object. `Exchange.PlatformAgrees` joins this cluster to the previous one.
- **Bounded and scheduled resources** (`TickQueue`, `TickWriter`, `RateLimiter`,
  `Scheduler`, `PlatformScheduler`, `Subscriptions`, `AtmWindow`, `Collector`).
  Every lock-protected section is one step; runs interleave the steps freely.
- **Calendar and loss limit** (`Calendar`, `RiskLatch`).

`Broker` holds the shared vocabulary and `Confluence` the one general fact the
recovery proofs rest on: folding commuting, idempotent steps over a list gives
the same result for every list with the same work in it.

`dafny verify dfyconfig.toml` checks everything.

## What the proofs found

The model follows the code. Where the code does less than its documentation says,
the exact condition under which it does meet it is proved, and a run or a database
on which it does not is given.

1. Idempotence of a recovery pass (docstring, `src/algo/services/reconciliation_engine.py:28-31`).
   A second pass repairs nothing more if and only if no entry was finalized over a
   leg that is flat at the broker (`RepeatPass.SecondPassIdleIff`,
   `RecoveryExamples.SecondPassRepairsMore`); a third pass never does, and crashes
   followed by two passes always leave what two undisturbed passes leave
   (`TwoPasses.CrashesThenTwoPasses`). Breaks are repeated in exactly four
   situations (`RepeatPass.RepeatBreaksExactly`).
2. A unit of recovery work is refused in exactly two situations
   (`CrashRestart.RefusedIff`): the fill exceeds its order row's quantity, or comes at
   a negative price, so that the row's or the leg's CHECK constraint fails before the
   break is committed (`RecoveryExamples.OverfillRefused`); or no row has the broker order's id and
   several have its tag, as after two closes rejected before acknowledgement and a
   third whose acknowledgement was lost (`RecoveryExamples.LostAcknowledgementBlocks`;
   `orders.broker_tag` is not unique, `src/algo/database/models/order.py:56-69`).
   A refusal ends that pass and every later pass over the same snapshot
   (`CrashRestart.RefusalBlocksEveryPass`, `CrashRestart.AmbiguousTagBlocksEveryPass`).
3. A cancelled order's own fill is not recorded by an order update: the row ends
   with the broker's fill exactly when a live snapshot or the row already had it
   (`OrderUpdates.CancelledFillKeptIff`, `OrderUpdates.CancelledFillDropped`). A
   COMPLETE snapshot with a smaller fill is the only update that lowers one
   (`OrderUpdates.LowersFillIff`, `OrderUpdates.CompleteLowersFill`).
4. A terminal update of a live row survives its version race exactly when nobody
   else wrote the row since it was loaded, or what they wrote ended it
   (`OrderUpdates.TerminalUpdateSurvivesIff`); otherwise it is reported as a conflict
   and dropped, and has to be brought again (`OrderUpdates.TerminalUpdateCanLose`).
5. The docstring of the loss limit (`src/algo/risk/risk_core.py:379-384`) promises
   that the day ends at the first crossing. A crossing latches the day exactly when,
   at the commit that finishes its persist, the row is as the persist last saw it, or
   is already latched (`RiskLatch.FinishLatchesIff`). For an existing row that means
   nobody else wrote it between load and commit (`RiskLatch.CrossingLatchesIff`);
   otherwise a later check at a recovered profit passes
   (`RiskLatch.LostRaceForgetsTheBreach`). Somebody else creating the row does no harm
   by itself: the persist starts over on that row, and only a second write between the
   restart and the commit loses the latch (`RiskLatch.RestartLatchesIff`,
   `RiskLatch.ForestalledCrossingLatches`).
6. A due trigger is marked fired before it is dispatched. It is delivered that day
   exactly when every event between the tick and its own dispatch, of other triggers,
   of the market or of an operator, leaves the runner running
   (`Scheduler.DeliveredIffStillRunning`, `Scheduler.MarketFailureDrops`).
7. After a reconnect every wanted instrument is subscribed. The socket holds nothing
   more exactly when every instrument a connect handler revived after it was
   unsubscribed has since been subscribed again or the socket dropped
   (`Subscriptions.ExactIffNothingRevived`, `Subscriptions.StaleResubscribeLingers`).
8. A collector session opened without the last one having closed keeps stale
   tokens exactly when any were subscribed, and an upsert that fails with new tokens
   leaves them unsubscribed however often they are listed again, until the window has
   dropped them and lists them anew (`AtmWindow.JumpKeepsAgreementIff`,
   `AtmWindow.StaleTokenAfterJump`, `AtmWindow.UpsertFailureBreaks`,
   `AtmWindow.ListedAnewIff`, `AtmWindow.TokenNeverSubscribed`).
9. A leg is never entered twice (`Placement.OneEntryOrder`). It is never closed twice
   as long as no look-up of its exit tag comes back empty while an earlier request is
   still on its way to the broker (`Placement.OneExitOrder`); from such a look-up a
   second order is possible if and only if one is (`Placement.DuplicateIffUnderWay`,
   `Placement.LateRequestClosesTwice`). Over a whole run the exit is sent twice exactly
   when the attempt that follows such a look-up sends it (`Placement.DoubledIff`), and
   never when no request is late (`Placement.OneExitOrderUnlessLate`).
10. A pass aborts a pending entry as never filled exactly when no in-doubt intent of its
   legs has several orders and no leg ends up open (`RecoveryAborts.AbortsIff`). The only
   finished fill it overlooks is an entry whose leg a filled exit, scanned after it,
   has closed again (`RecoveryAborts.AbortOverlooksOnlyUnwound`): an entry and its
   unwinding order, both filled and both in doubt, are closed as "no leg filled" when
   the unwinding is scanned second, and not when it is scanned first
   (`RecoveryAborts.AbortedOverUnwindIff`, `RecoveryExamples.AbortedOverFilledEntry`).
11. Over a database whose in-doubt intents can all be recorded, the order in which the
   queries return their rows matters exactly when two in-doubt fills of one leg clash:
   an entry and an exit while the leg is pending, or two of one purpose at different
   prices (`ScanOrder.OrderIrrelevantIff`).
12. The exchange and the platform agree on an ended order, however its quantity was
   changed, exactly when it did not complete at more than the platform row's quantity
   (`Exchange.PlatformAgreesIff`).

The recovery theorems suppose the following of the database they start from.

- Intent tags are unique and broker order ids are unique: the schema's constraints.
  Any number of order rows may carry one tag.
- An order row with the id of a tagged broker order carries that order's tag
  (`RecoveryConfluence.Attributable`). The placement code stamps both from the same
  date, so this holds unless a single entry or exit call runs past midnight.
- Where one outcome whatever the scan order is claimed, no two in-doubt fills of a leg
  clash (`RecoveryConfluence.Sane`), which is exactly what it takes
  (`ScanOrder.OrderIrrelevantIff`). An entry whose unwinding order also filled before
  a crash breaks this (`RecoveryExamples.UnwindOrderMatters`).
- `RecoverySafety.AbortIsSafe` alone supposes that no in-doubt exit of the leg is filled;
  `RecoveryAborts` says what happens when one is.
- Where a repair is said to be the same after a crash, every in-doubt intent can be
  recorded (`CrashRestart.Recordable`): a pass completes exactly when that holds.

## Model

| member | source | states |
|---|---|---|
| `Placement.OneEntryOrder` | src/algo/strategy_engine/strategies/strategy_1/entry_logic.py:195-249 | over any crashes and re-entries a leg's entry tag never has two orders, late requests included |
| `Placement.EnteredIff` | src/algo/strategy_engine/strategies/strategy_1/entry_logic.py:195-249 | over any run the entry order goes out once if a place call of it sends it, and otherwise never |
| `Placement.EntryGetsThere` | src/algo/strategy_engine/strategies/strategy_1/entry_logic.py:195-249 | the first entry of a leg puts one order at the broker, late or not |
| `Placement.EntryCrashLosesTheOrder` | src/algo/strategy_engine/strategies/strategy_1/entry_logic.py:195-249 | a crash before the place call leaves the leg entered with nothing sent, and a re-entry stands down |
| `Placement.OneExitOrder` | src/algo/strategy_engine/strategies/strategy_1/exit_logic.py:448-557 | over any crashes, lost acknowledgements, retries and resumes a leg's exit tag never has two orders, unless a look-up came back empty while a request was under way |
| `Placement.DuplicateIffUnderWay` | src/algo/strategy_engine/strategies/strategy_1/exit_logic.py:473-503 | after an empty look-up a second closing order is possible if and only if an earlier request is still under way |
| `Placement.LateRequestClosesTwice` | src/algo/strategy_engine/strategies/strategy_1/exit_logic.py:505-557 | a timed-out close that reaches the broker after the resumed look-up closes the leg twice |
| `Placement.DoubledIff` | src/algo/strategy_engine/strategies/strategy_1/exit_logic.py:448-557 | over any run a leg's exit reaches the broker twice exactly when a look-up comes back empty over a request still under way and its own attempt sends the order |
| `Placement.OneExitOrderUnlessLate` | src/algo/strategy_engine/strategies/strategy_1/exit_logic.py:448-557 | a run without late requests, started with none under way, never has two closing orders |
| `Placement.SettledIsOver` | src/algo/strategy_engine/strategies/strategy_1/exit_logic.py:448-557 | once a leg is settled as closed nothing more is sent for it, whatever follows |
| `Placement.OverIff` | src/algo/strategy_engine/strategies/strategy_1/exit_logic.py:448-557 | only settling as closed ends the closing of a leg; any other settling and every crash leaves it to be closed again |
| `Confluence.SameWork` | src/algo/services/reconciliation_engine.py:257-266 | the general step behind order independence: two lists with the same pending work fold to the same state |
| `RecoveryConfluence.IntentKeepsSane` | src/algo/services/reconciliation_engine.py:268-401 | one intent's unit of work preserves unique intent tags and order ids, attributable rows, and that no two fills of a leg clash |
| `RecoveryConfluence.RowKeyIsOwn` | src/algo/services/reconciliation_engine.py:322-342 | the row located is the one with the order's id, else one with its tag, else a new one; never a row of another tag |
| `RecoveryConfluence.IntentIgnoresOthers` | src/algo/services/reconciliation_engine.py:268-312 | resolving one intent never changes another intent, whether it is refused, or what it will write |
| `RecoveryConfluence.OtherRowsKept` | src/algo/services/reconciliation_engine.py:314-401 | only order rows carrying the intent's own tag are written |
| `RecoveryConfluence.IntentsCommuteIff` | src/algo/services/reconciliation_engine.py:257-266 | two intents' units of work give the same database in either order exactly when their fills do not clash on a leg |
| `RecoveryConfluence.IntentIdempotent` | src/algo/services/reconciliation_engine.py:28-31 | resolving an intent again changes nothing |
| `RecoveryConfluence.TwoFillsDisagree` | src/algo/services/reconciliation_engine.py:403-428 | an entry fill and an exit fill in doubt on one pending leg leave it closed or open by their order |
| `RecoveryRuns.PositionIsLocal` | src/algo/services/reconciliation_engine.py:482-500 | a position's unit of work leaves the repair of every other position alone |
| `RecoveryRuns.TwoPositionsCommute` | src/algo/services/reconciliation_engine.py:460-480 | any two positions' units of work commute, errors that freeze a shared instance included |
| `RecoveryRuns.SettlesAfterPrefix` | src/algo/services/reconciliation_engine.py:257-266 | finishing the intents after any prefix of them settles the database the same way |
| `CrashRestart.PassIsDeterministic` | src/algo/services/reconciliation_engine.py:208-253 | when no fills clash, the repair of a pass that completes does not depend on the scan order |
| `CrashRestart.PassCompletesIff` | src/algo/services/reconciliation_engine.py:208-253 | a pass completes exactly when every in-doubt intent can be recorded, clashing fills included |
| `ScanOrder.OrderIrrelevantIff` | src/algo/services/reconciliation_engine.py:257-266 | a pass leaves the same tables whatever order its queries return their rows in exactly when no two in-doubt fills of a leg clash |
| `CrashRestart.CrashKeepsRepair` | src/algo/services/reconciliation_engine.py:257-312 | a crash between any two units of work leaves the eventual repair unchanged |
| `CrashRestart.CrashRestartFixpoint` | src/algo/services/reconciliation_engine.py:208-253 | any number of interrupted passes followed by a full one leaves the tables one undisturbed pass leaves, when no entry is finalized over a flat leg |
| `CrashRestart.RefusalBlocksEveryPass` | src/algo/services/reconciliation_engine.py:403-428 | a refused fill ends the pass and every later pass over the same snapshot |
| `CrashRestart.RefusedIff` | src/algo/services/reconciliation_engine.py:322-342 | a unit of work is refused exactly when no row has the order's id and several its tag, or its fill exceeds the quantity of the row it goes on or comes at a negative price |
| `CrashRestart.AmbiguousTagBlocksEveryPass` | src/algo/services/reconciliation_engine.py:326-328 | an unknown order id under a tag of several rows ends this pass and every later one over the same snapshot |
| `TwoPasses.PositionStops` | src/algo/services/reconciliation_engine.py:482-576 | a position moves twice at the most, whatever the broker holds |
| `TwoPasses.CrashesThenTwoPasses` | src/algo/services/reconciliation_engine.py:208-253 | any crashes followed by two finished passes leave what two undisturbed passes leave, with no assumption on the broker's holdings |
| `RecoveryExamples.SecondPassRepairsMore` | src/algo/services/reconciliation_engine.py:558-595 | a database whose entry is finalized by the first pass and errored by the second |
| `RecoveryExamples.OverfillRefused` | src/algo/database/models/order.py:59-62 | a fill of two units for an order of one ends the pass |
| `RecoveryExamples.LostAcknowledgementBlocks` | src/algo/strategy_engine/strategies/strategy_1/exit_logic.py:833-882 | two rejected rows and a lost acknowledgement end the pass with nothing changed; one rejected row would not |
| `RecoveryExamples.RejectedAttemptHarmless` | src/algo/strategy_engine/strategies/strategy_1/exit_logic.py:563-575 | a rejected row beside the acknowledged one of the same tag blocks nothing |
| `RecoveryExamples.UnwindOrderMatters` | src/algo/strategy_engine/strategies/strategy_1/entry_logic.py:658-688 | a filled entry and its filled unwinding, both in doubt, end differently by scan order |
| `RecoveryExamples.AbortedOverFilledEntry` | src/algo/services/reconciliation_engine.py:509-519 | a database whose filled entry and filled unwinding are in doubt: the pass closes the position as never filled in one scan order and not in the other |
| `RepeatPass.SecondPassIdleIff` | src/algo/services/reconciliation_engine.py:28-31 | a second pass repairs nothing more if and only if no entry was finalized over a flat leg |
| `RepeatPass.ThirdPassIdle` | src/algo/services/reconciliation_engine.py:28-31 | a third pass never repairs anything |
| `RepeatPass.RepeatBreaksExactly` | src/algo/services/reconciliation_engine.py:432-456 | exactly which breaks a repeat pass records once more: orphan tags, duplicated intents, positions waiting for a reconciler, open positions now flat |
| `RecoverySafety.NoFillIsLost` | src/algo/services/reconciliation_engine.py:257-456 | every finished tagged fill with no intent or an in-doubt one ends on an order row with that fill and a confirmed intent, or named in a break |
| `RecoverySafety.AbortIsSafe` | src/algo/services/reconciliation_engine.py:502-519 | an aborted entry had no finished order with a fill under an in-doubt entry intent of a pending leg, unless an in-doubt exit of that leg was filled too |
| `RecoverySafety.LiveFillsDoNotStopAbort` | src/algo/services/reconciliation_engine.py:392-401 | an entry whose in-doubt orders are all live is aborted whatever they have filled: that order must be finished |
| `RecoveryAborts.AbortsIff` | src/algo/services/reconciliation_engine.py:502-519 | a finished pass closes a pending entry exactly when no in-doubt intent of its legs has several orders and none of its legs is left open by the fills in scan order |
| `RecoveryAborts.AbortOverlooksOnlyUnwound` | src/algo/services/reconciliation_engine.py:502-519 | the only finished fill of an in-doubt entry that an abort overlooks is one whose leg a filled exit, scanned after a filled entry, has closed again |
| `RecoveryAborts.AbortedOverUnwindIff` | src/algo/strategy_engine/strategies/strategy_1/entry_logic.py:658-716 | with one filled entry and one filled exit in doubt on a pending leg, and no other leg open, the entry is aborted exactly when the exit is scanned second |
| `RecoveryAlarms.NoErrorIsSilent` | src/algo/services/reconciliation_engine.py:618-659 | a position any pass takes to ERROR is flagged, its instance frozen, and a break of that pass is about it or one of its legs' intents |
| `RecoveryAlarms.PositionsFitLegs` | src/algo/services/reconciliation_engine.py:502-576 | after a finished pass each position's state fits its legs and the broker's holdings, or is ERROR |
| `RecoveryAlarms.IntentsAnswered` | src/algo/services/reconciliation_engine.py:268-312 | after a finished pass every unresolved intent is failed, confirmed or still in doubt by the orders under its tag and their statuses, and every other intent is unchanged |
| `RecoveryRows.RowsAnswered` | src/algo/services/reconciliation_engine.py:314-401 | after a finished pass the row of an unresolved intent with one order at the broker (by its id, else its tag, else a new one) has that order's id if it had none, its fill and price if it ended filled, REJECTED if it ended without a fill, and while it is live no more than OPEN |
| `RecoveryRows.OtherRowsStay` | src/algo/services/reconciliation_engine.py:314-401 | a finished pass creates and changes no other order row |
| `RecoveryRows.LegsFollowFills` | src/algo/services/reconciliation_engine.py:403-428 | the only fill of an unresolved intent of a leg opens a pending entry leg or closes an open exit leg, at the price left on the order row |
| `RecoveryRows.OtherLegsStay` | src/algo/services/reconciliation_engine.py:403-428 | a leg none of whose unresolved intents is filled stays as it is |
| `RecoveryPositions.PositionsSettle` | src/algo/services/reconciliation_engine.py:482-616 | the whole of every position after a finished pass, from its state before, duplicate orders under a tag of its legs, the legs as the pass leaves them, the hook and the broker's holdings |
| `RecoveryPositions.InstancesFreeze` | src/algo/services/reconciliation_engine.py:620-659 | a pass freezes exactly the instances of positions it takes to ERROR, finished or not |
| `RecoveryBreaks.BreaksExactly` | src/algo/services/reconciliation_engine.py:282-390 | the breaks a finished pass records are exactly those for orphan tags, for intents with several orders or another fill than intended, and for positions in error or without a finalizer, each in full |
| `RecoveryBreaks.BreaksOnce` | src/algo/services/reconciliation_engine.py:432-456 | and at most one about each intent, tag and position |
| `RecoveryEngine.Engine.Reconcile` | src/algo/services/reconciliation_engine.py:208-253 | the whole pass in place is the value-level pass for some scan; without an orderbook nothing changes; the count equals the breaks recorded |
| `RecoveryEngine.Engine.ReconcileOneIntent` | src/algo/services/reconciliation_engine.py:268-312 | one intent's unit of work, with its break, or nothing when it is refused |
| `RecoveryEngine.Engine.ResolveIntentAgainstOrder` | src/algo/services/reconciliation_engine.py:314-401 | acknowledging, filling, rejecting or leaving the located row, by the order's status |
| `RecoveryEngine.Engine.LocateRow` | src/algo/services/reconciliation_engine.py:326-340 | the row by broker order id, else by tag, else a new one; two rows under a tag raise |
| `RecoveryEngine.Engine.ApplyFill` | src/algo/services/reconciliation_engine.py:403-428 | the order, the leg and the intent after a fill |
| `RecoveryEngine.Engine.DetectOrphans` | src/algo/services/reconciliation_engine.py:432-456 | one break for each broker tag that no intent carries |
| `RecoveryEngine.Engine.ReconcileOnePosition` | src/algo/services/reconciliation_engine.py:482-616 | the position's repair and its break |
| `RecoveryEngine.Engine.GroupOrdersByTag` | src/algo/services/reconciliation_engine.py:680-686 | every tagged order under its tag, in orderbook order, and nothing else |
| `OrderUpdates.DeliveryOutcome` | src/algo/services/order_update_processor.py:169-232 | a delivery that includes the terminal snapshot fixes status and fill, never lowers the fill, and nothing later changes the row |
| `OrderUpdates.DeliveriesAgree` | src/algo/services/order_update_processor.py:169-232 | two deliveries of one history that include its end leave the same status, and the same fill when COMPLETE |
| `OrderUpdates.DeliveredEndsIff` | src/algo/services/order_update_processor.py:169-232 | a terminal snapshot that arrives, among any live ones, ends the row with its status exactly when it is not a COMPLETE one of more than the row's quantity |
| `OrderUpdates.CancelledFillKeptIff` | src/algo/services/order_update_processor.py:217-219 | a cancelled or rejected order's row ends with the broker's fill exactly when a live snapshot or the row already had it |
| `OrderUpdates.CancelledFillDropped` | src/algo/services/order_update_processor.py:217-219 | a half-filled order cancelled without a live snapshot leaves its fill unrecorded |
| `OrderUpdates.LowersFillIff` | src/algo/services/order_update_processor.py:202-208 | the only update that lowers a fill is a COMPLETE snapshot below it |
| `OrderUpdates.CompleteLowersFill` | src/algo/services/order_update_processor.py:202-208 | a COMPLETE snapshot of four units lowers a row at seven |
| `OrderUpdates.AuditKept` | src/algo/database/repositories/base.py:90-99 | a commit succeeds only on the version it read, so every kept decision was made on the row as it stood in the serial order |
| `OrderUpdates.Serialisable` | src/algo/services/order_update_processor.py:104-136 | any interleaving of push and poll transactions commits what some serial order of the kept ones commits, each deciding as it did |
| `OrderUpdates.AtMostOneEnds` | src/algo/services/order_update_processor.py:195-196 | at most one transaction ever moves a row into a terminal status |
| `OrderUpdates.TerminalUpdateSurvivesIff` | src/algo/services/order_update_processor.py:104-136 | a terminal update of a live row ends it exactly when nobody wrote the row since it was loaded, or had already ended it |
| `OrderUpdates.TerminalUpdateCanLose` | src/algo/services/order_update_processor.py:104-136 | a run in which a partial fill wins the race and the terminal update is dropped |
| `OrderTable.ApplyBrokerOrderUpdate` | src/algo/services/order_update_processor.py:169-232 | the shared decision on the locked row: refused exactly when it would record more than the quantity; an ended row left alone; otherwise the id learned, and the status, fill, price and outcome the snapshot calls for |
| `OrderTable.DecisionUpdates` | src/algo/services/order_update_processor.py:169-232 | the shared decision in the same plain terms, as the delivery and race results use it |
| `OrderTable.Orders.Locate` | src/algo/services/order_update_processor.py:141-151 | the row an update refers to, none, or several |
| `OrderTable.Orders.Process` | src/algo/services/order_update_processor.py:104-136 | the push path changes at most the one row the update refers to, turns every failure into an outcome, and lets the poll path find a row that had no id by the broker's |
| `OrderTable.Orders.ReconcileOrderTerminal` | src/algo/services/order_update_processor.py:235-282 | the poll path decides as the push path does, by broker order id only, and lets a refusal escape |
| `OrderTable.LearnsFreeIdIff` | src/algo/services/order_update_processor.py:198-200 | an update gives a row a broker order id exactly when the row is live and has none, the update names one and is not too much; no other row has that id |
| `Ledger.FillMovesCash` | src/algo/brokers/simulation/simulation_broker.py:106-148 | each fill moves exactly its own quantity and cash, opening, adding, closing or flipping |
| `Ledger.WhatAFillRealises` | src/algo/brokers/simulation/simulation_broker.py:121-148 | adding realises nothing, reducing keeps the average, flipping restarts it at the fill price |
| `Ledger.SplitFill` | src/algo/brokers/simulation/simulation_broker.py:106-148 | filling in two steps at one price leaves the position a single fill would |
| `Ledger.AverageWithinPrices` | src/algo/brokers/simulation/simulation_broker.py:121-131 | the average price never leaves the range of prices paid |
| `Ledger.ProfitIdentity` | src/algo/brokers/simulation/simulation_broker.py:106-148 | over every sequence of fills, realised profit less cost of the holding is net cash, and a flat position has no average |
| `Ledger.MarkedProfit` | src/algo/brokers/simulation/simulation_broker.py:395 | from flat, marked profit is net cash plus quantity times last price |
| `Ledger.MarkedProfitPermutes` | src/algo/brokers/simulation/simulation_broker.py:395 | the marked profit and the quantity do not depend on the order of the fills |
| `Ledger.RealisedDependsOnOrder` | src/algo/brokers/simulation/simulation_broker.py:133-148 | the realised part alone does depend on it |
| `Exchange.SweepWorks` | src/algo/brokers/simulation/simulation_broker.py:527-551 | a forced pass with a live order strictly lowers the steps still to take |
| `Exchange.DrainCompletes` | src/algo/brokers/simulation/simulation_broker.py:527-591 | a drain ends with every order terminal at exactly the status and fill it was headed for, at any prices |
| `Exchange.SweepKeepsDestiny` | src/algo/brokers/simulation/simulation_broker.py:542-591 | no pass changes where an order is headed, lowers a fill or touches a finished order |
| `Exchange.FillsInSteps` | src/algo/brokers/simulation/simulation_broker.py:573-591 | after k steps an order has filled k shares, or everything once its plan or its quantity runs out, and is COMPLETE exactly then |
| `Exchange.NewOrderFillsInSteps` | src/algo/brokers/simulation/simulation_broker.py:655-662 | a new partial order takes exactly its number of steps, each an equal share, when its quantity allows |
| `Exchange.SmallOrderFillsByOne` | src/algo/brokers/simulation/simulation_broker.py:655-662 | a partial order of fewer units than steps fills one unit a step |
| `Exchange.OneStepOrder` | src/algo/brokers/simulation/simulation_broker.py:573-591 | any other order is filled, or rejected with nothing filled, in its first step |
| `Exchange.StepsWhenDue` | src/algo/brokers/simulation/simulation_broker.py:542-591 | over any threaded passes an order takes exactly one step at each tick at or past its due time, the next one being due when that step set it |
| `Exchange.StepPays` | src/algo/brokers/simulation/simulation_broker.py:593-604 | a step pays, in the order's own average, for exactly the units it fills |
| `Exchange.ProcessIsSound` | src/algo/brokers/simulation/simulation_broker.py:553-604 | one order's step keeps ledger and book in agreement, fills within quantity and the tag index |
| `Exchange.PlacedIsSound` | src/algo/brokers/simulation/simulation_broker.py:275-282 | placing an order keeps the same, the tag now finding the new order |
| `Exchange.ChangedIsSound` | src/algo/brokers/simulation/simulation_broker.py:306-350 | modifying or cancelling keeps the same, partial fills included |
| `Exchange.RunIsSound` | src/algo/brokers/simulation/simulation_broker.py:275-350 | over every run of place, modify, cancel and resolve: units and cash of each position are those of its key's orders |
| `Exchange.PlacedLasts` | src/algo/brokers/simulation/simulation_broker.py:251-294 | over any run the book has the order that was placed: its tag, instrument and side; it is rejected or filled only as its outcome has it |
| `Exchange.CancelLasts` | src/algo/brokers/simulation/simulation_broker.py:331-352 | a cancellation takes exactly on an order that has not ended; from then on it is cancelled with the fill it had, whatever happens |
| `Exchange.ModifyTakesIff` | src/algo/brokers/simulation/simulation_broker.py:296-329 | a change of quantity takes exactly on such an order when not below its fill, and a drain then fills the new quantity |
| `Exchange.PositionsFollowOrders` | src/algo/brokers/simulation/simulation_broker.py:382-407 | from an empty book, a position's quantity, marked profit and flat realised profit are fixed by the orders alone |
| `Exchange.RunTellsHistory` | src/algo/brokers/simulation/simulation_broker.py:606-617 | an order announces growing fills within the quantity it ends up with and at most one terminal snapshot, the last, changes of its quantity included |
| `Exchange.PlatformAgreesIff` | src/algo/services/order_update_processor.py:169-232 | from placing to end, any delivery of the exchange's announcements that keeps the last gives the platform's row the order's status exactly when it did not complete at more than the row's quantity |
| `Exchange.PlatformAgrees` | src/algo/services/order_update_processor.py:169-232 | in particular the row gets the order's status, and its fill if complete, when nobody changes the order's quantity |
| `SimulationBroker.SimBroker.Authenticate` | src/algo/brokers/simulation/simulation_broker.py:223-227 | a failed authentication never revokes an earlier one |
| `SimulationBroker.SimBroker.BuildSimOrder` | src/algo/brokers/simulation/simulation_broker.py:648-686 | the plan of a new order, with at least one step of at least one unit |
| `SimulationBroker.SimBroker.ApplyFill` | src/algo/brokers/simulation/simulation_broker.py:593-604 | the order's average and the ledger after a fill |
| `SimulationBroker.SimBroker.ProcessDueOrder` | src/algo/brokers/simulation/simulation_broker.py:553-591 | one step of one order, announced exactly when it was due |
| `SimulationBroker.SimBroker.ResolveDueOrders` | src/algo/brokers/simulation/simulation_broker.py:542-551 | one pass over the book; a forced one is empty exactly when no order is live |
| `SimulationBroker.SimBroker.Pump` | src/algo/brokers/simulation/simulation_broker.py:527-540 | synchronous mode drains to every order's end; threaded mode takes one respectful pass |
| `SimulationBroker.SimBroker.DrainAll` | src/algo/brokers/simulation/simulation_broker.py:536-538 | the drain loop ends, in the state the value-level drain ends in |
| `SimulationBroker.SimBroker.PlaceOrder` | src/algo/brokers/simulation/simulation_broker.py:251-294 | every refusal leaves no trace but a lost acknowledgement, which leaves the order in the book |
| `SimulationBroker.SimBroker.ModifyOrder` | src/algo/brokers/simulation/simulation_broker.py:296-329 | each refusal with its error, in order: no session, no connection, a missing order, an ended one, a quantity below the fill; otherwise only the quantity changes |
| `SimulationBroker.SimBroker.CancelOrder` | src/algo/brokers/simulation/simulation_broker.py:331-352 | each refusal with its error, in order; otherwise cancelled, keeping its fill |
| `SimulationBroker.SimBroker.FindOrderByTag` | src/algo/brokers/simulation/simulation_broker.py:369-378 | the most recently placed order with the tag, as it stands after a pump |
| `SimulationBroker.SimBroker.GetPositions` | src/algo/brokers/simulation/simulation_broker.py:382-407 | one report for each key whose orders leave a net quantity, its profit read off those orders, its average the ledger's |
| `TickQueue.OfferedIsConserved` | src/algo/market_data_collector/tick_writer.py:91-154 | under any interleaving, offered is written plus in flight plus waiting plus dropped; the queue is bounded; rows are written in the order offered |
| `TickQueue.RunHolds` | src/algo/market_data_collector/tick_writer.py:91-154 | every offered tick is in exactly one place; under drop_oldest the queue is a suffix of what was offered, under drop_newest nothing accepted goes missing but at shutdown |
| `TickQueue.AcceptedInOrder` | src/algo/market_data_collector/tick_writer.py:91-105 | under drop_newest, written, in flight and waiting together are the accepted sequence |
| `TickQueue.LostOnlyAtShutdown` | src/algo/market_data_collector/tick_writer.py:144-152 | no batch is ever given up while no stop was requested |
| `TickQueue.GivenUpIff` | src/algo/market_data_collector/tick_writer.py:144-152 | a batch is given up exactly when its third or later attempt fails while stopping |
| `TickQueue.FailuresCount` | src/algo/market_data_collector/tick_writer.py:138-152 | a batch survives any number of failures before a stop and two during one; the third during one costs exactly that batch |
| `TickQueue.StoppingIff` | src/algo/market_data_collector/tick_writer.py:66-82 | over any run the writer is stopping exactly when the last request it got was to stop |
| `TickQueue.TakenInFull` | src/algo/market_data_collector/tick_writer.py:124-127 | a batch is the front of the queue, as large as allowed, and starts its attempts anew |
| `TickQueue.ShedIff` | src/algo/market_data_collector/tick_writer.py:91-105 | a tick is shed exactly when the queue is full: the oldest waiting or the new one, by the policy |
| `TickWriter.Writer.Enqueue` | src/algo/market_data_collector/tick_writer.py:91-105 | the queue and the drop counter after one more tick, by the overflow policy |
| `TickWriter.Writer.TakeBatch` | src/algo/market_data_collector/tick_writer.py:124-127 | the front of the queue moves to the batch, in order and as much of it as a batch may hold |
| `TickWriter.Writer.RecordFailure` | src/algo/market_data_collector/tick_writer.py:138-152 | a failed attempt keeps the batch, or drops and counts it |
| `TickWriter.Writer.WriteWithRetry` | src/algo/market_data_collector/tick_writer.py:129-154 | the batch is written at its first successful attempt, or dropped at its first failure with a stop requested and three attempts made, wherever the stop comes |
| `TickWriter.Writer.DrainAndWrite` | src/algo/market_data_collector/tick_writer.py:117-122 | before, during or after a stop, the drain ends with nothing waiting, and writes everything unless three attempts in a row fail |
| `TickWriter.Writer.Stop` | src/algo/market_data_collector/tick_writer.py:73-82 | a stop, even with a batch in flight, ends with nothing waiting and the two counters accounting for every tick ever offered |
| `TickWriter.Writer.Accounted` | src/algo/market_data_collector/tick_writer.py:59-62 | at all times the counters, the batch and the queue account for every tick |
| `RateLimiter.LimitedIffSpaced` | src/algo/brokers/rate_limiter.py:67-73 | the rolling-window limit and the spacing of grants are the same thing |
| `RateLimiter.GrantIff` | src/algo/brokers/rate_limiter.py:102-110 | a grant respects the limit exactly when fewer than max_calls grants are recent |
| `RateLimiter.PruneTwice` | src/algo/brokers/rate_limiter.py:106-107 | the pruned list counts what the full history would |
| `RateLimiter.FullWindow` | src/algo/brokers/rate_limiter.py:108-111 | a full window holds exactly max_calls grants and its first says when the next slot is free |
| `RateLimiter.NoEarlierSlot` | src/algo/brokers/rate_limiter.py:111 | no slot comes free before the instant a caller is told to wait for, whatever other threads take |
| `RateLimiter.EveryRunIsLimited` | src/algo/brokers/rate_limiter.py:100-120 | across all threads and all time no window of the rule's length is overfull |
| `RateLimiter.FreeIsFirst` | src/algo/brokers/rate_limiter.py:100-120 | the earliest free instant is the first at which one more grant is allowed |
| `RateLimiter.TokenBucket.Prune` | src/algo/brokers/rate_limiter.py:107 | the loop keeps exactly the recent grants |
| `RateLimiter.TokenBucket.Try` | src/algo/brokers/rate_limiter.py:103-111 | the locked section grants exactly when the limit allows, else names the next free instant |
| `RateLimiter.TokenBucket.Acquire` | src/algo/brokers/rate_limiter.py:100-120 | a lone caller gets the first free slot, or is refused exactly when that is past its deadline, taking none |
| `Calendar.MonthLength` | src/algo/services/live_seams.py:247-251 | each month ends the day before the next begins, December included |
| `Calendar.MonthsBegin` | src/algo/services/live_seams.py:247-251 | every month begins where the Gregorian calendar has it begin, counted from March by a closed form without a table of lengths |
| `Calendar.WeekdaysFrom2000` | src/algo/services/live_seams.py:224-228 | weekdays repeat every seven days, and 1 January 2000 was a Saturday |
| `Calendar.DatesRoundTrip` | src/algo/services/live_seams.py:253-262 | every valid date and its day number determine each other |
| `Calendar.OrdinalRoundTrip` | src/algo/services/live_seams.py:253-262 | the date read off a day number has that day number |
| `Calendar.LastWeekdayIsLast` | src/algo/services/live_seams.py:247-251 | the computed day is the one last such weekday of its month |
| `Calendar.MonthlyIsLeast` | src/algo/services/live_seams.py:253-262 | the monthly expiry is the least date on or after the day that is the last such weekday of its month |
| `Calendar.WeeklyIsLeast` | src/algo/services/live_seams.py:224-228 | the weekly expiry is the least date on or after the day with the weekday |
| `Calendar.ShiftOffHolidays` | src/algo/services/live_seams.py:233-237 | the shift stops at the latest trading day, or after fourteen closed days |
| `Calendar.GetCurrentExpiry` | src/algo/services/live_seams.py:208-244 | the method gives the latest trading day not after the nominal expiry of either cadence, fourteen days back at most |
| `Calendar.ShiftFindsIff` | src/algo/services/live_seams.py:233-237 | the shift ends on a trading day exactly when one of the fifteen days is one |
| `Calendar.TradingIff` | src/algo/services/holiday_service.py:100-115 | a segment is closed at weekends and on the declared days of its own cash market, NSE for NFO and BSE for BFO, and no other |
| `Calendar.WeeklyExpiry` | src/algo/services/live_seams.py:208-244 | from a trading day the weekly expiry is a trading day within the week, the latest not after the nominal weekday, whatever the holidays |
| `Calendar.MonthlyExpiry` | src/algo/services/live_seams.py:208-262 | from a trading day the monthly expiry is never before it, and is a trading day unless fifteen days are closed |
| `Calendar.ExpiryRolls` | src/algo/services/live_seams.py:208-244 | over trading days the expiry never moves back, and stays the same exactly until it has passed |
| `Calendar.April2025` | src/algo/services/live_seams.py:246-262 | through April 2025 the monthly Thursday expiry is the 24th of April up to that day and the 29th of May after it |
| `Calendar.PreviousTradingDay` | src/algo/services/holiday_service.py:117-125 | the nearest earlier trading day, or none when ten years hold none |
| `Calendar.NextTradingDay` | src/algo/services/holiday_service.py:127-134 | the nearest later trading day, or none when ten years hold none |
| `Calendar.PreviousUndoesNext` | src/algo/services/holiday_service.py:117-134 | on trading days the two walks undo each other |
| `RiskLatch.RunFollows` | src/algo/risk/risk_core.py:398-483 | under any interleaving the limit is fixed once the row exists, a breach is never undone, and no persist changes a verdict |
| `RiskLatch.VerdictIff` | src/algo/risk/risk_core.py:398-417 | the verdict in plain figures: no configured limit passes, a latched day fails, and the loss is held against the row's own limit, or the configured one while there is no row |
| `RiskLatch.PlanIff` | src/algo/risk/risk_core.py:398-428 | a check sets out to write its own figures, the unrealised profit it found, and the latch exactly when it saw a crossing |
| `RiskLatch.LimitIsFixed` | src/algo/risk/risk_core.py:391-393 | once the row exists every later check is held against the one limit some earlier check was configured with, whatever is configured now |
| `RiskLatch.KeptRecords` | src/algo/risk/risk_core.py:463-472 | a persist that goes through leaves its check's figures on the row |
| `RiskLatch.BreachedIffPersisted` | src/algo/risk/risk_core.py:441-483 | the day is latched exactly when some check's crossing was persisted |
| `RiskLatch.KeptIffUnraced` | src/algo/database/repositories/base.py:90-99 | a persist of an existing row is kept exactly when nobody wrote the row since it was loaded, or there is nothing to write |
| `RiskLatch.FinishLatchesIff` | src/algo/risk/risk_core.py:441-483 | the commit that finishes a crossing's persist leaves the day latched exactly when the row is as the persist last saw it, or is latched already |
| `RiskLatch.CrossingLatchesIff` | src/algo/database/repositories/base.py:90-99 | a persist that its first attempt ends latches the day exactly when nobody else wrote the row between its load and its commit, or had latched it by then; it ends there unless somebody else created the row in between |
| `RiskLatch.RestartLatchesIff` | src/algo/database/repositories/base.py:115-135 | a persist forestalled by another writer's creation starts over on that row and latches the day exactly when nobody else wrote it between the restart and the next commit, or had latched it by then |
| `RiskLatch.ForestalledCrossingLatches` | src/algo/database/repositories/base.py:120-132 | a run in which another check creates the row first and the crossing still latches the day |
| `RiskLatch.LatchHolds` | src/algo/risk/risk_core.py:371-439 | after a persisted crossing every later check under a configured limit fails, at any profit and limit |
| `RiskLatch.CertainIffBreached` | src/algo/risk/risk_core.py:407-416 | a check is certain to fail at every profit exactly on a latched row |
| `RiskLatch.LostRaceForgetsTheBreach` | src/algo/risk/risk_core.py:379-384 | a crossing that loses its race does not latch, and a later check passes |
| `RiskLatch.DailyRisk.Persist` | src/algo/risk/risk_core.py:441-483 | the row after a persist: its own figures, a rival's when it loses, or its figures on the row a rival created first |
| `RiskLatch.DailyRisk.CheckDailyLossLimit` | src/algo/risk/risk_core.py:371-439 | passes exactly when no limit is configured, or the day is not latched and its profit is above minus the row's limit (the configured one without a row); never on the race; whether the day is then latched is said for no rival, a rival's write and a rival's creation |
| `RiskLatch.ValidateEntry` | src/algo/risk/risk_core.py:247-293 | approved exactly when every check passes; the first failure is the only one, and everything after it is skipped |
| `Scheduler.RunnerStaysLawful` | src/algo/strategy_engine/strategy_runner.py:91-201 | a runner only ever calls its hooks in the lawful orders, and its status follows from them |
| `Scheduler.EventsOnlyWhileRunning` | src/algo/strategy_engine/strategy_runner.py:110-171 | no event reaches the strategy before recovery succeeded or after a failure or the shutdown |
| `Scheduler.RegisterIsSound` | src/algo/scheduler/platform_scheduler.py:123-148 | a new registration starts inside the invariant of the runs |
| `Scheduler.SkippedIff` | src/algo/scheduler/platform_scheduler.py:171-196 | over any run a trigger is skipped on no date but its registration's, and then exactly if that is a trading day, its time had passed and its policy is SKIP |
| `Scheduler.MissedSkipIsNotDelivered` | src/algo/scheduler/platform_scheduler.py:179-186 | a missed SKIP trigger is not delivered that day, come what may |
| `Scheduler.UnskippedIsDelivered` | src/algo/scheduler/platform_scheduler.py:187-196 | any other trigger past its time, a missed FIRE_ON_STARTUP one included, is delivered on every trading day on which a tick finds the runner running, unless it stops running meanwhile |
| `Scheduler.RunIsSound` | src/algo/scheduler/platform_scheduler.py:253-290 | over every run a trigger is delivered at most once a date, never early, off a trading day or on a skipped date, and nothing marked is dropped while the runner runs |
| `Scheduler.TickDelivers` | src/algo/scheduler/platform_scheduler.py:253-290 | a tick over a running runner on a trading day delivers every due, unskipped trigger that day unless the runner stops running |
| `Scheduler.DeliveredIffStillRunning` | src/algo/scheduler/platform_scheduler.py:279-290 | over any run, a marked trigger is delivered that day exactly when every event before its dispatch leaves the runner running |
| `Scheduler.MarketFailureDrops` | src/algo/strategy_engine/strategy_runner.py:132-150 | a market hook that fails between mark and dispatch drops the trigger |
| `Scheduler.DroppedIffFrozenEarlier` | src/algo/scheduler/platform_scheduler.py:279-290 | in a tick with no other events, a due trigger is dropped exactly when an earlier dispatch froze the runner |
| `PlatformScheduler.StrategyRunner.Start` | src/algo/strategy_engine/strategy_runner.py:91-108 | recovery first, frozen when it fails, refused unless fresh; the hooks called stay lawful |
| `PlatformScheduler.StrategyRunner.Dispatch` | src/algo/strategy_engine/strategy_runner.py:110-171 | events reach only a running strategy, and a failing hook freezes it; the hooks called stay lawful |
| `PlatformScheduler.StrategyRunner.Stop` | src/algo/strategy_engine/strategy_runner.py:173-201 | one shutdown call, whatever it returns, and none on a stopped or frozen runner; the hooks called stay lawful |
| `PlatformScheduler.RunnerSchedule.constructor` | src/algo/scheduler/platform_scheduler.py:123-148 | registration starts the runner, then settles what was missed |
| `PlatformScheduler.RunnerSchedule.SeedMissedTriggers` | src/algo/scheduler/platform_scheduler.py:171-196 | exactly the missed SKIP triggers of a trading day are marked skipped |
| `PlatformScheduler.RunnerSchedule.CollectDue` | src/algo/scheduler/platform_scheduler.py:265-277 | exactly the due triggers, each once |
| `PlatformScheduler.RunnerSchedule.Tick` | src/algo/scheduler/platform_scheduler.py:253-290 | all due triggers are marked fired, then dispatched one by one |
| `Subscriptions.SubscriptionManager.Subscribe` | src/algo/market_data/subscription_manager.py:34-45 | one more count for each mention; the delta is exactly what became active, once each |
| `Subscriptions.SubscriptionManager.Unsubscribe` | src/algo/market_data/subscription_manager.py:47-64 | one count fewer for each mention, never below none; the delta is exactly what stopped being active, once each |
| `Subscriptions.StepIsSound` | src/algo/market_data/market_data_service.py:159-177 | each client, socket or handler step keeps every active instrument subscribed or about to be |
| `Subscriptions.CoveredWhenQuiet` | src/algo/market_data/market_data_service.py:376-392 | however steps interleave, a connected socket with nothing under way is subscribed to everything active |
| `Subscriptions.LingersStep` | src/algo/market_data/market_data_service.py:389-392 | an unwanted instrument comes onto the socket only by a stale resubscription, and leaves by a drop or a new subscription |
| `Subscriptions.ExactIffNothingRevived` | src/algo/market_data/market_data_service.py:376-392 | when quiet and connected, the socket holds exactly what is active if and only if every stale resubscription has been made up for |
| `Subscriptions.StaleResubscribeLingers` | src/algo/market_data/market_data_service.py:389-392 | a resubscription read before an unsubscribe leaves an unwanted instrument on the socket |
| `Subscriptions.MarketDataService.Subscribe` | src/algo/market_data/market_data_service.py:159-166 | without overlap the socket holds exactly what is active, cache untouched |
| `Subscriptions.MarketDataService.Unsubscribe` | src/algo/market_data/market_data_service.py:168-177 | the same, dropping the cached price of exactly what nobody needs |
| `Subscriptions.MarketDataService.OnConnect` | src/algo/market_data/market_data_service.py:376-392 | a fresh socket ends up holding exactly what is active |
| `AtmWindow.AtmIsNearest` | src/algo/strategy_engine/strategies/strategy_1/strike_selector.py:70-93 | the ATM strike is a multiple of the interval within half an interval of the spot, ties rounding up |
| `AtmWindow.WindowGrows` | src/algo/market_data_collector/atm_window.py:109-125 | adding one strike's legs keeps the window exactly the contracts listed so far |
| `AtmWindow.DiffIsMinimal` | src/algo/market_data_collector/atm_window.py:127-129 | the diff takes the old window to the new, its two halves disjoint, and nothing smaller does |
| `AtmWindow.StepAgrees` | src/algo/market_data_collector/collector_service.py:135-150 | each orderly step keeps the intended set equal to the union of the windows |
| `AtmWindow.EveryRunAgrees` | src/algo/market_data_collector/collector_service.py:115-256 | over every orderly run the stream intends exactly the union of the windows, and a connected socket holds exactly that |
| `AtmWindow.SessionsEndEmpty` | src/algo/market_data_collector/collector_service.py:135-150 | over any run nothing is intended, windowed or connected before the market opens and after it closes, and an opened session has a socket |
| `AtmWindow.SocketStep` | src/algo/market_data_collector/full_tick_stream.py:86-137 | exactly which steps make, connect, drop and remove a socket, and that none but a rotation or the end of a session changes what is intended |
| `AtmWindow.DeadStep` | src/algo/market_data_collector/full_tick_stream.py:206-222 | the stream is dead exactly when its last socket was lost for good and none was started or came up since |
| `AtmWindow.JumpKeepsAgreementIff` | src/algo/market_data_collector/collector_service.py:140-143 | opening a session over an unclosed one keeps agreement exactly when nothing was subscribed |
| `AtmWindow.StaleTokenAfterJump` | src/algo/market_data_collector/collector_service.py:140-143 | a run that keeps yesterday's token intended |
| `AtmWindow.UpsertFailureBreaks` | src/algo/market_data_collector/collector_service.py:246-251 | a rotation keeps agreement exactly when its new contracts, if any, are recorded, and repeating it repairs nothing |
| `AtmWindow.ListedAnewIff` | src/algo/market_data_collector/collector_service.py:246-251 | a recompute that succeeds subscribes a token it lists exactly when the token was subscribed before or is new to the window |
| `AtmWindow.TokenNeverSubscribed` | src/algo/market_data_collector/collector_service.py:246-251 | a run whose failed upsert leaves a window token that the next recompute does not subscribe |
| `Collector.AtmWindowManager.Target` | src/algo/market_data_collector/atm_window.py:109-125 | the loop's window holds a contract for every token listed within n strikes of the money, and no other |
| `Collector.AtmWindowManager.Recompute` | src/algo/market_data_collector/atm_window.py:100-139 | the new window and a diff naming each change once; nothing changes without a price |
| `Collector.CollectorTickStream.Start` | src/algo/market_data_collector/full_tick_stream.py:86-90 | a second start is a no-op; a fresh socket holds nothing |
| `Collector.CollectorTickStream.Restart` | src/algo/market_data_collector/full_tick_stream.py:92-111 | a brand-new socket, the intended set kept |
| `Collector.CollectorTickStream.HandleConnect` | src/algo/market_data_collector/full_tick_stream.py:187-199 | the fresh socket is subscribed to exactly the intended set |
| `Collector.CollectorTickStream.Subscribe` | src/algo/market_data_collector/full_tick_stream.py:153-162 | intended always, on the socket when connected |
| `Collector.CollectorTickStream.Unsubscribe` | src/algo/market_data_collector/full_tick_stream.py:164-172 | no longer intended, and off the socket when connected |
| `Collector.CollectorTickStream.HandleClose` | src/algo/market_data_collector/full_tick_stream.py:206-222 | the socket forgets, the intended set does not |
| `Collector.CollectorService.OnPhase` | src/algo/market_data_collector/collector_service.py:135-150 | what each phase change starts, stops and forgets; agreement is kept by each but a session opened over subscribed tokens |
| `Collector.CollectorService.RestartStream` | src/algo/market_data_collector/collector_service.py:223-235 | the watchdog's rebuild keeps agreement and the intended set |
| `Collector.CollectorService.RecomputeOne` | src/algo/market_data_collector/collector_service.py:237-256 | one underlying's rotation, or the raise of a failed upsert with the window already moved |
| `Collector.CollectorService.RecomputeAll` | src/algo/market_data_collector/collector_service.py:237-256 | the stream still intends exactly the union of the windows if and only if no upsert of the pass raised, and none raises when every upsert succeeds |

## Left out

- Placement: an order rejected at the call, or never sent, leaves none at the broker,
  and one process runs an instance at a time. The gates before an entry, the second
  leg's order and the unwinding order, sent once from inside one entry, are not modelled.
- TickWriter.Writer.DrainAndWrite: supposes that nobody enqueues while it runs; the runs
  of `TickQueue` interleave the two freely.
- The row lock taken before an update or a unit of work: a session that has already
  loaded the row keeps its stale copy, so racing writers are modelled by versions
  alone; a version conflict inside a recovery unit is a crash of that pass.
- The state transition log, timestamps and the check that an exit is not before its
  entry: nothing the modelled code decides depends on them.
- Surrogate ids of order rows that recovery creates: a new row is named after its
  intent, which fixes them up to renaming.
- The strategy's finalization hook: an arbitrary total function of its own position
  and legs that moves ENTRY_PENDING to OPEN or EXIT_PENDING to CLOSED.
- Resolved intents whose order later shows up filled, and untagged broker orders:
  recovery does not examine them, so nothing is claimed of them.
- Decimal rounding to 28 digits: money is `real`.
- How chance decides an order's outcome, its number of steps and each simulated
  failure: arbitrary inputs. The price source is total and callbacks do not call
  back into the broker. Limit prices and order types do not affect fills and are
  left out, as are margins, holdings and quotes.
- Orders and positions of the simulated broker are values in its tables, not objects
  of their own: aliasing of an order object is not captured, and none leaves the broker.
- A simulated order id is new when it is minted: uuid uniqueness is assumed.
- Backoff delays, flush intervals and thread start and join; a database commit that
  succeeds but reports failure, which would write a batch twice; a second writer
  thread started while an old one outlives its join.
- RateLimiter.TokenBucket.Acquire: speaks of a caller alone in its retry loop, because
  contending callers have no bound on their waiting; what holds for all of them is in
  `TokenBucket.Try` and `RateLimiter.EveryRunIsLimited`.
- Dates outside years 1 to 9999, where the calendar library overflows.
- The listed-expiry validation around the expiry service, and loading calendars and
  configuration.
- How realised P&L is summed, and the eight other entry checks' own queries: each
  check's verdict is an input.
- The daily loss row's two flushes in one transaction count as one version step.
- Scheduler.Register: supposes unique trigger names within a registration; a tick's
  date and time are one reading of the clock; registrations share nothing but the
  tick, so one stands for all.
- Dispatches of one tick run one after another in some order, as the runner's own
  lock makes them; hooks do not call back into the runner.
- Concurrent client threads changing the same instrument, a failed send on a socket
  that is up, and a broker adapter's own remembered tokens: coverage does not extend there.
- The polling fallback, its retries and escalation, and tick plausibility.
- A recompute between the two halves of the collector's connect callback, and
  callbacks of a socket already discarded: each callback is one step.
- The watchdog's heartbeat and grace timers: a restart may come at any time a socket
  is expected. The heartbeat baseline is not renewed by a restart, unlike the comment
  at `src/algo/market_data_collector/collector_service.py:231-232`.
- A token listed for two underlyings.
- The live broker adapter, login, the paper broker, strategies, reporting, command
  lines and container wiring: delegation and table lookups.
