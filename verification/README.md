# Firmquant: verified model

A Dafny 4.11 model of the stateful core of firmquant, a single-account A-share execution
system, with proofs about all of its runs. `dafny verify dfyconfig.toml` checks everything.

## What is modelled

**Order aggregate** (`Orders`, `OrderInvariant`, `OrderTable`, `OrderHistory`, `OrderDelivery`,
`OrderCancellation`). The event-sourced order with its 12 states and 14 events, as pure functions.
The constructor's own checks are not inductive; `Inv` strengthens them until every event keeps them.
On top of it: a reference table, absorption, replay, at-least-once delivery and permutation of
answers.

**Paper broker** (`PaperFacts`, `PaperRules`, `PaperBooks`, `PaperDesk`, `PaperBroker`,
`PaperInvariant`, `PaperRuns`, `PaperTheorems`, `PaperLimits`, `PaperAdmission`, `PaperTrades`,
`PaperCalls`, `PaperRefinement`). `PaperBroker` is a class whose methods update its fields as the
source does; each is proved to refine a step on a `Desk` value. Invariants and whole-run theorems
are about the desk. `PaperRefinement` feeds the events the broker emits to the order aggregate and
proves that it mirrors the broker's order.

**Close protocol** (`CloseLedger`, `CloseProtocol`, `CloseService`, `CloseInvariant`,
`CloseTheorems`, `CloseProgress`, `CloseOnce`, `CloseEvidence`, `CloseAudit`). Six ordered
write-once checkpoints and a decision/account pair. A `World` carries the number of durable writes
the process still lives for, so a crash can fall between any two. A run is any schedule of attempts,
crashes and account writes by others.

**Control plane** (`ControlFacts`, `RuntimeStates`, `ControlProtocol`, `ControlService`,
`ControlConvergence`, `KillSwitch`, `KillSwitchBlocker`, `ControlOperator`, `ControlAudit`,
`InboxFacts`, `ControlInbox`, `ControlPlane`). The runtime state machine, the executor's HALT,
DISARM and STOP, the operator's halt, disarm, resume, reconcile and arm, and the request/receipt
inbox, each as durable writes with a crash possible after any of them; `ControlPlane` has the
executor serve the inbox.

**Promotion evidence** (`DecimalText`, `EvidenceFacts`, `EvidenceCodec`, `EvidenceRoundTrip`,
`EvidenceTally`, `EvidenceAggregate`, `EvidenceAggregator`, `EvidenceStore`,
`EvidenceQualification`, `EvidenceTracking`, `EvidenceTotals`). Observations, their JSON and decimal
text, aggregation by loops against an order-free definition, and the append-only store with its
qualification rule.

## How the source's values appear

- Prices are integers in units of 0.00000001, money in units of 0.0001; rounding is written out.
  Slippage and participation are integers in units of 0.00000001. Evidence uses exact reals over
  decimals kept as sign, coefficient and exponent.
- A SHA-256 digest, and an id derived by one, is modelled by what it digests.
- The fee schedule is any function to money. Clocks, random ids, reconciliation answers, the
  sink's readiness and the strategy's decision are inputs.
- A raised exception is a `Result` error, or `Raise` beside `Die` where the process may end.
- The broker keeps the command inside its order fact; the source keeps a dictionary beside it.

## Where the code does not keep a property one might expect

Each has the exact condition, and a run from the start where one leads there.

- A partly filled sale is checked again for the full request (`PaperRules.PartialSaleResumes`) and
  may never be filled further: `PaperLimits.OversizedSaleIsStuck`, `PaperLimits.PartialSaleIsStuck`.
- A sale whose fees exceed cash plus proceeds fails after its position was changed:
  `PaperBooks.HalfSettledExactly`, `PaperLimits.SettlementBreaks`.
- A quote may report less volume than before and break the participation limit:
  `PaperTheorems.QuoteBudgetExactly`, `PaperLimits.QuoteBreaksBudget`.
- A decision is applied twice if the broker's account stands where it was when the close is run
  again after a crash: `CloseOnce.AttemptAppliesExactly`, `CloseOnce.DecisionAppliedTwice`. A
  contradictory account blocks every attempt: `CloseProgress.CompletesExactly`,
  `CloseOnce.CloseStuck`.
- A halt dated before the newest reset does not read back as tripped: `KillSwitch.HaltTrips`. A trip
  held only as a status blocker can be got round without a resume:
  `KillSwitchBlocker.TripHoldsExactly`, `KillSwitchBlocker.TripWithoutRowIsLost`.
- A request that was run and has expired before its file was removed stops every later batch:
  `InboxFacts.RunAndExpiredIsPoison`, `ControlInbox.RunAndLeave`.
- A purchase is told CASH_INSUFFICIENT when cash is ample and the volume leaves less than a lot:
  `PaperAdmission.WaitingIsTrue`, `PaperAdmission.CashIsBlamedForVolume`.
- A decision applied by an attempt that dies before its audit is never audited:
  `CloseAudit.AuditedExactly`, `CloseAudit.NeverAudited`.
- An observation with a positive decimal exponent is equal in value but not identical after
  decoding: `EvidenceRoundTrip.ObservationRoundTrip`.

## Model

| member | source | states |
|---|---|---|
| Orders.FindEvent | src/firmquant/domain/orders.py:349-359 | an event counts as seen exactly when its id is recorded; the record found is the one under that id |
| Orders.FindFill | src/firmquant/domain/orders.py:419-424 | a fill counts as seen exactly when its id is recorded |
| OrderInvariant.InitialInv | src/firmquant/domain/orders.py:333-347 | an aggregate made from an intent satisfies the strengthened invariant |
| OrderInvariant.UpdatedKeepsInv | src/firmquant/domain/orders.py:361-405 | the common update keeps the invariant and its constructor check never fails |
| OrderInvariant.FillKeepsInv | src/firmquant/domain/orders.py:410-467 | a fill, early, late, repeated or too large, keeps the invariant; a refusal is never a constructor failure |
| OrderInvariant.AckKeepsInv | src/firmquant/domain/orders.py:511-532 | so does an acknowledgement in every state |
| OrderInvariant.CancelKeepsInv | src/firmquant/domain/orders.py:564-580 | so does a confirmed cancellation |
| OrderInvariant.RejectKeepsInv | src/firmquant/domain/orders.py:581-587 | so does a broker rejection |
| OrderInvariant.ProgressKeepsInv | src/firmquant/domain/orders.py:476-510 | so does every event of our own and every unknown outcome |
| OrderInvariant.ApplyKeepsInv | src/firmquant/domain/orders.py:469-590 | one well-formed event keeps the invariant, among it: a live order is not full, every fill names the order's broker id, the version counts the log, fills without a submit mean EXPIRED and flagged; it fails by transition error only |
| OrderTable.ApplyMatchesSheet | src/firmquant/domain/orders.py:410-590 | for all 12 states and 14 events, every well-formed event is answered as a reference table written independently of the branches says: a recorded event or fill changes nothing, its id with other contents is the collision error, a new event is accepted exactly when the table allows it, and then every field of the next aggregate is the table's: state, broker id, fills, filled shares, counters, flag, anomalies, log and version |
| OrderHistory.ReachableInv | src/firmquant/domain/orders.py:282-331 | every delivery from a fresh intent keeps the invariant, so no `replace` ever trips a constructor check |
| OrderHistory.ApplyRecords | src/firmquant/domain/orders.py:361-405 | an accepted event changes nothing, or is logged exactly once at the end, raises the version by one and moves along the table |
| OrderHistory.RunWalksTable | src/firmquant/domain/orders.py:60-124 | the states of every run are a path in the published table, and no step leaves a terminal state |
| OrderHistory.TerminalAbsorbs | src/firmquant/domain/orders.py:56-59 | no sequence of events leaves a terminal state |
| OrderHistory.LateFillRetained | src/firmquant/domain/orders.py:425-453 | a new fill on a CANCELLED, REJECTED or EXPIRED order is accepted exactly when the broker id agrees and the request is not exceeded; then it is retained, flagged and noted as an anomaly |
| OrderHistory.FlagMeansLateFill | src/firmquant/domain/orders.py:425-453 | in every reachable aggregate the investigation flag is set exactly when a late-fill anomaly exists |
| OrderHistory.ReplayRebuilds | src/firmquant/domain/orders.py:361-405 | replaying the kept log from the intent rebuilds the identical aggregate |
| OrderHistory.AcceptedIsAbsorbed | src/firmquant/domain/orders.py:469-475 | after an event was accepted another copy of it will be a no-op |
| OrderHistory.AbsorptionLasts | src/firmquant/domain/orders.py:349-359 | and stays one after any further accepted event |
| OrderHistory.AtLeastOnceIsExactlyOnce | src/firmquant/domain/orders.py:349-359 | any delivery has the same outcome, acceptance or error, as the delivery of first copies only, provided no id carries two contents |
| OrderHistory.RedeliveryIsInvisible | src/firmquant/domain/orders.py:469-475 | copies of delivered events inserted at any later point leave the final aggregate identical |
| OrderHistory.RepeatedFillIsInvisible | src/firmquant/domain/orders.py:410-424 | the same fill under a fresh event id is a no-op and leaves no trace of that id |
| OrderDelivery.AckAccepted | src/firmquant/domain/orders.py:511-532 | an acknowledgement with a matching broker id is accepted by every order at the broker, with exactly this outcome |
| OrderDelivery.FillAccepted | src/firmquant/domain/orders.py:455-467 | so is a fitting fresh fill |
| OrderDelivery.BurstAccepted | src/firmquant/domain/orders.py:410-534 | any burst of acknowledgements and distinct fills within the remainder is accepted event by event, with a closed-form outcome |
| OrderDelivery.AnswersCommute | src/firmquant/domain/orders.py:410-534 | every permutation of such a burst is accepted and ends alike; only the order of the two logs can differ, not their contents |
| OrderCancellation.LateAnswersAccepted | src/firmquant/domain/orders.py:425-453 | a cancelled order accepts any burst of acknowledgements and distinct fills within the remainder, stays CANCELLED, and is flagged once a fill was among them |
| OrderCancellation.InterruptedAccepted | src/firmquant/domain/orders.py:564-580 | so is any burst with the cancellation anywhere in it, before the request is full: cancelled, with all fills, and flagged exactly when one of them came after the cancellation |
| Rounding.HalfUp | src/firmquant/broker/paper.py:536-572 | nearest multiple, halves up: within half a step, exact on multiples |
| Rounding.ToMoney | src/firmquant/broker/paper.py:75-80 | money rounding is within half a quantum, exact on the quantum, and keeps the sign |
| PaperBooks.SettleKeepsValid | src/firmquant/broker/paper.py:649-707 | after every fill each position sells no more than it holds and has a cost; total assets are at least cash; a half-done settlement keeps valid positions too |
| PaperBooks.CashDrift | src/firmquant/broker/paper.py:649-707 | after n fills cash is within n half-quanta of start, minus buys with fees, plus sells less fees |
| PaperBooks.CashExact | src/firmquant/broker/paper.py:649-707 | and exactly equal when every price lies on the money quantum |
| PaperBooks.AssetsAreCashPlusPositions | src/firmquant/broker/paper.py:700-707 | after a fill total assets are cash plus the stored market values |
| PaperBooks.SellableNeverGrows | src/firmquant/broker/paper.py:649-698 | T+1: sellable shares are those at the start less all sold, holdings are start plus bought less sold, through deletion and re-buying of a position |
| PaperBooks.SoldWithinInitialSellable | src/firmquant/broker/paper.py:681-688 | shares sold over a run never exceed the shares sellable at its start |
| PaperBooks.CostBasisConserved | src/firmquant/broker/paper.py:658-677 | a buy moves the cost basis by what was paid, up to half a price unit a share |
| PaperBooks.HalfSettledExactly | src/firmquant/broker/paper.py:678-699 | settlement fails after moving the position exactly when a sale's fees exceed cash plus proceeds, to the nearest money unit |
| PaperBooks.SettlesExactly | src/firmquant/broker/paper.py:649-707 | a fill settles exactly when the cash carries a purchase, the sellable shares a sale and the cash its fees, and the position left can be valued |
| PaperBooks.SettledPosition | src/firmquant/broker/paper.py:666-698 | after a fill its position is worth its shares at the quote's price to the nearest amount of money, a sale keeps the average cost, no shares leave no position, and every other position is as it was |
| PaperBooks.ValuedByLastFill | src/firmquant/broker/paper.py:670-698 | after any run of fills every traded position is worth its shares at the price that valued its last fill |
| PaperAdmission.RefusedExactly | src/firmquant/broker/paper.py:440-493 | a command is refused exactly when it is not tradable: market and quote open alike, an equity that trades, one agreed band and session, a limit in band, on tick and precise enough, whole lots or the full odd lot, and shares that may be sold |
| PaperAdmission.RefusalIsTrue | src/firmquant/broker/paper.py:440-493 | the reason of a refusal is true of the facts |
| PaperAdmission.PricedExactly | src/firmquant/broker/paper.py:536-572 | a fill price exists exactly where the order crosses an unlocked touch and a fair price exists, which is then the only one |
| PaperAdmission.PlannedExactly | src/firmquant/broker/paper.py:731-772 | a match decides on these shares at this price exactly when the order is tradable and crosses, the price is fair and the shares are the most that fit |
| PaperAdmission.WaitingIsTrue | src/firmquant/broker/paper.py:736-772 | the reason for not filling a tradable order is true; CASH_INSUFFICIENT is said exactly of purchases the volume leaves a share for, and VOLUME_CAPACITY_EXHAUSTED of the others |
| PaperAdmission.CashIsBlamedForVolume | src/firmquant/broker/paper.py:766-770 | a purchase with ample cash is told CASH_INSUFFICIENT because the volume leaves less than a lot |
| PaperRules.PartialSaleResumes | src/firmquant/broker/paper.py:488-492 | after a part of a sale was filled its quantity is admitted again exactly when the position could sell the whole request on top of what was sold |
| PaperRules.FillPriceIsFair | src/firmquant/broker/paper.py:536-572 | a fill price is on a tick, inside the daily band, no worse than the limit and within half a tick of the slipped touch |
| PaperRules.MostAffordable | src/firmquant/broker/paper.py:603-613 | the largest lot multiple within the limit that cash can pay with fees: nothing larger fits, for any fee function |
| PaperRules.AffordableBuyShares | src/firmquant/broker/paper.py:603-613 | the descending loop returns that number and ends |
| PaperRules.CapacityIs | src/firmquant/broker/paper.py:574-581 | shares fit the remaining capacity exactly when the session total stays within the participation limit |
| PaperRules.FillQuantityIsLargest | src/firmquant/broker/paper.py:583-613 | the quantity filled satisfies remainder, capacity, sellable, lot and cash limits, and no larger quantity does |
| PaperRuns.PlanFits | src/firmquant/broker/paper.py:745-774 | what a match decides to fill is on a fair price (on a tick, inside the band, no worse than the limit, within half a tick of the slipped touch) and fits every limit of quantity, capacity, holding and cash |
| PaperRuns.FittingFillSettles | src/firmquant/broker/paper.py:649-707 | a fill that fits never trips the negative-cash, missing-position or oversell guard |
| PaperRuns.AdmitKeeps | src/firmquant/broker/paper.py:507-531 | admitting or rejecting a command keeps the desk invariant |
| PaperRuns.TradeKeeps | src/firmquant/broker/paper.py:773-817 | so does a fill, whatever the sink does with its two events |
| PaperRuns.MatchKeeps | src/firmquant/broker/paper.py:709-817 | so does a match |
| PaperRuns.SubmitKeeps | src/firmquant/broker/paper.py:495-534 | so does a submission |
| PaperRuns.CancelStepKeeps | src/firmquant/broker/paper.py:819-839 | so does a cancellation |
| PaperRuns.RedeliverKeeps | src/firmquant/broker/paper.py:290-307 | so does a recovery of pending callbacks, wherever the sink fails |
| PaperTheorems.StepKeeps | src/firmquant/broker/paper.py:229-328 | every public call keeps the invariant that ties orders, fills, volume, outbox and books together |
| PaperTheorems.Play | src/firmquant/broker/paper.py:495-839 | and so does every sequence of calls |
| PaperTheorems.TellsAccounts | src/firmquant/broker/paper.py:783-811 | the events emitted for an order add up to its filled shares, each fill once under a rising match count |
| PaperTheorems.JointAccounting | src/firmquant/broker/paper.py:794-811 | in every state an order's filled shares are the sum of its fills and at most the request, consumed volume per session and symbol is the sum over all orders, and fill ids never repeat |
| PaperTheorems.FillStaysWithinVolume | src/firmquant/broker/paper.py:574-581 | each fill leaves the session total within volume times participation |
| PaperTheorems.BudgetStands | src/firmquant/broker/paper.py:796-797 | every call keeps the session total of each symbol within volume times participation while reported volume does not fall |
| PaperTheorems.BudgetHolds | src/firmquant/broker/paper.py:574-581 | from any sound state within the limit, a fresh broker's among them, over every run in which reported volume does not fall consumed volume stays within volume times participation |
| PaperTheorems.QuoteBudgetExactly | src/firmquant/broker/paper.py:309-323 | a quote keeps the budget exactly when it reports at least the consumed volume over the participation rate, rounded up; the code accepts less |
| PaperTheorems.GuardsUnreachable | src/firmquant/broker/paper.py:654-685 | from a match the guards for negative cash, a missing position and overselling are unreachable, and a half-done settlement means a sale whose fees exceed its proceeds |
| PaperTheorems.CoveredRunNeverBreaks | src/firmquant/broker/paper.py:686-704 | with fees never above proceeds no run leaves a settlement half done |
| PaperTheorems.OpenedIsSound | src/firmquant/broker/paper.py:106-170 | a fresh broker satisfies the invariant, its books balance and no volume is consumed |
| PaperTheorems.RunConserves | src/firmquant/broker/paper.py:649-707 | over every run cash, holdings, sellable shares and assets obey the conservation laws against the fills told |
| PaperTheorems.ResubmissionIsNoOp | src/firmquant/broker/paper.py:500-505 | a known key changes nothing: equal terms return the order as it stands, other terms collide |
| PaperTheorems.SubmissionIsKnown | src/firmquant/broker/paper.py:506-510 | a first submission leaves its order on the books exactly when the symbol has market facts |
| PaperTheorems.MatchRemembers | src/firmquant/broker/paper.py:725-730 | a match loses no order and touches neither a closed one nor another one |
| PaperTheorems.ClosedStays | src/firmquant/broker/paper.py:829-830 | a closed order is never changed by any later call |
| PaperTrades.DueIsFilled | src/firmquant/broker/paper.py:773-817 | a match of an open order makes exactly the fill that is due, charged, valued, recorded and told, or the settlement refuses it |
| PaperTrades.NothingDue | src/firmquant/broker/paper.py:731-772 | where nothing is due, and for a closed order, a match changes nothing but a reason |
| PaperTrades.StepTrades | src/firmquant/broker/paper.py:229-839 | any call adds at most one fill, and only one that was due to the order it is for |
| PaperTrades.OnlyDueTrades | src/firmquant/broker/paper.py:229-839 | over every run each fill was made by one call, to a connected and undegraded broker, while its order was tradable and the fill due; fills are never removed |
| PaperTrades.SubmissionRecords | src/firmquant/broker/paper.py:495-534 | a first submission is rejected, with a true reason and no trade, exactly when the order is not tradable as things stand; the first event told is that record |
| PaperTrades.SubmissionTrades | src/firmquant/broker/paper.py:526-534 | what is due to a first submission is filled by the same call, once its acknowledgement was taken |
| PaperCalls.CancelExactly | src/firmquant/broker/paper.py:819-839 | a cancellation of an open order makes it CANCELLED with its filled shares, tells exactly that, touches no other order, and returns it or the delivery failure |
| PaperCalls.CancelOfClosed | src/firmquant/broker/paper.py:829-830 | a closed order is handed back unchanged |
| PaperCalls.CancelledForGood | src/firmquant/broker/paper.py:819-839 | after a cancellation no run adds a fill for the order or changes it |
| PaperCalls.UnreadyStandsStill | src/firmquant/broker/paper.py:244-246 | disconnected or degraded, submit, match and cancel raise and change nothing |
| PaperCalls.DegradedIsStill | src/firmquant/broker/paper.py:358-366 | after a failed delivery no run without a new subscription changes anything but market and connection |
| PaperCalls.QuoteExactly | src/firmquant/broker/paper.py:309-323 | a quote is accepted exactly when it is of a known instrument and its session and does not go back behind the standing one or differ from it under its sequence |
| PaperCalls.QuotesMoveOn | src/firmquant/broker/paper.py:309-323 | over every run a symbol's quote in its session only moves to later sequences |
| PaperCalls.PendingInOrder | src/firmquant/broker/paper.py:339-356 | over every run what is pending stays in the order it was told |
| PaperCalls.RecoveryExactly | src/firmquant/broker/paper.py:290-307 | a subscription hands over what is pending in order; all taken, the broker is well again and everything ever told is delivered, else it is degraded and all stays pending |
| PaperLimits.OversizedSaleIsStuck | src/firmquant/broker/paper.py:488-492 | an open sale asking for more than is sellable gets no fill in any later run, whatever is called |
| PaperLimits.SettlementBreaks | src/firmquant/broker/paper.py:678-699 | a run from a fresh broker to a settlement that fails after its position was changed |
| PaperLimits.PartialSaleIsStuck | src/firmquant/broker/paper.py:488-492 | a run from a fresh broker to a sale filled in part and never again, whatever is called later |
| PaperLimits.QuoteBreaksBudget | src/firmquant/broker/paper.py:309-323 | a run from a fresh broker past the participation limit, by a later quote with less volume |
| PaperBroker.SumMarketValues | src/firmquant/broker/paper.py:700-702 | the loop over positions is the sum of market values, in whatever order they are visited |
| PaperBroker.PaperBroker.constructor | src/firmquant/broker/paper.py:149-170 | a fresh broker: given books and market, nothing submitted, told or connected |
| PaperBroker.PaperBroker.Emit | src/firmquant/broker/paper.py:339-356 | an event goes to the sink, or into the outbox when there is none or it raises, and a failure is latched |
| PaperBroker.PaperBroker.RecordOrder | src/firmquant/broker/paper.py:414-438 | the order fact, its reason, the next sequence number and its event, and nothing else |
| PaperBroker.PaperBroker.MovePosition | src/firmquant/broker/paper.py:649-698 | the position branch of a settlement: blended cost or reduced shares, deletion at zero, or an error with positions untouched |
| PaperBroker.PaperBroker.ApplyEconomics | src/firmquant/broker/paper.py:649-707 | the books after one fill equal the settlement function, including the state left by a failure half-way |
| PaperBroker.PaperBroker.PlanFill | src/firmquant/broker/paper.py:731-772 | reason, price or quantity decided for an open order |
| PaperBroker.PaperBroker.StrikeFill | src/firmquant/broker/paper.py:773-794 | match count, fill identity and settlement of one fill |
| PaperBroker.PaperBroker.FinishFill | src/firmquant/broker/paper.py:795-817 | recording and telling a settled fill |
| PaperBroker.PaperBroker.Fill | src/firmquant/broker/paper.py:773-817 | both halves together |
| PaperBroker.PaperBroker.MatchCurrent | src/firmquant/broker/paper.py:723-817 | a match against the current quote |
| PaperBroker.PaperBroker.SetQuote | src/firmquant/broker/paper.py:309-323 | accepts a quote exactly when the session and sequence rules hold |
| PaperBroker.PaperBroker.Match | src/firmquant/broker/paper.py:709-817 | a match, with or without a new quote, refines the desk step in state and result |
| PaperBroker.PaperBroker.CancelOrder | src/firmquant/broker/paper.py:819-839 | so does a cancellation |
| PaperBroker.PaperBroker.Admit | src/firmquant/broker/paper.py:507-531 | so does the admission of a command |
| PaperBroker.PaperBroker.SubmitOrder | src/firmquant/broker/paper.py:495-534 | so does a submission, including its immediate match and a callback failure in between |
| PaperBroker.PaperBroker.Subscribe | src/firmquant/broker/paper.py:290-307 | pending events are redelivered in order; the outbox is emptied only when all were taken |
| PaperRefinement.StoryFollowed | src/firmquant/broker/paper.py:495-839 | an aggregate in SUBMITTING fed the events of one order in order ends with its fills, shares, broker id and state |
| PaperRefinement.BrokerOrderIsMirrored | src/firmquant/domain/orders.py:410-590 | refinement: after any run of the broker, fed that order's events with arbitrary repeats, the aggregate refuses nothing, has equal filled shares, and stands in the broker's status |
| PaperRefinement.BrokerOrderIsMirroredInAnyOrder | src/firmquant/broker/paper.py:290-307 | the same for any permutation of the events with any repeats, whatever became of the order, cancelled and rejected ones included; the flag is set exactly when a fill is first delivered after the cancellation |
| CloseLedger.Load | src/firmquant/application/close_checkpoint.py:67-100 | the checkpoint of a session and step, if one is on record |
| CloseLedger.StepsArePrefix | src/firmquant/application/close_checkpoint.py:102-108 | recorded steps of a session are always a prefix of the step order |
| CloseLedger.LoadLasts | src/firmquant/application/close_checkpoint.py:129-133 | a checkpoint once readable reads the same for ever: evidence is write-once |
| CloseInvariant.ReceiptKeeps | src/firmquant/application/close_checkpoint.py:110-152 | a checkpoint that fits the earlier ones keeps the invariant |
| CloseInvariant.MoveKeeps | src/firmquant/application/production_services.py:723-728 | an account write by decision, sync or others keeps it |
| CloseInvariant.StoreKeeps | src/firmquant/application/production_services.py:753-763 | storing the decision before the account write keeps it |
| CloseTheorems.AppendKeeps | src/firmquant/application/close_checkpoint.py:110-152 | appending in order adds one receipt or repeats equal evidence; it never contradicts |
| CloseTheorems.RecoverKeeps | src/firmquant/application/production_services.py:700-741 | an attempt that finds a stored decision only completes its account write and returns 0; a recovery that hands back another account raises after that write |
| CloseTheorems.CommitKeeps | src/firmquant/application/production_services.py:742-784 | a first attempt stores the decision, moves the account by compare-and-swap and returns 1 |
| CloseTheorems.PostCloseKeeps | src/firmquant/application/production_services.py:692-784 | the count returned is the number of decisions added |
| CloseTheorems.FinishKeeps | src/firmquant/application/production_services.py:1376-1450 | report, backup and completion carry the ids of the decision checkpoint |
| CloseTheorems.CloseRunKeeps | src/firmquant/application/production_services.py:1292-1450 | one attempt, dying after any durable write, keeps the invariant, loses nothing durable and reports no contradiction |
| CloseTheorems.Play | src/firmquant/application/production_services.py:1292-1450 | so does every schedule of attempts, crashes and foreign account writes |
| CloseTheorems.OneDecisionPerSession | src/firmquant/application/production_services.py:1345-1363 | decision counts returned over all attempts total at most one, and at most one decision is on record |
| CloseTheorems.CompletedRepeatsEvidence | src/firmquant/application/production_services.py:1438-1449 | COMPLETED repeats the reconciliation, manifest, decision, report and backup ids of the earlier checkpoints, and that decision is the only one |
| CloseTheorems.DecisionAppliedExactlyOnce | src/firmquant/application/production_services.py:764-771 | the account goes from a recorded decision's before-hash to its after-hash exactly once unless somebody else writes one of the two hashes, and at worst once more per such return; the exact condition is in CloseOnce |
| CloseProgress.CompletesExactly | src/firmquant/application/production_services.py:703-710 | an undisturbed attempt completes exactly when the decision is recorded, or not yet stored, or the account stands where it starts or leads; otherwise it fails until somebody writes the account |
| CloseProgress.CompletesExactlyWhen | src/firmquant/application/production_services.py:1292-1450 | for all answers: an attempt that lives completes exactly when every step is on record or is answered to match, its reconciliations end as reviewed, and the decision can be made from the account found or its write redone |
| CloseEvidence.AttemptSaysAnswers | src/firmquant/application/production_services.py:1298-1450 | wherever an attempt ends, every checkpoint it wrote carries what the components answered in it |
| CloseEvidence.CompletesOnlyAnswered | src/firmquant/application/production_services.py:1292-1450 | an attempt completes only if each step was on record or answered, the report naming the decision |
| CloseEvidence.MismatchStopsClose | src/firmquant/application/production_services.py:1383-1385 | a report about another decision stops the close: no report, backup or completion is recorded |
| CloseAudit.AuditedExactly | src/firmquant/application/production_services.py:730-784 | an attempt that records the decision leaves it audited exactly when it was audited before or this attempt wrote the account for it |
| CloseAudit.NeverAudited | src/firmquant/application/production_services.py:707-710 | a run that closes a session and leaves its applied decision without an audit entry |
| CloseOnce.AttemptAppliesExactly | src/firmquant/application/production_services.py:692-784 | no attempt writes the account for a decision more than once, none does once it is recorded, and an undisturbed one does so exactly when the decision is not recorded and the account it will find is where the stored decision starts, or none is stored yet |
| CloseOnce.AppliedIsRecorded | src/firmquant/application/production_services.py:1345-1374 | an undisturbed attempt that applies the decision also records it |
| CloseOnce.RecordedIsFinal | src/firmquant/application/production_services.py:1345-1363 | a decision recorded as committed is never applied again, in any schedule of attempts, crashes and foreign writes |
| CloseOnce.LivingRunsApplyOnce | src/firmquant/application/production_services.py:1292-1450 | whatever crashes left behind, from there on attempts that live apply a decision once if some attempt finds it to apply, never otherwise and never twice |
| CloseOnce.DecisionAppliedTwice | src/firmquant/application/production_services.py:705-728 | a run of two close attempts from an empty ledger, the first dying after its account write, on which one decision is applied twice |
| CloseOnce.CloseStuck | src/firmquant/application/production_services.py:703-710 | a run from an empty ledger after which no attempt completes while the broker answers with any other account |
| CloseService.CloseDatabase.constructor | src/firmquant/application/close_checkpoint.py:62-65 | an empty ledger satisfies the invariant |
| CloseService.CloseDatabase.RequirePredecessors | src/firmquant/application/close_checkpoint.py:102-108 | the loop succeeds exactly when every earlier step has its checkpoint |
| CloseService.CloseDatabase.Append | src/firmquant/application/close_checkpoint.py:110-152 | refines the checked, write-once append |
| CloseService.CloseDatabase.LatestIncompleteSession | src/firmquant/application/close_checkpoint.py:157-174 | the latest session with a checkpoint and no completion, if any |
| CloseService.CloseDatabase.Reconcile | src/firmquant/application/production_services.py:475-558 | an account sync and its receipt; the exceptions before the account write and those after it |
| CloseService.CloseDatabase.PostCloseDecision | src/firmquant/application/production_services.py:692-784 | refines decide-once and recovery, including the mismatch raised after the account write |
| CloseService.CloseDatabase.CommitDecision | src/firmquant/application/production_services.py:742-784 | store, compare-and-swap and audit as three durable writes |
| CloseService.CloseDatabase.ReportSession | src/firmquant/application/production_services.py:1376-1396 | refines the report stage |
| CloseService.CloseDatabase.BackUpSession | src/firmquant/application/production_services.py:1398-1436 | refines the backup stage |
| CloseService.CloseDatabase.ValidateData | src/firmquant/application/production_services.py:1327-1343 | refines the data stage |
| CloseService.CloseDatabase.FinishSession | src/firmquant/application/production_services.py:1376-1450 | refines report, backup and completion |
| CloseService.CloseDatabase.DecideSession | src/firmquant/application/production_services.py:1345-1374 | refines the decision stage, reconciling afresh on a resumed close |
| CloseService.CloseDatabase.CloseSession | src/firmquant/application/production_services.py:1292-1450 | refines one attempt, keeps the invariant and loses no receipt or decision |
| CloseService.CloseDatabase.ResumeIncompleteClose | src/firmquant/application/production_services.py:614-624 | resumes the latest incomplete session and only that |
| RuntimeStates.ReadyOnlyThroughReconciling | src/firmquant/domain/states.py:24-62 | from HALTED every run reaches READY only after RECONCILING |
| RuntimeStates.RevisionsAscend | src/firmquant/domain/states.py:105-128 | revisions count transitions and never fall; an equal revision is an equal status |
| ControlConvergence.MoveStays | src/firmquant/application/runtime_control.py:263-280 | a guarded transition on the way to a command's end neither fails nor leaves the way |
| ControlConvergence.TripStays | src/firmquant/application/runtime_control.py:291-333 | a trip row is written at most once per request |
| ControlConvergence.AuditStays | src/firmquant/application/runtime_control.py:335-366 | an audit row is written at most once per request |
| ControlConvergence.HaltAttempt | src/firmquant/application/runtime_control.py:108-151 | HALT from each of the eight states, dying after any write: never an illegal transition, and if it ends it ends HALTED without leases |
| ControlConvergence.DisarmAttempt | src/firmquant/application/runtime_control.py:153-189 | the same for DISARM |
| ControlConvergence.StopAttempt | src/firmquant/application/runtime_control.py:223-261 | the same for STOP, which ends STOPPING |
| ControlConvergence.CancelAttempt | src/firmquant/application/runtime_control.py:191-221 | CANCEL_SYSTEM_ORDERS leaves state, leases and trip rows alone, and at most one audit row |
| ControlConvergence.CrashedAttemptsStay | src/firmquant/application/runtime_control.py:108-261 | any number of crashed attempts keeps the way to the end and at most one row of each kind |
| ControlConvergence.CrashesDoNotMatter | src/firmquant/application/runtime_control.py:108-366 | after any crashes one more execution reaches the state, blockers, revision and rows of an undisturbed one, and the empty lease set unless the command is a cancel, with exactly one audit row and for HALT one trip row |
| ControlConvergence.RevocationsReported | src/firmquant/application/runtime_control.py:282-289 | the number of revoked leases a rerun reports is that of an undisturbed command exactly when the earlier attempt wrote nothing or there was no lease |
| KillSwitch.LatestIsLast | src/firmquant/application/operations.py:700-707 | with times in order the newest row is the last one |
| KillSwitch.MoveIsSafe | src/firmquant/application/operations.py:1147-1165 | a transition issues no lease and numbers its audit rows by the new revision |
| KillSwitch.ResumeIsSafe | src/firmquant/application/operations.py:1344-1490 | a resume writes a reset only when confirmed, halted, tripped and passed by its reconciliation |
| KillSwitch.ReconcileIsSafe | src/firmquant/application/operations.py:1508-1599 | a reconciliation writes no trip or reset row and issues no lease |
| KillSwitch.ArmIsSafe | src/firmquant/application/operations.py:1000-1145 | arming writes no trip or reset row and keeps the safety invariant |
| KillSwitch.PlayIsSafe | src/firmquant/application/operations.py:1000-1599 | over every interleaving of commands and crashes on a non-decreasing clock: tripped by a row implies no lease that is not revoked; for trips by the blocker see KillSwitchBlocker |
| KillSwitch.RowsLast | src/firmquant/application/operations.py:1272-1339 | trip and reset rows are never lost |
| KillSwitch.NoLeaseUntilPassedResume | src/firmquant/application/production_services.py:796-838 | after a trip with a row no lease is alive, so none loads for live execution, until a confirmed resume whose reconciliation passed has written its reset; the converse is TripHoldsExactly |
| KillSwitch.LeaseOnlyByArm | src/firmquant/application/operations.py:1014-1060 | a lease appears only by arming, in READY, untripped, with every further gate open |
| KillSwitch.HaltTrips | src/firmquant/application/runtime_control.py:291-333 | without ordered times a completed halt reads back as tripped exactly when it was tripped, or its row is new and no later-dated row exists |
| KillSwitch.ReconcileForgetsBlocker | src/firmquant/application/operations.py:1508-1545 | one way to lose a trip known only by the status blocker: a reconciliation that dies after its first write; one with a row is not lost |
| KillSwitchBlocker.PlayIsGuarded | src/firmquant/application/operations.py:1000-1599 | over every run, crashes included, a status that blocks on the kill switch goes with no live lease and is never READY |
| KillSwitchBlocker.TrippedMeansNoLease | src/firmquant/application/operations.py:700-707 | over every run a kill switch that reads as tripped, by row or by blocker, means that no lease loads |
| KillSwitchBlocker.TripHoldsExactly | src/firmquant/application/operations.py:700-707 | from a tripped state no run without a passed resume loads a lease exactly when the trip has a row |
| KillSwitchBlocker.TripWithoutRowIsLost | src/firmquant/application/production_services.py:591-598 | a run from the first start: a HALT dies between its status and its row, and commands without a resume then load a lease |
| ControlOperator.LatestExactly | src/firmquant/application/operations.py:700-707 | the row that decides is the newest by time, and among equals the last written |
| ControlOperator.OperatorHaltCrashes | src/firmquant/application/operations.py:1272-1339 | every crash point of the operator's halt: nothing, then no lease, then each status on the way to HALTED, the trip row last |
| ControlOperator.OperatorHaltExactly | src/firmquant/application/operations.py:1272-1339 | from each of the eight states it ends HALTED with the old blockers and the kill switch, no lease and its trip row; it then reads as tripped exactly when no row is dated later or the newest was a trip |
| ControlOperator.ResumeRefused | src/firmquant/application/operations.py:1344-1363 | a resume without confirmation or outside HALTED changes nothing |
| ControlOperator.ResumeExactly | src/firmquant/application/operations.py:1344-1490 | a confirmed resume of a halted runtime ends READY, unblocked, with the reset of a tripped switch, exactly when its reconciliation passed; any other ends HALTED with what was objected and the kill switch if tripped, and raises |
| ControlOperator.ReconcileExactly | src/firmquant/application/operations.py:1508-1599 | a manual reconciliation ends READY exactly when it passed, nothing was tripped and the runtime was neither halted nor stopping; else HALTED with its reasons |
| ControlOperator.OperatorDisarmExactly | src/firmquant/application/operations.py:1216-1270 | from every state it ends DISARMED without leases, blocked by the kill switch exactly when tripped |
| ControlOperator.FinalizeExactly | src/firmquant/application/runtime_control.py:91-106 | the end of a stop disarms a stopping runtime, keeps only the kill switch as blocker, and leaves others alone |
| ControlOperator.ArmExactly | src/firmquant/application/operations.py:1014-1145 | arming succeeds exactly when READY, untripped and every further gate open, and leaves its lease as the only one; refused, it changes nothing |
| ControlOperator.ExecutedExactly | src/firmquant/application/runtime_control.py:108-261 | where the executor's commands end from each state, with blockers, leases and rows |
| ControlOperator.ReadyOnlyAfterPass | src/firmquant/application/operations.py:1344-1599 | over every run without moves by services, a runtime that was not READY is READY only after a reconciliation that passed |
| ControlAudit.EveryTransitionAudited | src/firmquant/application/operations.py:1147-1165 | over every run with crashes anywhere no audit is lost and every revision of the runtime has its entry |
| ControlService.ControlDatabase.SaveRuntime | src/firmquant/application/operations.py:1147-1165 | compare-and-swap of the runtime row: a conflict exactly when the status changed, else row, sweep on HALTED and audit together |
| ControlService.ControlDatabase.RevokeArm | src/firmquant/application/runtime_control.py:282-289 | revokes every lease in one transaction |
| ControlService.ControlDatabase.MoveTo | src/firmquant/application/runtime_control.py:263-280 | a legal transition, or none when nothing changes, or a refusal |
| ControlService.ControlDatabase.TripOnce | src/firmquant/application/runtime_control.py:291-333 | a trip row unless the request has one |
| ControlService.ControlDatabase.AppendAudit | src/firmquant/application/runtime_control.py:335-366 | an audit row unless it is there |
| ControlService.ControlDatabase.Halt | src/firmquant/application/runtime_control.py:108-151 | refines HALT; when it ends the runtime is HALTED, blocked and without leases |
| ControlService.ControlDatabase.Disarm | src/firmquant/application/runtime_control.py:153-189 | refines DISARM; when it ends the runtime is DISARMED without leases |
| ControlService.ControlDatabase.Stop | src/firmquant/application/runtime_control.py:223-261 | refines STOP; the stop flag is raised exactly when it ends |
| ControlService.ControlDatabase.Cancel | src/firmquant/application/runtime_control.py:191-221 | refines the audit of CANCEL_SYSTEM_ORDERS |
| ControlService.ControlDatabase.FinalizeStop | src/firmquant/application/runtime_control.py:91-106 | refines the end of a stop and clears the flag |
| ControlService.ControlDatabase.KillSwitchTripped | src/firmquant/application/operations.py:700-707 | the code of the newest trip or reset row decides, else the status blocker |
| ControlService.ControlDatabase.TransitionHalted | src/firmquant/application/operations.py:1176-1214 | refines the way into HALTED |
| ControlService.ControlDatabase.OperatorHalt | src/firmquant/application/operations.py:1272-1339 | refines the operator's halt and keeps the safety invariant |
| ControlService.ControlDatabase.OperatorDisarm | src/firmquant/application/operations.py:1216-1270 | refines the operator's disarm and keeps it |
| ControlService.ControlDatabase.Resume | src/firmquant/application/operations.py:1344-1490 | refines resume and keeps it |
| ControlService.ControlDatabase.Reconcile | src/firmquant/application/operations.py:1508-1599 | refines the manual reconciliation and keeps it |
| ControlService.ControlDatabase.ArmLive | src/firmquant/application/operations.py:1000-1145 | refines arming and keeps it |
| InboxFacts.AnsweredPoisonExactly | src/firmquant/application/control_channel.py:409-415 | exactly when an answered request still in the directory makes a batch raise: expired with another receipt than its rejection, or answered for other contents |
| InboxFacts.RunAndExpiredIsPoison | src/firmquant/application/control_channel.py:495-527 | a request run, recorded, left by a crash and then expired stops every later batch |
| InboxFacts.LetThroughExactly | src/firmquant/application/control_channel.py:443-493 | a file is let through exactly when it holds a request under its own name, for this host, begun, not expired, and of at most a quarter of an hour |
| InboxFacts.InOrderExactly | src/firmquant/application/control_channel.py:416-420 | batch order is halts, then disarms, cancels and stops, each by age and id |
| InboxFacts.SortSorts | src/firmquant/application/control_channel.py:416-418 | a batch is in priority, age and id order and is the whole batch |
| ControlInbox.RunAccounted | src/firmquant/application/control_channel.py:421-434 | a run counts once with its receipt, or once as lost: its handler raised or its process died before the receipt |
| ControlInbox.ControlInbox.constructor | src/firmquant/application/control_channel.py:295-317 | empty directories satisfy the invariant: every queued id waits or is answered, and calls are receipts plus runs lost to a raising handler or a crash |
| ControlInbox.ControlInbox.Enqueue | src/firmquant/application/control_channel.py:330-364 | queues once; refuses a bad lifetime, a colliding and a waiting id; an answered one is returned |
| ControlInbox.ControlInbox.WriteReceipt | src/firmquant/application/control_channel.py:518-527 | a receipt is written once and never overwritten; a different one raises |
| ControlInbox.ControlInbox.Reject | src/firmquant/application/control_channel.py:495-516 | receipt then unlink; raises exactly when the rejection's receipt is taken by something else |
| ControlInbox.ControlInbox.ScreenOne | src/firmquant/application/control_channel.py:443-516 | one file: refused, dropped as answered, or kept to run; raises exactly at a poisoned file |
| ControlInbox.ControlInbox.Screen | src/firmquant/application/control_channel.py:393-415 | the first pass leaves exactly the actionable requests not answered yet, and raises only if some file is poisoned |
| ControlInbox.ControlInbox.RunOne | src/firmquant/application/control_channel.py:421-436 | handler, receipt, unlink, never for an answered id |
| ControlInbox.ControlInbox.RunBatch | src/firmquant/application/control_channel.py:421-439 | the batch is run in order, a prefix of it when a handler raises or the process dies; receipts and flags are those of what was run |
| ControlInbox.ControlInbox.ProcessPending | src/firmquant/application/control_channel.py:384-441 | the batch is exactly the actionable requests not answered yet, halts first, no id twice; the receipts returned are those written, the halt and stop flags those of some handler run; given life and a handler that never raises the directory is drained exactly when no file is poisoned |
| ControlInbox.RunAndLeave | src/firmquant/application/control_channel.py:421-436 | a run from an empty directory to a file that stops every batch from its expiry on |
| ControlPlane.ExecuteCounts | src/firmquant/application/runtime_control.py:335-366 | executing a request leaves the audit rows of all other requests alone and its own at one at most, exactly one when it ends |
| ControlPlane.ControlPlane.constructor | src/firmquant/application/control_channel.py:295-317 | an empty inbox before a fresh database satisfies the joint invariant |
| ControlPlane.ControlPlane.Serve | src/firmquant/application/control_channel.py:421-434 | a request run by the executor and recorded keeps the joint invariant: a request recorded as run has exactly one audit row |
| ControlPlane.ControlPlane.ProcessPending | src/firmquant/application/control_channel.py:384-441 | consuming the inbox, however often processes died before: the batch is exactly the actionable requests not answered yet, halts first, and each ends recorded with exactly one audit row, the directory empty |
| DecimalText.PrintReadsBack | src/firmquant/application/execution_evidence.py:79-80 | parsing the fixed-point text of a decimal gives it back with a positive exponent written out |
| DecimalText.FixedIsSame | src/firmquant/application/promotion_store.py:57-66 | that form has the same value and text, and is identical exactly without a positive exponent |
| EvidenceRoundTrip.DecimalRoundTrip | src/firmquant/application/promotion_store.py:57-66 | the same through JSON |
| EvidenceRoundTrip.IdentityRoundTrip | src/firmquant/application/promotion_store.py:85-107 | a valid identity decodes to itself |
| EvidenceRoundTrip.OrderRoundTrip | src/firmquant/application/promotion_store.py:110-121 | a valid order decodes to itself, decimals in fixed form |
| EvidenceRoundTrip.TargetRoundTrip | src/firmquant/application/promotion_store.py:133-140 | so does a target |
| EvidenceRoundTrip.FillRoundTrip | src/firmquant/application/promotion_store.py:143-156 | so does a fill |
| EvidenceRoundTrip.ListsRoundTrip | src/firmquant/application/promotion_store.py:183-205 | so do the nested lists |
| EvidenceRoundTrip.ObservationRoundTrip | src/firmquant/application/promotion_store.py:167-214 | decoding the payload of any valid observation succeeds with equal values, re-encoding gives the same payload and digested content, and the observation is identical exactly when no decimal has a positive exponent |
| EvidenceTally.TotalOfJoined | src/firmquant/application/execution_evidence.py:518-534 | all sums and counts of joined observations add up |
| EvidenceTally.TotalPermutes | src/firmquant/application/execution_evidence.py:518-538 | and do not depend on their order |
| EvidenceAggregate.AggregatesExactly | src/firmquant/application/execution_evidence.py:488-505 | aggregation succeeds exactly on a non-empty set of one stage and deployment with distinct sessions; a duplicate session is reported exactly when that is all that is wrong |
| EvidenceAggregate.AggregatePermutes | src/firmquant/application/execution_evidence.py:488-565 | success and every value are invariant under permutation |
| EvidenceAggregate.MeansWithinMaximum | src/firmquant/application/execution_evidence.py:536-538 | mean and notional-weighted error lie between zero and the maximum |
| EvidenceAggregate.AggregateAdds | src/firmquant/application/execution_evidence.py:539-565 | counts, money and blockers add over disjoint sets, the maximum and the latest session are the larger ones, and parts of an acceptable whole are acceptable |
| EvidenceAggregate.MaximumExactly | src/firmquant/application/execution_evidence.py:536-536 | the maximum is within a limit exactly when every target's error is |
| EvidenceAggregate.CleanExactly | src/firmquant/application/execution_evidence.py:454-462 | the aggregate is clean, or free of rejections, exactly when every session is |
| EvidenceAggregator.EndingShares | src/firmquant/application/execution_evidence.py:471-471 | the dictionary of ending shares, the last entry of a symbol counting |
| EvidenceAggregator.TrackingErrors | src/firmquant/application/execution_evidence.py:465-485 | one error per target, and the weighted sums |
| EvidenceAggregator.TallyOrders | src/firmquant/application/execution_evidence.py:523-528 | unfilled notional, partial fills and blockers of the orders |
| EvidenceAggregator.TallyFills | src/firmquant/application/execution_evidence.py:529-533 | costs of the fills |
| EvidenceAggregator.SortSorts | src/firmquant/application/execution_evidence.py:507-507 | sorting by session keeps all observations |
| EvidenceAggregator.CheckDeployment | src/firmquant/application/execution_evidence.py:493-503 | the loop reports the earliest misfit, and which kind it is |
| EvidenceAggregator.Accumulate | src/firmquant/application/execution_evidence.py:518-533 | the accumulation is the order-free total, errors listed |
| EvidenceAggregator.AggregateObservations | src/firmquant/application/execution_evidence.py:488-565 | checks, sort, accumulation and averages return what the order-free definition says, or its error |
| EvidenceStore.Find | src/firmquant/application/execution_evidence.py:585-588 | a row under a key, if there is one |
| EvidenceStore.SelectedIsValid | src/firmquant/application/promotion_store.py:245-259 | whatever is read back passed the constructor checks |
| EvidenceStore.PromotionStore.Append | src/firmquant/application/execution_evidence.py:581-612 | refines append: new, known or conflicting |
| EvidenceStore.PromotionStore.Observations | src/firmquant/application/promotion_store.py:229-259 | the loop yields the deployment's observations, or fails at the first row it cannot decode |
| EvidenceStore.PromotionStore.Aggregate | src/firmquant/application/promotion_store.py:261-277 | none without observations, else their aggregate |
| EvidenceStore.PromotionStore.Qualifies | src/firmquant/application/promotion_store.py:279-319 | the qualification rule |
| EvidenceTracking.HoldsExactly | src/firmquant/application/execution_evidence.py:466-475 | the shares taken as held are those of the symbol's entry in the stage's own positions, and none without an entry |
| EvidenceTracking.ErrorIsGap | src/firmquant/application/execution_evidence.py:476-479 | a tracking error times the equity is the distance between the money aimed at and the money held; it is zero exactly when they agree |
| EvidenceTracking.QualifiesByHoldings | src/firmquant/application/promotion_store.py:279-319 | a deployment qualifies exactly when it has enough sessions, orders and fills, and each session has no unknown, external, duplicate or failed item, in CANARY no rejection, and every target held to within the limit |
| EvidenceTracking.NeglectedNeverQualifies | src/firmquant/application/promotion_store.py:306-319 | a deployment with a session that holds nothing of a target weighing more than the limit never qualifies, whatever else is stored |
| EvidenceTotals.AggregateAddsUp | src/firmquant/application/execution_evidence.py:508-565 | every field of the aggregate is the sum, count, average or maximum over all targets, orders and fills of all sessions, or the data of the latest session |
| EvidenceQualification.AppendKeeps | src/firmquant/application/execution_evidence.py:581-612 | appending keeps the store decodable with distinct keys |
| EvidenceQualification.ContentIsFaithful | src/firmquant/application/execution_evidence.py:413-416 | equal digests mean one observation, up to its creation time and the way its decimals are written |
| EvidenceQualification.AppendExactly | src/firmquant/application/execution_evidence.py:585-612 | true exactly for a new key, conflict exactly for other content under a known key; a repeat returns false and changes nothing |
| EvidenceQualification.SelectsExactly | src/firmquant/application/promotion_store.py:239-259 | a store written by appending is read without failure, and yields one identity with distinct sessions |
| EvidenceQualification.StoredAggregates | src/firmquant/application/promotion_store.py:270-277 | so aggregation never meets a duplicate session or a mixed identity |
| EvidenceQualification.AppendedStoreAggregates | src/firmquant/application/promotion_store.py:226-277 | whatever is appended to an empty store, with repeats and conflicts |
| EvidenceQualification.QualifiesExactly | src/firmquant/application/promotion_store.py:279-319 | a deployment qualifies exactly when it has the sessions, orders and fills asked for and every one of its sessions is clean, within the error limit and, in CANARY, without rejection |
| EvidenceQualification.SelectedOnlyGrows | src/firmquant/application/promotion_store.py:239-259 | what is read for a deployment only grows |
| EvidenceQualification.DisqualifiedForGood | src/firmquant/application/promotion_store.py:306-319 | once the evidence is unclean, beyond the limit or, in CANARY, rejected, no further appends make it qualify |
| EvidenceQualification.QualifiedUntilAFailure | src/firmquant/application/promotion_store.py:306-319 | and once qualified it stays so until a session of its own fails |
| EvidenceQualification.SameTally | src/firmquant/application/promotion_store.py:167-214 | what is summed over decoded observations is what was summed over the given ones |
| EvidenceQualification.ArrivalOrderIsForgotten | src/firmquant/application/promotion_store.py:239-277 | sessions under different keys may be stored in any order: aggregate and qualification are the same |

## Left out

- PaperBroker.PaperBroker.constructor: takes facts that passed the source's checks on duplicate and missing metadata and on the account type; those checks are not modelled.
- PaperBroker.PaperBroker.SubmitOrder: a sink that calls back into the broker while it is told an event is not modelled.
- PaperTheorems.ResubmissionIsNoOp: terms are compared without the number of places the limit price was written with, as the source compares canonical prices.
- CloseTheorems.CloseRunKeeps: CANARY finalisation inside the close is not modelled, and the account operation's intermediate rows are one atomic compare-and-swap.
- CloseService.CloseDatabase.PostCloseDecision: the comparison of the persisted account's hash after a first commit is not modelled, as the adapter hands back the account it was given.
- ControlConvergence.CrashesDoNotMatter: lease expiry is not modelled; a lease is alive until it is revoked, and an expired request is refused by the inbox before it gets here.
- KillSwitch.LeaseOnlyByArm: mode, receipts, readiness, open orders, secret and confirmation are one input that stands for all further gates of arming.
- ControlInbox.ControlInbox.ProcessPending: the handler is an input that answers or raises; in ControlPlane it is the executor.
- InboxFacts.AnsweredPoisonExactly: a request file whose timestamps are spelt otherwise than the program writes them is not modelled.
- EvidenceRoundTrip.ObservationRoundTrip: timestamps are kept as their ISO text, and dates as the number of their day.
- EvidenceStore.PromotionStore.Append: audit events of other categories share the table in the source but not their ids, and are left out.
- ControlService.ControlDatabase.Cancel: only the audit row is modelled; the order cancellations themselves are calls to the broker SDK.
- The source's type checks on arguments and on what its ports hand back, such as RECONCILIATION_RESULT_INVALID.
- The 28-digit decimal context and the limits on integer digits: arithmetic is exact apart from the rounding written in the source.
- SQLite, the audit hash chain, file modes, links and synchronisation to disk: a transaction or file operation is atomic, by one writer.
- The planner, risk gate, strategy adapter, fee schedule internals, XtQuant adapters, reports, backups, command line and data flows.
