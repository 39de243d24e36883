# Verified model of the ERP back end: inventory costing, reservations, billing, export and job history

This project models the parts of the repository whose correctness spans many transactions, and proves
what those transactions promise together. `dafny verify dfyconfig.toml` checks all of it.

## What is modelled

- **Inventory ledger** (`Fifo`, `InventoryLedger`, `LedgerInvariants`, `LedgerSteps`, `LedgerRuns`): stock rows, FIFO cost
  layers, the movement log with before and after quantities, cost allocations, reservations and warehouse transfers. Each
  transaction is a function from books to an outcome; a rejected one leaves the books as they were. Every transaction is
  decomposed once into small steps, so an invariant is proved step by step and holds for every run. `StockMovements` says
  of each of them what it does, in terms of stock on hand, the queue of open layers and the movements written.
- **Configuring and valuing FIFO items** (`ConfigureValuation`, `ConfigureRuns`, `ValuationService`, `Valuation`): giving
  layers to an item that already has stock and a history, at any time between other transactions, and reporting what its
  layers are worth.
- **Replay** (`HistoricalFifo`, `HistoricalCosts`, `HistoricalReplay`, `ReplayCore`, `ReplayTheorem`, `ReplayAll`,
  `ReplayLimits`): rebuilding layers from a log, with the tolerances of the code, against the layers the live code keeps.
  `HistoryMeaning` says what the pass takes each kind of movement and its cost parts for.
- **Transfers** (`TransferProofs`, `TransferLifecycle`): receipts as slices of their shipment's cost, and the status of a
  transfer over its life.
- **Reservations, retail payment and the kitchen** (`ReservationProofs`, `ReservationMovements`, `OrderFrames`,
  `RetailOrder`, `RetailCancellation`, `RetailChanges`, `UntimelyExpiry`, `KitchenOrder`, `KitchenChanges`): what one
  order's transactions, repeated events, crashes, cancellations and expiries do while all other transactions go on.
- **Moving averages** (`MovingAverage`, `MovingAverageProofs`, `AverageChanges`, `AverageStore`), live and replayed.
- **Tables as mutable state** (`InventoryStore`, `AverageStore`, `Billing`, `PaymentService`, `InvoiceNumbering`,
  `JobHistoryService`): classes whose methods read and write rows in loops as the services do, each proved to leave the
  state that the corresponding specification gives. A transaction method rolls back when a step fails.
- **Payment provider protocol** (`Billing`, `PaymentProtocol`, `PaymentSafety`, `PaymentWebhooks`, `PaymentFailures`):
  any number of concurrent callers with positions between their transactions, a provider that accepts, rejects or
  leaves the caller in doubt, lost replies, writes whose commit is not reported, crashes, cancellation, manual
  settlement, failures and webhooks.
- **Invoice numbering** (`InvoiceNumbering`, `BilledPeriods`), **CSV export** (`InvoiceExport`), **job history**
  (`JobHistory`, `JobLife`, `JobHistoryService`).

## Reading the model

- Each database transaction is one step; crashes and interleavings happen between transactions.
- Costs and quantities are exact reals. The tolerances 1e-6 of the replays and 1e-9 of the receipts are kept.
- Ids of movements, layers, transfers and invoices are positions in their tables, so table order is creation order, which
  is the order the queries sort by.
- Specification functions fold from the end of a list, so that a loop's invariant is the function of the part it has seen.

## Where the code and its promises part

Each of these is proved, with the condition under which the promise holds (an if-and-only-if where it says exactly) and
with an input or a run that breaks it.

- **Released reservations and the FIFO replay** (`ReplayAll.ReplayEqualsLive`, `ReplayLimits.ReleaseDiverges`). A
  release puts its units back at the front of the live queue, where they never left, but the replay appends them at the
  back without a cost. The replay is the live state again exactly when everything on hand at the latest release has been
  issued since.
- **Logs that start below zero** (`HistoricalFifo.ExactLogIff`, `NegativeOpeningOvercounts`). A log without gaps leaves
  layers for the stock plus the deficit it starts with, so they are the stock exactly when it does not start below zero.
  For logs with gaps inside the tolerances, `ReconciledDrift` bounds the difference.
- **Rebuilt layers of a configured item** (`ConfigureValuation.RebuiltCovers`, `ReconcilesIff`,
  `TinyReservationIsMissed`). A history reconciles exactly when no more than the tolerance of 1e-6 is still reserved
  from before its latest movement. If some of that was reserved before its first movement, the rebuilt layers leave it
  out; they cover the stock exactly when this does not happen, and are never short by more than the tolerance.
- **Payment success after a crash** (`RetailOrder.DeliveryCompletesIff`, `PaidCompletesIff`, `CrashLeavesPaid`). If a
  delivery stops after the order was marked paid and before it was fulfilled, the next delivery tries to mark a PAID
  order as paid and is refused, so the order never completes. Stock is still deducted exactly once.
- **Payment after a cancellation** (`RetailCancellation.LatePaymentDeducts`, `LatePaymentRefused`,
  `CancelledOrderUsesStock`, `KitchenOrder.PaidAfterCancellation`, `CancelledHoldsStock`). Reserving does not look at
  the order's status, so a payment event delivered after the cancellation takes the stock again exactly when there is
  enough of it; a retail order even commits it, and then nothing gives it back.
- **Expiries** (`KitchenOrder.ExpiryIsWholeIff`, `ExpirySplits`, `UntimelyExpiry.NeverWrongIffTimely`,
  `UntimelyIffGoesWrong`, `RetailCancellation.UntimelyExpiryDeductsTwice`). An expiry claims movements by age, not by
  order; a cafe order keeps all or nothing exactly when it does not claim part of its reservation. A retail order is
  moreover safe from deducting anything but nothing or its needs exactly when no expiry claims its reservation between
  the reserving and the committing of a delivery while it is unpaid: the delivery would sell the stock directly, and a
  repeated event would take it a second time.
- **Job outcomes** (`JobHistory.OutcomeLostIff`, `LostOutcomeKeepsItsEnd`, `SecondRunLosesOutcome`). An active event
  after a terminal one restarts the numbering at 1 and overwrites the earlier outcome, whose finishing time and error
  stay on the new active row.
- **Negative amounts in the CSV export** (`InvoiceExport.NumberIsDangerousIffNegative`) are not guarded, because only
  text is.
- **Failed payments** (`PaymentFailures.FailedEventIff`, `FailedEventIsLost`). The failed event of a manual failure is
  published by a transaction of its own. A failed invoice has its one event exactly when a webhook failed it or that
  transaction committed; a caller stopped between the two loses the event for good (`LostForGood`).

## Model

| member | source | states |
|---|---|---|
| `LedgerRuns.RunHealthy` | apps/api/src/modules/inventory/inventory-costing.service.ts:1244-1295 | Over any run of stock-in, adjust, waste, sell, reserve, commit, release, create, ship, receive and cancel: the log chains up to non-negative stock, and each configured item's layers hold exactly its stock plus its uncosted reservations |
| `LedgerRuns.StockIsAlwaysIssuable` | apps/api/src/modules/inventory/inventory-costing.service.ts:1289-1293 | After any run, a negative adjustment, an order line, a transfer line and a waste of at least one unit each succeed if and only if that much is on hand: none is ever refused because layers are missing |
| `LedgerRuns.CommitAlwaysCosted` | apps/api/src/modules/inventory/inventory-reservation.service.ts:248-311 | After any run, committing an order whose reserved items are configured always finds its layers and leaves no active reservation |
| `LedgerRuns.RunConservesValue` | apps/api/src/modules/inventory/inventory-costing.service.ts:944-1171 | Opening value plus everything bought is the value of the layers plus everything issued plus what is shipped and not yet received |
| `ConfigureValuation.ReconcilesIff` | apps/api/src/modules/inventory/inventory-costing.service.ts:200-344 | A history of movements reconciles if and only if no more than the tolerance is still reserved from before its latest movement, whatever its costs |
| `ConfigureValuation.RebuiltCovers` | apps/api/src/modules/inventory/inventory.repository.ts:346-364 | From any opening stock the layers rebuilt for a warehouse sum exactly to stock plus active reservations if and only if the history is anchored: unless it so reconciles, nothing is still reserved from before its first movement; they never fall short by more than the tolerance, and a history that starts from nothing is always anchored |
| `ConfigureValuation.TinyReservationIsMissed` | apps/api/src/modules/inventory/inventory.repository.ts:346-364 | It happens: a history behind a reservation of the size of the tolerance reconciles, and the rebuilt layers leave the reservation out |
| `ConfigureValuation.ConfigureSound` | apps/api/src/modules/inventory/inventory.repository.ts:213-500 | Configuring FIFO for an item with any stock, reservations and history keeps coverage for all other items and establishes it for this one if and only if its histories are anchored, which its log tells before configuring |
| `ConfigureRuns.MixedRunsCovered` | apps/api/src/modules/inventory/inventory.repository.ts:213-503 | Over any run in which items with anchored histories are configured at any time between other transactions, the layers cover every configured item and every debit succeeds if and only if there is enough on hand |
| `ConfigureRuns.ConfiguredIsIssuable` | apps/api/src/modules/inventory/inventory.repository.ts:477-503 | From its configuration on, through any such run, an item can be issued down to its last unit |
| `ConfigureRuns.ConfigureWorth` | apps/api/src/modules/inventory/inventory.repository.ts:477-503 | Configuring adds exactly the rebuilt layers at their known costs and their uncosted units at the opening cost of their warehouse |
| `ConfigureRuns.WorthSplits` | apps/api/src/modules/inventory/inventory.repository.ts:477-503 | Rebuilt layers are worth their known costs plus the opening cost of each unit that has none |
| `ConfigureRuns.EveryLayerIsPriced` | apps/api/src/modules/inventory/inventory.repository.ts:405-435 | A rebuilt layer without a cost is written only where an opening cost was given |
| `ConfigureRuns.OpeningCostsAreWritten` | apps/api/src/modules/inventory/inventory.repository.ts:477-503 | The live layers of a configured warehouse are the rebuilt ones in quantity and source, at their own cost or at the opening cost given for that warehouse |
| `ConfigureRuns.ConfigureAcceptedIff` | apps/api/src/modules/inventory/inventory.repository.ts:405-435 | Accepted if and only if the item is not configured and an opening cost is given for exactly the warehouses whose rebuilt layers have an uncosted unit; it closes exactly the active reservations of its completed orders |
| `ConfigureRuns.MixedRunsConserveValue` | apps/api/src/modules/inventory/inventory.repository.ts:213-503 | Value is conserved over such runs up to what configuring brings in |
| `ConfigureRuns.ReplayAfterConfiguring` | apps/api/src/modules/inventory/inventory-costing.service.ts:172-387 | Right after configuring, a replay finds the live layers unit for unit without the opening costs: exactly the live layers if and only if no opening cost was needed |
| `LedgerInvariants.ConsumeMeaning` | apps/api/src/modules/inventory/inventory-costing.service.ts:1272-1294 | The consuming loop takes exactly the first q units of the open layers of its location and leaves exactly the rest |
| `LedgerInvariants.ConsumeElsewhere` | apps/api/src/modules/inventory/inventory-costing.service.ts:1254-1271 | Layers of other items and warehouses are untouched |
| `ReplayLimits.IssueIsForced` | apps/api/src/modules/inventory/inventory-costing.service.ts:1272-1294 | Any way of using q units that touches a layer only when all earlier ones are exhausted leaves exactly the queue that issuing leaves |
| `Fifo.UsedIsFifo` | apps/api/src/modules/inventory/inventory-costing.service.ts:1272-1294 | Such a way exists for every quantity the queue covers |
| `ReplayLimits.IssuesCompose` | apps/api/src/modules/inventory/inventory-costing.service.ts:1007-1058 | Issuing a and then q leaves the same layer rows and costs the same in total as issuing a + q |
| `ReplayLimits.RestoreUndoesIssue` | apps/api/src/modules/inventory/inventory-costing.service.ts:1173-1242 | Restoring the allocations of an issue gives back the original layer rows |
| `Valuation.ValuationIsKnown` | apps/api/src/modules/inventory/inventory.repository.ts:60-118 | After any run, a configured item's layers hold exactly its stock and reservations at every location, so its FIFO value is always reported, and it is the worth of the open layers |
| `Valuation.IssueLowersValue` | apps/api/src/modules/inventory/inventory-costing.service.ts:1007-1058 | An issue lowers the reported value of its location by exactly the total cost it records, and no other value |
| `Valuation.IssueUses` | apps/api/src/modules/inventory/inventory-costing.service.ts:1007-1058 | An issue takes exactly the first q units of its location and records their cost |
| `Valuation.IssueCostIsMean` | apps/api/src/modules/inventory/inventory-costing.service.ts:1033-1042 | The recorded unit cost is the weighted mean of the layers used and lies between the cheapest and the dearest of them |
| `HistoricalFifo.ReconstructionIsTotal` | apps/api/src/modules/inventory/inventory-costing.service.ts:172-387 | For any log and current quantity >= 0: rebuilt layers are positive, split into costed and opening-cost quantity, and sum to the current quantity unless a non-empty history reconciled |
| `HistoricalFifo.ReconciledDrift` | apps/api/src/modules/inventory/inventory-costing.service.ts:200-344 | When a history reconciles, the rebuilt quantity drifts from the current one by at most (n + 1) tolerances plus the deficit of a log that starts below zero |
| `HistoricalFifo.ExactLogIff` | apps/api/src/modules/inventory/inventory-costing.service.ts:180-344 | A log without gaps or negative after-quantities reconciles and leaves the current quantity plus its opening deficit: exactly the stock if and only if it does not start below zero |
| `HistoricalFifo.NegativeOpeningOvercounts` | apps/api/src/modules/inventory/inventory-costing.service.ts:180-197 | For instance a log that fills a deficit of d and leaves a layer of d with nothing on hand |
| `HistoryMeaning.RunKinds` | apps/api/src/modules/inventory/inventory-costing.service.ts:912-942 | After any run, the kind of every movement tells its direction: what the pass assumes of a movement without measured quantities is what that movement did |
| `HistoryMeaning.IncomingMeans` | apps/api/src/modules/inventory/inventory-costing.service.ts:228-337 | An incoming movement that is not a release adds one layer for each of its cost parts, from the front as far as its quantity goes, and one without a cost for the rest |
| `HistoryMeaning.PurchaseIsPriced` | apps/api/src/modules/inventory/inventory-costing.service.ts:218-248 | A purchase receipt without a cost of its own costs what was paid if and only if it came to the warehouse it was paid for |
| `HistoryMeaning.PutBackMeans` | apps/api/src/modules/inventory/inventory-costing.service.ts:246-297 | Cost parts of a release go back on the layers of their movement and unit cost, as much as they say, and no layer is added |
| `HistoryMeaning.ReceiptIsDerivedIff` | apps/api/src/modules/inventory/inventory-costing.service.ts:778-832 | A transfer receipt gets derived cost parts if and only if it is at the transfer's destination and its item was shipped from the source |
| `HistoryMeaning.NormTakes` | apps/api/src/modules/inventory/inventory-costing.service.ts:731-763 | Cutting cost parts to a quantity takes them from the front |
| `HistoryMeaning.SourceIsUnique` | apps/api/src/modules/inventory/inventory-costing.service.ts:675-697 | The reservation a release is for is found if and only if there is exactly one it can be |
| `HistoryMeaning.ReleaseInherits` | apps/api/src/modules/inventory/inventory-costing.service.ts:834-870 | A release without costs of its own takes the parts of that reservation, cut to what it gives back |
| `HistoryMeaning.ReleaseWithoutSource` | apps/api/src/modules/inventory/inventory-costing.service.ts:834-870 | Without such a reservation, or with several, it has no cost |
| `HistoricalReplay.ReconstructHistoricalFifo` | apps/api/src/modules/inventory/inventory-costing.service.ts:172-387 | The pass over the movements (pushing, topping up and eating away layers, stopping at the first contradiction) computes the specified reconstruction |
| `HistoricalReplay.ReplayMovement` | apps/api/src/modules/inventory/inventory-costing.service.ts:200-337 | One movement of the pass, including the reservation-release branch |
| `ReplayAll.ReplayEqualsLive` | apps/api/src/modules/inventory/inventory-costing.service.ts:200-387 | After any run, at a location without outstanding reservations, the replay reconciles; it equals the live open layers with no opening cost if and only if everything on hand at the latest reservation release has been issued since |
| `ReplayAll.ReplayWithoutRelease` | apps/api/src/modules/inventory/inventory-costing.service.ts:200-387 | Where nothing was ever released, the replay equals the live layers |
| `ReplayLimits.ReleaseDiverges` | apps/api/src/modules/inventory/inventory-costing.service.ts:246-297 | A concrete run (two units in, one reserved and released) where the replay does not find the live layers |
| `ReplayLimits.ShipChainsIffDistinct` | apps/api/src/modules/inventory/warehouse-transfer.service.ts:298-351 | The ship loop, which reads all stock rows once, writes a chained log if and only if no item is listed twice |
| `ReplayAll.ReceivedMatches` | apps/api/src/modules/inventory/inventory-costing.service.ts:778-832 | The cost parts derived for a transfer receipt are exactly the layers the receipt wrote |
| `TransferProofs.ReceiptAccepted` | apps/api/src/modules/inventory/inventory-costing.service.ts:1104-1128 | A receipt line is accepted if and only if something is outstanding and the line stays within the shipped quantity and its tolerance; the cost never runs out |
| `TransferProofs.ReceiptIsASlice` | apps/api/src/modules/inventory/inventory-costing.service.ts:1104-1143 | A receipt's layers are exactly the stretch [received, received + delta) of the shipment's allocations |
| `TransferProofs.SliceUnits` | apps/api/src/modules/inventory/inventory-costing.service.ts:1107-1123 | Unit by unit, a receipt costs what the shipment cost at that position |
| `TransferProofs.ReceiptsCarryShipmentCost` | apps/api/src/modules/inventory/inventory-costing.service.ts:1144-1151 | After any run, what is not yet received is worth the tail of the shipment; a fully received line's receipts cost exactly its shipment |
| `TransferProofs.ReceiveAcceptedIff` | apps/api/src/modules/inventory/warehouse-transfer.service.ts:383-528 | After any run, a new receipt of a shipment on the road is accepted if and only if its lines are well formed and each has something outstanding and stays within it |
| `TransferProofs.ReceiptReplay` | apps/api/src/modules/inventory/warehouse-transfer.service.ts:442-452 | Redelivering a receipt under its idempotency key changes nothing; another request under that key is refused |
| `TransferLifecycle.StatusIsWhatCameIn` | apps/api/src/modules/inventory/warehouse-transfer.service.ts:490-501 | After any run, a transfer has shipment movements if and only if it is neither PENDING nor CANCELLED; a shipped one is IN_TRANSIT if and only if nothing came in, RECEIVED if and only if every item came in up to the tolerance, PARTIALLY_RECEIVED in between |
| `TransferLifecycle.OutstandingIsReceivable` | apps/api/src/modules/inventory/warehouse-transfer.service.ts:453-501 | After any run, as long as some item of a shipped transfer is outstanding beyond the tolerance, any part of it is accepted under a new key |
| `TransferLifecycle.TransfersGoOn` | apps/api/src/modules/inventory/warehouse-transfer.service.ts:263-672 | Over any run transfers keep their ends and lines and only go forward, nothing that came in is taken back, and a cancelled or received one stays exactly as it is |
| `TransferLifecycle.CancelledNeverMoves` | apps/api/src/modules/inventory/warehouse-transfer.service.ts:630-672 | A cancelled transfer stays cancelled and never gets a movement, whatever is tried |
| `TransferLifecycle.ReceiptEffect` | apps/api/src/modules/inventory/warehouse-transfer.service.ts:466-628 | An accepted receipt raises each named item by what came in, up to what was shipped, puts that on the destination's stock and nowhere else, and writes one movement of that quantity for each line |
| `TransferLifecycle.WholeTransfer` | apps/api/src/modules/inventory/warehouse-transfer.service.ts:79-628 | Created, shipped and received in full, a transfer takes each quantity from its source and puts it down at its destination, moves nothing else and ends RECEIVED; configured items and enough stock at the source are all it needs |
| `TransferLifecycle.CreateEffect` | apps/api/src/modules/inventory/warehouse-transfer.service.ts:79-104 | A transfer is created if and only if its ends differ and it lists 1 to 100 different items of at least 0.1 each, and then it is PENDING with those ends and lines |
| `TransferLifecycle.CancelEffect` | apps/api/src/modules/inventory/warehouse-transfer.service.ts:630-672 | A transfer can be cancelled if and only if it has no shipment movement, and then only its status changes |
| `StockMovements.ShipEffect` | apps/api/src/modules/inventory/warehouse-transfer.service.ts:263-381 | A pending transfer ships if and only if every item is configured and its source holds what is to be sent; exactly that leaves, oldest units first, with one movement of that quantity for each line |
| `StockMovements.ShipAgain` | apps/api/src/modules/inventory/warehouse-transfer.service.ts:273-286 | A cancelled transfer is refused, and one shipped before is left as it is |
| `StockMovements.StockInEffect` | apps/api/src/modules/inventory/inventory.repository.ts:879-940 | Accepted if and only if at least one unit of a configured item comes with its unit cost; then exactly that quantity is added at that location, as one lot at the back of its queue, and recorded at that cost |
| `StockMovements.AdjustEffect` | apps/api/src/modules/inventory/inventory.repository.ts:942-1011 | Accepted if and only if the row exists and does not fall below zero, upwards with a unit cost; then exactly the adjusted quantity is added as one lot, taken from the front of the queue, or noted |
| `StockMovements.WasteEffect` | apps/api/src/modules/inventory/inventory.repository.ts:1013-1069 | Accepted if and only if at least one unit and no more than is on hand; then exactly that quantity leaves that location, its oldest units are recorded with their cost, and no other location changes |
| `StockMovements.SaleLineEffect` | apps/api/src/modules/inventory/inventory.repository.ts:624-692 | The same for one order line of positive quantity |
| `StockMovements.SaleEffect` | apps/api/src/modules/inventory/inventory.repository.ts:624-692 | An order's direct issue is possible if and only if each location holds what all its lines together ask of it; it takes exactly that, oldest units first, and writes one movement of the line's quantity for each |
| `StockMovements.FulfilmentEffect` | apps/api/src/modules/inventory/inventory.repository.ts:624-692 | Fulfilling an order does nothing once a reservation of it was committed, and otherwise is exactly that direct issue, even beside active reservations |
| `StockMovements.RefusalReasons` | apps/api/src/modules/inventory/inventory.repository.ts:942-1069 | Which reason a refused waste, adjustment or order line is given; the layers never fall short |
| `InventoryStore.Store.ConsumeFifoLayers` | apps/api/src/modules/inventory/inventory-costing.service.ts:1244-1295 | The loop over layer rows leaves the rows and allocations that the specification gives |
| `InventoryStore.Store.Issue` | apps/api/src/modules/inventory/inventory-costing.service.ts:1007-1058 | Costs an outgoing movement, with every error case |
| `InventoryStore.Store.ReceiveAt` | apps/api/src/modules/inventory/inventory-costing.service.ts:944-1005 | Costs an incoming movement with one layer of its own |
| `InventoryStore.CopyAllocations` | apps/api/src/modules/inventory/inventory-costing.service.ts:1104-1123 | The copying loop computes the specified slice of the shipment |
| `InventoryStore.Store.ReceiveTransferCost` | apps/api/src/modules/inventory/inventory-costing.service.ts:1060-1171 | Copies the slice into layers and costs the receipt movement |
| `InventoryStore.Store.Restore` | apps/api/src/modules/inventory/inventory-costing.service.ts:1173-1242 | Puts allocations back on their layers and copies them to the reversal movement |
| `InventoryStore.Store.StockIn` | apps/api/src/modules/inventory/inventory.repository.ts:879-940 | The new tables are those the stock-in transaction specifies |
| `InventoryStore.Store.Adjust` | apps/api/src/modules/inventory/inventory.repository.ts:942-1011 | The same for positive, negative and zero adjustments |
| `InventoryStore.Store.Waste` | apps/api/src/modules/inventory/inventory.repository.ts:1013-1069 | The same for waste |
| `InventoryStore.Store.FulfillOrder` | apps/api/src/modules/inventory/inventory.repository.ts:624-692 | The same for an order's direct issues, skipped once a reservation was committed |
| `InventoryStore.Store.ReserveRequirement` | apps/api/src/modules/inventory/inventory-reservation.service.ts:357-435 | The loop over stock rows reserves a requirement, or fails |
| `InventoryStore.Store.ReserveStock` | apps/api/src/modules/inventory/inventory-reservation.service.ts:53-105 | Reserves all requirements unless the order already holds a reservation |
| `InventoryStore.Store.CommitReservation` | apps/api/src/modules/inventory/inventory-reservation.service.ts:248-311 | Takes over all active reservations first and then costs them; the result is committing them one by one |
| `InventoryStore.Store.ReleaseReservations` | apps/api/src/modules/inventory/inventory-reservation.service.ts:143-246 | Claims first and then puts back stock, movements and layers; the result is releasing them one by one |
| `InventoryStore.Store.CreateTransfer` | apps/api/src/modules/inventory/warehouse-transfer.service.ts:79-104 | Accepts 1 to 100 distinct items of at least 0.1 |
| `InventoryStore.Store.ShipTransfer` | apps/api/src/modules/inventory/warehouse-transfer.service.ts:263-381 | Ships a pending transfer from stock rows read once |
| `InventoryStore.PlanReceipt` | apps/api/src/modules/inventory/warehouse-transfer.service.ts:466-489 | Plans every line, capped at the shipped quantity, before anything is written |
| `InventoryStore.Store.ReceiveTransfer` | apps/api/src/modules/inventory/warehouse-transfer.service.ts:383-628 | Plans, writes each line and records the receipt under its key |
| `InventoryStore.Store.CancelTransfer` | apps/api/src/modules/inventory/warehouse-transfer.service.ts:630-672 | Cancels a pending transfer only |
| `InventoryStore.Store.Transact` | apps/api/src/modules/inventory/inventory.repository.ts:879-1069 | A transaction happens entirely or leaves no trace, and keeps the tables healthy |
| `ValuationService.ConfigureFifo` | apps/api/src/modules/inventory/inventory.repository.ts:213-503 | Closes stale reservations, rebuilds, checks opening costs and writes layers as specified, or leaves the tables as they were |
| `ReservationProofs.BuildRequirements` | apps/api/src/modules/inventory/inventory-reservation.service.ts:313-355 | One positive requirement per needed item, equal to the sum of what the lines need of it |
| `ReservationMovements.NeedsAreLines` | apps/api/src/modules/inventory/inventory-reservation.service.ts:313-355 | What an order needs of an item: in retail the quantities of its lines for it, in a cafe each line's quantity times what its recipe uses |
| `ReservationProofs.ReserveIsComplete` | apps/api/src/modules/inventory/inventory-reservation.service.ts:53-125 | Reserving is all or nothing: it succeeds if and only if the eligible rows hold enough for each merged requirement, and then the order holds exactly what its lines need |
| `ReservationMovements.ReserveEffect` | apps/api/src/modules/inventory/inventory-reservation.service.ts:53-105 | Reserving does nothing while the order has an active or committed reservation; otherwise it succeeds if and only if there is enough for every requirement, and takes that from the rows in their order |
| `ReservationMovements.ReserveInOrder` | apps/api/src/modules/inventory/inventory-reservation.service.ts:357-435 | Reserving takes each requirement from the eligible rows in their order: however far down the rows, what was taken is all they had or the whole requirement; other rows and all layers stay, and only uncosted active reservations are written |
| `ReservationMovements.RowsGiveAll` | apps/api/src/modules/inventory/inventory-reservation.service.ts:357-435 | Corollary beside it: a row of the item gives all it has on hand, any other row nothing |
| `ReservationMovements.CommitEffect` | apps/api/src/modules/inventory/inventory-reservation.service.ts:248-311 | Committing moves no stock, uses at every location exactly the oldest units the order holds there, and turns each of its active reservations into one of the given kind, costed by units of its own quantity; nothing else in the log changes |
| `ReservationMovements.ReleaseEffect` | apps/api/src/modules/inventory/inventory-reservation.service.ts:143-246 | Releasing, cancelling and expiring always succeed: every claimed reservation takes the state, its quantity goes back on its row with one RETURN movement, and no layer and no other movement changes |
| `ReservationMovements.ExpiryEffect` | apps/api/src/modules/inventory/reservation.repository.ts:251-311 | An expiry closes exactly the reservations still active among the movements older than its cutoff |
| `ReservationMovements.OrderReleaseEffect` | apps/api/src/modules/inventory/inventory-reservation.service.ts:143-246 | Releasing an order closes exactly its own active reservations |
| `OrderFrames.ReservedOnce` | apps/api/src/modules/inventory/inventory-reservation.service.ts:66-78 | While an order holds a reservation that no release claims, and for good once it was committed, any run has the outcome it has without the order's further reserves |
| `OrderFrames.OthersLeave` | apps/api/src/modules/inventory/reservation.repository.ts:251-311 | No stock change, transfer, transaction of another order, or expiry that claims none of its reservations, changes or adds a movement of an order |
| `ReservationProofs.ReservationsConserve` | apps/api/src/modules/inventory/inventory-reservation.service.ts:143-435 | Over any run of reserve, commit, release, cancel and expire, stock plus active plus committed quantity per location is constant and stock is never negative |
| `ReservationProofs.RestoredOnce` | apps/api/src/modules/inventory/reservation.repository.ts:251-311 | Over any run, what was returned for an order at a location is exactly what its released, cancelled and expired reservations held there; a closed reservation never changes state |
| `RetailOrder.StockIsDeductedOnce` | apps/api/src/modules/orders/order-orchestrator.service.ts:81-140 | With any number of overlapping, crashing and repeated deliveries, the order takes nothing or exactly what it needs, and exactly that once some delivery reserved and committed |
| `RetailOrder.DeliveryCompletesIff` | apps/api/src/modules/orders/orders.repository.ts:168-190 | A delivery that runs to its end completes the order if and only if it finds it neither PAID nor CANCELLED |
| `RetailOrder.PaidCompletesIff` | apps/api/src/modules/orders/orders.repository.ts:168-190 | From PAID, an order can still complete if and only if some delivery is about to fulfil it |
| `RetailOrder.PaidIsStuck` | apps/api/src/modules/orders/orders.repository.ts:168-190 | An order left PAID by a crash before fulfilment stays PAID through every later delivery |
| `RetailOrder.CrashLeavesPaid` | apps/api/src/modules/orders/order-orchestrator.service.ts:101-112 | Every open order with enough stock gets there: one delivery that crashes after marking leaves it PAID for good, with all it needs deducted |
| `RetailOrder.FreshOrderGetsStuck` | apps/api/src/modules/orders/order-orchestrator.service.ts:101-112 | The same on a concrete order of one unit |
| `RetailOrder.OrderOrchestrator.HandlePaymentSuccess` | apps/api/src/modules/orders/order-orchestrator.service.ts:81-140 | One delivery runs its transactions in order and stops at the first that fails |
| `RetailChanges.DeliveryEffect` | apps/api/src/modules/orders/order-orchestrator.service.ts:81-140 | A delivery that runs to its end takes each requirement of an untouched order from the eligible rows in their order, leaves all its movements committed as sales at the cost of their own quantity, and the order completed |
| `RetailChanges.CancellingEffect` | apps/api/src/modules/orders/orders.repository.ts:209-247 | Cancelling an order that is not completed always succeeds and gives back everything it actively holds; a completed one is left alone |
| `RetailChanges.ExpiringEffect` | apps/api/src/modules/inventory/reservation.repository.ts:251-311 | An expiry gives back old active reservations and touches neither the order's status nor its deliveries |
| `RetailCancellation.DeductedOnceOrNever` | apps/api/src/modules/orders/orders.repository.ts:209-247 | With cancellations and expiries as well, in any order: nothing or exactly what it needs is deducted, and exactly that while a committed reservation is held, as long as every expiry is timely |
| `UntimelyExpiry.NeverWrongIffTimely` | apps/api/src/modules/orders/order-orchestrator.service.ts:81-140 | A run keeps a fresh order from ever deducting something else than nothing or its needs if and only if every expiry in it is timely: it claims all of the order's reservation or none, and all of it only while no delivery of the unpaid order is between reserving and committing |
| `UntimelyExpiry.UntimelyIffGoesWrong` | apps/api/src/modules/inventory/reservation.repository.ts:251-311 | In any state that timely expiries lead to, the next expiry is untimely if and only if some continuation without another untimely one deducts something else: part of the needs at once, or twice the needs later, for any order |
| `UntimelyExpiry.ExpiryIsTimelyIff` | apps/api/src/modules/inventory/reservation.repository.ts:251-311 | An expiry keeps the invariant of order and deliveries if and only if it is timely |
| `RetailCancellation.UntimelyExpiryDeductsTwice` | apps/api/src/modules/orders/order-orchestrator.service.ts:101-112 | On a concrete order of one: the delivery sells the expired unit directly, the next one reserves and commits another, and the order has taken two |
| `RetailCancellation.LatePaymentDeducts` | apps/api/src/modules/orders/order-orchestrator.service.ts:101-107 | A payment event after the cancellation, with stock enough, commits all the cancelled order needs, and no later event gives it back |
| `RetailCancellation.LatePaymentRefused` | apps/api/src/modules/orders/order-orchestrator.service.ts:101-107 | Without enough stock it changes nothing |
| `RetailCancellation.CancelledOrderUsesStock` | apps/api/src/modules/orders/order-orchestrator.service.ts:101-107 | It happens: reserved, cancelled, given back and paid by the next delivery, a concrete order is cancelled and has used up what it needed |
| `KitchenOrder.KitchenTakesAllOrNothing` | apps/api/src/modules/kitchen/kitchen.repository.ts:264-353 | Whatever status updates, repeated payment events, cancellations, expiries and other transactions come in whatever order, a cafe order holds or has used exactly what it needs, or nothing, unless an expiry splits its reservation |
| `KitchenOrder.ExpiryIsWholeIff` | apps/api/src/modules/inventory/reservation.repository.ts:251-311 | An expiry keeps the reservation whole if and only if it claims all of it or none; a used-up one is never claimed |
| `KitchenOrder.ExpirySplits` | apps/api/src/modules/inventory/reservation.repository.ts:251-311 | It can happen: an expiry between the two movements of a reservation leaves the order one of the two units it needs |
| `KitchenOrder.CookedStaysUsed` | apps/api/src/modules/kitchen/kitchen.repository.ts:291-347 | What was committed when cooking began is never given back and never taken again, not by a cancellation, an expiry or a repeated payment event |
| `KitchenOrder.PaidAfterCancellation` | apps/api/src/modules/orders/order-orchestrator.service.ts:91-95 | A payment event that comes after a cancellation takes the stock again, if there is enough, for an order that stays cancelled |
| `KitchenOrder.CancelledHoldsStock` | apps/api/src/modules/orders/order-orchestrator.service.ts:91-95 | Paid, cancelled in the kitchen and paid again, a concrete order is cancelled and holds everything it needed |
| `KitchenOrder.KitchenRepository.SetStatus` | apps/api/src/modules/kitchen/kitchen.repository.ts:264-353 | The status moves by compare-and-set together with the commit or the release, or nothing changes |
| `KitchenChanges.ChangeEffect` | apps/api/src/modules/kitchen/kitchen.repository.ts:264-353 | From the expected status of a ticket in the kitchen, a change shows the new status; starting to cook uses up exactly what the order holds, cancelling gives exactly that back, and any other change leaves the books alone |
| `KitchenChanges.StatusIsShownAsSet` | apps/api/src/modules/kitchen/kitchen.repository.ts:385-411 | What is stored for a kitchen status is shown as that status again, with new and recalled tickets shown as queued |
| `KitchenChanges.UnexpectedChangesNothing` | apps/api/src/modules/kitchen/kitchen.repository.ts:276-289 | From any other status, or outside the kitchen, nothing changes |
| `KitchenChanges.CancelledStaysOut` | apps/api/src/modules/kitchen/kitchen.repository.ts:264-289 | An order cancelled before it entered the kitchen never enters it and is never changed from there |
| `MovingAverageProofs.ReplayedAverages` | apps/api/src/modules/inventory/inventory-costing.service.ts:504-629 | After any run of stock-in, adjust, waste and sell over any number of warehouses, the replay reports reconciled and finds the stored average (per warehouse or per item) wherever there is stock |
| `MovingAverageProofs.AveragesLoseNoValue` | apps/api/src/modules/inventory/inventory-costing.service.ts:1327-1389 | The stock is worth everything that came in less everything issued |
| `AverageChanges.ChangeEffect` | apps/api/src/modules/inventory/inventory.repository.ts:879-1069 | After any run, a change is carried out if and only if it asks for what the code demands and no more leaves than there is; it moves exactly the requested quantity at its warehouse, records it, and moves an average only when stock comes in, to the weighted mean |
| `AverageChanges.PurchaseIsMixedIn` | apps/api/src/modules/inventory/inventory-costing.service.ts:504-574 | In a replay, an incoming movement without a cost of its own is priced by the purchase for its warehouse: both averages become the weighted means, or unknown without one |
| `AverageChanges.GapIsReported` | apps/api/src/modules/inventory/inventory-costing.service.ts:504-629 | A movement that does not start where its warehouse stood, or takes more than there was, leaves it without an average and with an opening cost for all its stock, whatever follows |
| `AverageChanges.UnknownStartIsReported` | apps/api/src/modules/inventory/inventory-costing.service.ts:465-500 | When a warehouse's first movement does not say what was there before, the item does not replay |
| `MovingAverageProofs.RestoreUndoesIssueAverage` | apps/api/src/modules/inventory/inventory-costing.service.ts:1391-1439 | Giving an issue back at its cost restores rows and averages exactly |
| `AverageStore.Store.UpdateMovingAverage` | apps/api/src/modules/inventory/inventory-costing.service.ts:1327-1389 | The new average of the item or of the warehouse row |
| `AverageStore.Store.Transact` | apps/api/src/modules/inventory/inventory.repository.ts:879-1069 | A change happens entirely or leaves no trace |
| `AverageStore.Store.ReplayMovements` | apps/api/src/modules/inventory/inventory-costing.service.ts:504-574 | The loop over the movements computes the specified replay |
| `PaymentSafety.OneLiveCharge` | apps/api/src/modules/billing/billing.service.ts:143-276 | For any interleaving, crash and lost answer: at most one charge not definitely rejected, at most one owner of the claim, and every stored or returned request id is that charge's id |
| `PaymentProtocol.TraceSafe` | apps/api/src/modules/billing/billing.repository.ts:85-198 | The protocol invariant holds after every run |
| `PaymentSafety.CancelledIsNeverCharged` | apps/api/src/modules/billing/billing.repository.ts:547-595 | Once cancelled, an invoice never has a claim in flight or a charge that may have been accepted |
| `PaymentSafety.CancelMeansNoCharge` | apps/api/src/modules/billing/billing.repository.ts:547-568 | A pending invoice can be cancelled if and only if its attempt is absent or REJECTED, and then no charge may have been accepted |
| `PaymentSafety.SettledForGood` | apps/api/src/modules/billing/billing.repository.ts:369-384 | PAID, FAILED and CANCELLED are never left |
| `PaymentSafety.ExactlyOnce` | apps/api/src/modules/billing/billing.repository.ts:392-437 | One paid event if PAID and none otherwise, one cancelled event if CANCELLED and none otherwise, at most one failed event and only if FAILED |
| `PaymentFailures.FailedEventIff` | apps/api/src/modules/billing/billing.service.ts:431-464 | A FAILED invoice has exactly one failed event if and only if a webhook failed it or its caller's publication committed; it has none if and only if that caller is still to publish or was stopped before |
| `PaymentFailures.LostForGood` | apps/api/src/modules/billing/billing.service.ts:453-464 | A failed event that was lost is never written by any later call, crash or webhook |
| `PaymentFailures.FailedEventIsLost` | apps/api/src/modules/billing/billing.service.ts:445-464 | It happens: the caller marks the invoice, crashes before publishing, and the FAILED invoice has no event |
| `PaymentSafety.RedeliveryChangesNothing` | apps/api/src/modules/billing/billing.repository.ts:235-250 | A processed or ignored event, redelivered at any later time, changes nothing |
| `PaymentSafety.EventIsHandledOnce` | apps/api/src/modules/billing/billing.repository.ts:231-250 | Over any run, a delivery is a duplicate if and only if an earlier delivery of the same event was processed or ignored, so an event is handled at most once and a refused one may be tried again |
| `PaymentSafety.CaptureSettles` | apps/api/src/modules/billing/billing.repository.ts:252-384 | A successful capture settles a pending invoice if and only if it carries its request id, number, amount and currency under a new payment id |
| `PaymentWebhooks.FailureFails` | apps/api/src/modules/billing/billing.repository.ts:345-437 | After any run, the first delivery of a failed, expired or canceled payment fails a pending invoice if and only if it carries the invoice's own identifiers and amount under a new payment id; then one failed event and the payment id are written and no other invoice changes |
| `PaymentWebhooks.CapturePays` | apps/api/src/modules/billing/billing.repository.ts:339-437 | The same for a successful capture, with everything it writes |
| `PaymentWebhooks.AuthorizationChangesNothing` | apps/api/src/modules/billing/billing.repository.ts:350-366 | An authorization changes no invoice, attempt or event: it is IGNORED with a receipt if it is about an invoice, and refused without one if not |
| `PaymentWebhooks.OtherPairsAreRefused` | apps/api/src/modules/billing/billing.repository.ts:355-359 | Any other pair of event type and status is refused and leaves no receipt, unless it is a duplicate |
| `PaymentWebhooks.LateWebhookIsIgnored` | apps/api/src/modules/billing/billing.repository.ts:361-367 | A supported webhook about an invoice that is no longer pending is IGNORED with a receipt and changes nothing else |
| `PaymentWebhooks.OnlyTheSameEventIsDuplicate` | apps/api/src/modules/billing/billing.repository.ts:231-250 | Handling an event makes duplicates of deliveries with the same payment, type, status and captures in any order, and of nothing else |
| `PaymentSafety.UnknownBlocks` | apps/api/src/modules/billing/billing.service.ts:155-157 | An unknown outcome without a retained id blocks the invoice for good: no run asks for another charge |
| `PaymentSafety.RetainedIsRecovered` | apps/api/src/modules/billing/billing.service.ts:250-276 | Corollary beside OneLiveCharge: a retained request id is linked by the next caller without a new charge |
| `PaymentSafety.NumbersStayDifferent` | apps/api/src/modules/billing/billing.repository.ts:648-670 | Invoice numbers stay distinct over every run of the protocol |
| `Billing.BillingRepository.ClaimPaymentRequest` | apps/api/src/modules/billing/billing.repository.ts:85-131 | Compare-and-set claim on the tables |
| `Billing.BillingRepository.CompletePaymentRequest` | apps/api/src/modules/billing/billing.repository.ts:133-181 | Links a request id to invoice and attempt together, or changes nothing |
| `Billing.BillingRepository.RecordOutcome` | apps/api/src/modules/billing/billing.repository.ts:183-198 | Records an outcome only on an attempt in progress |
| `Billing.BillingRepository.CancelPendingInvoice` | apps/api/src/modules/billing/billing.repository.ts:547-595 | Cancels and writes the event, or changes nothing |
| `Billing.BillingRepository.SettlePaidInvoice` | apps/api/src/modules/billing/billing.repository.ts:696-737 | Settles and writes the event, or changes nothing |
| `Billing.BillingRepository.ProcessWebhookEvent` | apps/api/src/modules/billing/billing.repository.ts:231-477 | Receipt, correlation, checks, transition and event, or a full rollback |
| `PaymentService.BillingService.CreatePaymentRequest` | apps/api/src/modules/billing/billing.service.ts:115-248 | One undisturbed call does what its protocol steps do one after the other |
| `PaymentService.AloneIsATrace` | apps/api/src/modules/billing/billing.service.ts:115-248 | Those steps are a run of the protocol |
| `PaymentService.AloneOnIdle` | apps/api/src/modules/billing/billing.service.ts:143-248 | An undisturbed caller of a pending, unlinked invoice whose attempt is absent or REJECTED asks the provider once, returns the id of an accepted charge and links it, or records the refusal or the doubt |
| `PaymentService.CallAfterCall` | apps/api/src/modules/billing/billing.service.ts:143-276 | Two callers one after the other: after an acceptance the second gets the first's id without asking, after a refusal it asks again, after an answer without an id it is refused without asking |
| `PaymentService.OneOfTwoClaims` | apps/api/src/modules/billing/billing.repository.ts:106-131 | Of two callers about to claim, only the first may ask and the other reads again |
| `PaymentService.LoserGetsTheId` | apps/api/src/modules/billing/billing.service.ts:174-207 | A caller that lost the claim gets the id that became known in the meantime and asks for nothing |
| `InvoiceNumbering.NumberingIsGapFree` | apps/api/src/modules/billing/billing.repository.ts:608-670 | The numbers used are the consecutive counter values since the start, in order; each billing period has at most one invoice and exactly one pair of events if it has one |
| `InvoiceNumbering.PrintedNumbersDiffer` | apps/api/src/modules/billing/billing.repository.ts:648-670 | All printed numbers of a run differ |
| `InvoiceNumbering.NumberRoundTrip` | apps/api/src/modules/billing/billing.repository.ts:648-670 | The digits after the last dash give the counter value back, whatever its size |
| `InvoiceNumbering.PeriodKeyIsInjective` | apps/api/src/modules/billing/billing.service.ts:344-345 | Two billing periods share a key only if they are the same |
| `InvoiceNumbering.BilledOnce` | apps/api/src/modules/billing/billing.repository.ts:624-629 | Corollary beside NumberingIsGapFree: a billed period stays billed and billing it again changes nothing |
| `BilledPeriods.InvoicesAreRequests` | apps/api/src/modules/billing/billing.service.ts:331-390 | Over any run, the invoices are exactly the requests carried out, for each period the first that asks for money and is not broken off: each with its request's key and amount, and a number that shows its year, its month and the next counter value |
| `BilledPeriods.BillAddsIff` | apps/api/src/modules/billing/billing.service.ts:331-390 | A request adds exactly its own invoice and pair of events if and only if it is not broken off and, for a period, asks for money and finds it unbilled; otherwise it changes nothing |
| `BilledPeriods.InvoicesAreNotFree` | apps/api/src/modules/billing/billing.repository.ts:608-670 | Every invoice of a run is that of a request that was not broken off, and none of a period is free |
| `BilledPeriods.BilledIffAsked` | apps/api/src/modules/billing/billing.repository.ts:624-629 | A period is billed if and only if some request for it has succeeded |
| `BilledPeriods.NumberShows` | apps/api/src/modules/billing/billing.repository.ts:648-670 | Prefix, year, two-digit month and a sequence number of at least six digits can be read off a printed number |
| `InvoiceNumbering.InvoiceTable.BillPeriod` | apps/api/src/modules/billing/billing.service.ts:331-390 | The transaction with a stale first read, a unique-key violation or a failure before the commit |
| `InvoiceExport.ExportInvoices` | apps/api/src/modules/billing/invoice-export.ts:62-96 | The cursor loop prints the header and every matching row once, in order, in floor(n / 500) + 1 fetches |
| `InvoiceExport.PageIsNext` | apps/api/src/modules/billing/billing.repository.ts:495-545 | The page behind the k-th exported row is the next stretch of the export |
| `InvoiceExport.ExportRoundTrip` | apps/api/src/modules/billing/invoice-export.ts:38-60 | The text reads back, by section 2 of RFC 4180, as the header and one record per row, all of the header's width |
| `InvoiceExport.FileRoundTrip` | apps/api/src/modules/billing/invoice-export.ts:38-60 | Reading printed rows back returns exactly their cell texts |
| `InvoiceExport.RecordsHoldTheirRows` | apps/api/src/modules/billing/invoice-export.ts:46-81 | The text reads back as the headings, with the tenant only on request, and one record per matching row in order, which holds that row's field under every heading |
| `InvoiceExport.ExportedByAge` | apps/api/src/modules/billing/billing.repository.ts:495-545 | The export runs from the oldest invoice to the newest, by id among those created at once |
| `InvoiceExport.DangerousIff` | apps/api/src/modules/billing/invoice-export.ts:38-44 | A text is guarded if and only if one of the formula characters is its first behind any white space |
| `InvoiceExport.GuardedIsHarmless` | apps/api/src/modules/billing/invoice-export.ts:38-44 | Corollary beside FileRoundTrip: a printed text cell never reads as a formula and is changed only if it would have |
| `InvoiceExport.NumberIsDangerousIffNegative` | apps/api/src/modules/billing/invoice-export.ts:38-44 | Numbers are not guarded: the printed amount reads as a formula if and only if it is negative |
| `JobHistory.HistoryShape` | apps/worker/src/operational/job-execution-history.service.ts:93-221 | For any stream of events: attempts are exactly 1 to n, those below the current one are RETRYING, at most the current one is ACTIVE |
| `JobHistory.OneLifeShape` | apps/worker/src/operational/job-execution-history.service.ts:93-221 | Within one life: every attempt below the last is RETRYING, and the last is current or terminal |
| `JobHistory.TerminalLeavesNothing` | apps/worker/src/operational/job-execution-history.service.ts:177-178 | A completed or finally failed job leaves no snapshot, no counter and no active row |
| `JobLife.FailureEndsLifeIff` | apps/worker/src/operational/job-execution-history.service.ts:181-221 | A failure ends the life if and only if the attempt is not below its maximum: the row is FAILED and snapshot and counter are gone; otherwise the row is RETRYING and both stay; without a current attempt nothing happens |
| `JobLife.CompletionEndsLife` | apps/worker/src/operational/job-execution-history.service.ts:151-179 | A completion ends the life of the current attempt and writes nothing but its row |
| `JobLife.ActiveBegins` | apps/worker/src/operational/job-execution-history.service.ts:93-149 | An attempt starts under the next number, the one before it is marked RETRYING with the reason and the time the new one knows, and no other row changes |
| `JobLife.LifeLeaves` | apps/worker/src/operational/job-execution-history.service.ts:93-221 | A whole life: k failures below the maximum and then a completion or a last failure leave rows 1 to k RETRYING, row k + 1 COMPLETED or FAILED with the given time and reason, and no snapshot and no counter |
| `JobLife.TriesLeave` | apps/worker/src/operational/job-execution-history.service.ts:181-221 | Between two attempts the failed one is RETRYING with its own time and reason, and its snapshot and counter are kept |
| `JobLife.RetriedRow` | apps/worker/src/operational/job-execution-history.service.ts:104-128 | Row by row: attempt a was started by its own event and ended by the start of attempt a + 1 |
| `JobLife.LifeInTheService` | apps/worker/src/operational/job-execution-history.service.ts:239-259 | The same in the service, however its turns are cut and whatever the other jobs do |
| `JobHistory.OutcomeLostIff` | apps/worker/src/operational/job-execution-history.service.ts:93-149 | A recorded outcome is overwritten if and only if an active event comes for a job whose next attempt number is already taken by it |
| `JobHistory.LostOutcomeKeepsItsEnd` | apps/worker/src/operational/job-execution-history.service.ts:323-377 | The row that replaces it is the new current attempt, ACTIVE, with the finishing time and the error of the lost outcome |
| `JobHistory.SecondRunLosesOutcome` | apps/worker/src/operational/job-execution-history.service.ts:93-178 | It happens to every job that completes and is run again: one row is left, active and finished |
| `JobHistory.ChainIsSequential` | apps/worker/src/operational/job-execution-history.service.ts:239-259 | However handlers are cut at their writes, once a job's chain is empty its history is that of its events handled in order |
| `JobHistoryService.HistoriesAreIndependent` | apps/worker/src/operational/job-execution-history.service.ts:239-259 | For any interleaving of the turns of any number of jobs on the shared tables, a job's chain is that of its own turns alone, and once it is empty its rows, snapshot and counter are those of its own events in order |
| `JobHistoryService.TurnActs` | apps/worker/src/operational/job-execution-history.service.ts:239-259 | One turn acts on its job's chain and no other job can tell |
| `JobHistoryService.ServeAll` | apps/worker/src/operational/job-execution-history.service.ts:239-259 | A service that has just started, serving such turns one after the other, ends with those tables and histories |
| `JobHistoryService.KeysDiffer` | apps/worker/src/operational/job-execution-history.service.ts:276-278 | No two jobs share a snapshot key |
| `JobHistoryService.NoColon` | apps/worker/src/queue/queue.constants.ts:1-8 | No queue name holds a colon |
| `JobHistoryService.HistoryService.TakeTurn` | apps/worker/src/operational/job-execution-history.service.ts:239-259 | Runs a job's chain on to its next write, on the shared maps |
| `JobHistoryService.HistoryService.BeginHandler` | apps/worker/src/operational/job-execution-history.service.ts:93-221 | A handler up to its first write, on the shared maps |
| `JobHistoryService.HistoryService.EndHandler` | apps/worker/src/operational/job-execution-history.service.ts:130-149 | The rest of a handler, on the shared maps |
| `JobHistoryService.HistoryService.PersistExecution` | apps/worker/src/operational/job-execution-history.service.ts:323-377 | An upsert that leaves fields it is not given as they are |

## Left out

- StockIn: the request's minimum quantity of 1 is kept; tenant scope, notes and the user are not modelled, nor is the
  rounding of decimal columns.
- Issue: a quantity of zero or less is rejected, where the code would divide by it; callers never pass one.
- FulfillOrder: the stock row an order line is served from is a parameter, because the code takes any row of the item;
  order status is modelled in `RetailOrder` only.
- ReserveStock: the eligible stock rows of the order's outlet are a parameter, each row once; the active-product check
  of the second reservation repository is not modelled.
- ReleaseReservations: the outbox events of an expiry are not modelled.
- PersistExecution: worker id, job name, duration and correlation id are not modelled, and an error is its message only.
- CreateTransfer: the idempotency key of a creation is not modelled; that of a receipt is.
- ReceiveTransfer: the idempotency request is compared directly and not by its hash; notes are not modelled.
- ConfigureSound: FIFO only; a location's opening stock is not negative; an item configured while it had no stock cannot
  be configured again in the model. Opening costs are required for any uncosted quantity, where the code asks for them
  above 1e-9 and fails on the rest.
- ConfigureFifo: FIFO only; the item's warehouses are a parameter, and the lock of an item is its membership in the set
  of configured items.
- ReplayEqualsLive: runs start from empty tables. For an item that is configured later, the replay is compared with the
  live layers right after configuring (`ReplayAfterConfiguring`), not after the transactions that follow. Purchase-order
  receipts enter as replay cost records only.
- ReconstructionIsTotal: movement types are those of the schema, so the unknown-type exit of the delta is never taken;
  the branch of the release replay for parts without a source movement is unreachable and not modelled.
- StockIsDeductedOnce: other transactions change the books in any way that leaves this order's movements alone
  (`OthersLeave` shows which do); expiry and cancellation of the order itself are in `RetailCancellation`.
- DeductedOnceOrNever: the condition on expiries is sufficient here; that it is necessary is
  `UntimelyExpiry.NeverWrongIffTimely`. The exceptions thrown to the subscriber of a failed event, and the cancellation
  they may cause, are the cancellations of the model, which may come at any time.
- UntimelyIffGoesWrong: the items of the order are configured FIFO items, because a direct sale of any other is refused;
  the continuation may buy stock.
- WholeTransfer: one receipt of everything; receipts in parts are `ReceiptEffect` and `StatusIsWhatCameIn`.
- NeedsAreLines: order lines have a positive quantity.
- RunKinds: orders are sold or consumed, which are the two kinds the services pass.
- ReplayedAverages: no transfers and no reservations; unit costs derived from cost allocations are known for outgoing
  movements only, as they are in such runs.
- OneLiveCharge: the provider's REJECTED answer is trusted to mean that no charge exists; request ids are positions in
  the provider's list of charges.
- SettlePaidInvoice: the activation of the subscription in the same transaction is not modelled.
- ProcessWebhookEvent: subscription status and its past-due event are not modelled; the idempotency key is the tuple the
  code hashes, captures as a multiset because they are sorted.
- ExactlyOnce: bounds the failed event by one; when it is exactly one is `FailedEventIff`.
- BillPeriod: months have at most two digits, as those of a date do; the counter row is assumed to exist; the billing
  date is a parameter.
- ExportInvoices: printing a date is a parameter; ids are numbers instead of strings, both totally ordered; the parser
  accepts any character but quote, comma, CR and LF as text data, where section 2 of RFC 4180 lists ASCII only.
- ChainIsSequential: writes succeed; the redaction of error texts is not modelled.
- KitchenTakesAllOrNothing: the allowed transitions of a kitchen ticket are not modelled, so it holds for any updates;
  the payment check of releasing an order to the kitchen is left open, so it may be released at any time.
- ValuationIsKnown: the FIFO value only; statuses and totals of the valuation view are not modelled.
- Standard-cost items, reorder rules and analytics: few branches or no deep state.
- Row locks, isolation levels and deadlocks: every transaction is atomic.
- Tenancy, authentication, notifications, outbox dispatch and gateway HTTP calls: input and output.
