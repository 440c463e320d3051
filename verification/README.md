# Verification of the store's order, catalog, domain and billing services

This project models the services of the multi-tenant store in Dafny and proves what they promise.
`dafny verify dfyconfig.toml` checks everything.

## How it is built

Every service that updates database rows is a `class` whose fields are the tables and whose methods
do what the PHP methods do, in the same order, with loops where the source loops and a rollback where
a transaction is left by an exception. Each method is proved against a function on the table values
(`Ends(old(Now()), Spec(...), outcome, Now())`), and the theorems are about those functions and about
every run of them. The `Serve` method of each class says that a run of its methods is a run of functions.
The members of `Effects`, and those elsewhere whose names end in `Leaves`, pin these functions down one
call at a time: what is written, what stays, and exactly when the call is refused.

| modules | subject |
|---|---|
| `Inventory`, `Orders`, `Engine` | tables, orders and what each service call does to them together |
| `InventoryService`, `OrderService` | the same calls as methods on mutable tables |
| `Meters`, `Counters`, `StockLedger`, `Rows`, `Shortages`, `LineIds`, `Attribution` | exact counters, no oversell, ledger replay, unreachable shortages, serials |
| `Timeline`, `Lifecycle`, `Gateway` | what a call can do to one order: money, status events, notices, payment references |
| `Effects` | what each call on stock and orders leaves behind, field by field, and exactly when it is refused |
| `Limits` | runs and inputs for which the counters are not exact, with the exact conditions |
| `Rounding` | line totals |
| `AttributeFilter` | the catalog's attribute filter in the URL |
| `Redirects` | slug redirects |
| `Domains`, `DomainService` | custom domains and DNS verification |
| `Subscriptions`, `SubscriptionService` | subscription charges and payments |
| `Coupons`, `Checkout` | coupon choice and redemption limits; what a discount computed on the cart meets in the order |
| `Variants`, `VariantGuard`, `VariantService` | bulk variant generation and the combination guard |
| `Outcomes`, `Text` | exceptions, and the PHP string functions used |

A module is in the file of its name, or in the file of the module it belongs to (`Rows` in
`StockLedger.dfy`, `Lifecycle` in `Timeline.dfy`, `Checkout` in `Coupons.dfy`, the services of domains,
subscriptions and variants beside their functions).

The core proof goes through *meters*. A meter is one hand-kept number (a row's reserved quantity, a
product's sold quantity, the serials of a line, a variant's net sales in the ledger); each also has a
value derived from the orders alone. `Meters.ApplyAllReads` says how far one action on the lines of an
order moves a meter, `Counters` shows that the derived value moves equally in every call, and the
theorems about reachable states follow. Serials are weighed in the whole units of each line, so their
meters run whatever is ordered; `w` in these modules is the set of variants ordered in whole units, and
is empty where a theorem asks for none.

## Assumptions

- A variant's fulfillment strategy, inventory type and backorder policy stay fixed, and each tenant has
  one default location. Orders and variants are those of one tenant.
- Quantities are non-negative integers in thousandths (a negative one is refused like zero) and money is in
  minor units. Theorems about what is reserved of a serialized variant ask that this one variant was never
  on an order in a fraction (`Counters.WholeRun`); `Limits.FractionalLinesDrift` shows why. So does
  `Shortages.ConfirmNeverRunsShort`, which derives from the reservation that the serials are there; the
  exact conditions beside it ask for nothing. No other theorem does.
- Theorems about oversell ask that adjustments leave at least the reserved quantity on hand
  (`StockLedger.CarefulOp`). That refunds stay within what was paid is proved of orders whose refunds are
  not recorded through `recordPayment` (`Timeline.RefundsByRefund`); no other theorem asks for that.
  `Limits` gives the exact conditions.
- A service call is atomic. The exceptions are the domain calls: what they read before locking is a
  parameter, so runs cover every interleaving. Only that a row passed on was read at some earlier point
  is asked (`Domains.ReadRun`). Two calls do not look again under the lock; the theorems name the
  mistake each can make (`Domains.Misplaced`, `Domains.Mistaken`), and `Domains.CurrentReadsAreSafe`
  shows that calls made one after the other make none.
- Digests are injective and random tokens do not repeat (`Domains.Avoids`); serialized signatures are
  the maps they serialize.
- Unit prices and line totals of new lines, the coupon discount and the shipping cost of a checkout,
  the answer of the gateway, DNS lookups, the clock, and whether a plan is active or a subscription
  change succeeds are parameters.
- The catalog's candidate SKUs before their numeric suffix are parameters of the generator.

## Where the code and its comments differ

- `restockFromCancellation` is documented as a no-op for untracked variants; the code looks at the
  strategy only, and restocks them (app/Services/InventoryService.php:559-573):
  `Limits.ReturnIsNoOpIffNotStocked`, `Limits.UntrackedGoodsAreRestocked`.
- The coupon service says usage limits still bind free-shipping coupons
  (app/Services/CouponService.php:127-134); `Coupons.ShippingLimitsBindIffZero` shows that they do not.
- Automatic coupons are documented to prefer free shipping always
  (app/Services/CouponService.php:207-211); `Coupons.ScorePicksBestIff` gives the condition.
- The redirect service says its deletion prevents chains (app/Services/RedirectService.php:30);
  `Redirects.ChainIff` says when a chain starts all the same.
- The gateway callback is written to ignore satisfied payments instead of failing the webhook
  (app/Services/PaymentGatewayService.php:85-90); `Shortages.CallbackThrowsIff` shows that with automatic
  confirmation every callback that pays a pending order in full ends in an exception
  (`Limits.PaidInFullThrows` is a run), and without it exactly those whose serials are not there: the
  payment is then on file, the order stays pending, and the gateway's next delivery is ignored
  (`Limits.PaidInFullStaysPending`).
- The generator calls the rejection of a combination a skip (app/Services/BulkVariantGeneratorService.php:112-115);
  `Variants.RejectedCombinationLeavesAVariant` shows the variant it leaves behind.

## Model

| member | source | states |
|---|---|---|
| `Counters.CountersAreExact` | app/Services/OrderService.php:515-560 | Over every run, with any backorder policy: sold quantity = what orders took and did not return, and the serials sold to a line are exactly the whole units its order holds. Reserved quantity = that variant's quantity on pending orders, unless this very variant is serialized and was on an order in a fraction. So no clamp on these numbers has ever changed a result |
| `Counters.StepCounts` | app/Services/InventoryService.php:395-484 | Each of the twenty calls keeps all hand-kept counters equal to what the orders say; those that count quantities of a serialized variant, while its lines are whole |
| `Counters.GoodsComeBackAtMostOnce` | app/Services/OrderService.php:803-851 | Over any run, also of fractional quantities, an order's goods leave at most once and come back at most once, by cancellation or by a restocking refund, and never before they left |
| `Meters.ApplyAllReads` | app/Services/InventoryService.php:445-540 | Reserving, releasing, committing or returning the lines of an order moves each counter by exactly the sum of what its lines count for, quantities or whole units: no clamp fires, and the truncation of serials shows only in the reservation and the ledger of a variant ordered in a fraction |
| `Meters.ReassignMoves` | app/Services/InventoryService.php:505-525 | Handing serials over fails exactly when too few are held, moves exactly the asked number, and the recount leaves the row at the number still available |
| `StockLedger.NothingIsOversold` | app/Services/InventoryService.php:395-484 | For a stocked variant whose backorder policy is unset or deny, over every run whose adjustments of it leave the reserved quantity, and that orders it in whole units if it is serialized: reserved <= quantity, and quantity plus what orders hold = restocks plus adjustments (or registered serials) |
| `StockLedger.SerializedStockIsCounted` | app/Observers/SerialNumberObserver.php:13-26 | Over every run, with any backorder policy and in any quantities, a serialized row equals the number of available serials, and the whole units orders hold are the registered serials that are not available |
| `StockLedger.LedgerReplays` | app/Services/InventoryService.php:704-731 | For a variant counted by quantity, whatever else is ordered, folding the movements gives back both numbers of the row, quantity and quantity minus reserved, and each row's quantity_after is the running quantity |
| `Effects.ReservableIff` | app/Services/InventoryService.php:395-425 | A reservation of a stocked variant is refused if and only if the policy is neither allow nor notify and less than the quantity is free; a variant without a policy is not backordered. It adds to the reserved quantity and logs itself |
| `Effects.ReleaseGivesBack` | app/Services/InventoryService.php:427-443 | A release takes off at most what is reserved, and logs itself |
| `Effects.CommitCountedMoves` | app/Services/InventoryService.php:445-484 | Row, ledger and sold counter after a counted line is committed: each clamped at zero, sold in full |
| `Effects.CommitSerializedMoves` | app/Services/InventoryService.php:486-540 | Row, ledger and sold counter after a serialized line is committed, and exactly when the serials run short |
| `Effects.ReturnCountedMoves` | app/Services/InventoryService.php:568-604 | A returned counted line is put back in full and taken off the sold counter |
| `Effects.ReturnSerializedMoves` | app/Services/InventoryService.php:617-659 | The same of a serialized line, which fails exactly when its serials are not on file |
| `Effects.SupplyMoves` | app/Services/InventoryService.php:542-675 | Which manual restocks and adjustments are carried out, and the one row they change |
| `Effects.ReceivedSerial` | app/Observers/SerialNumberObserver.php:13-26 | A registered serial is available and its variant's row is recounted |
| `LineIds.LinesOwnTheirSerials` | app/Services/InventoryService.php:486-540 | In every reachable state a serialized line owns exactly its whole units in sold serials while its order has the goods, and none otherwise |
| `LineIds.RunKeepsItems` | app/Services/OrderService.php:288-307 | No two order lines ever share an id, so no serial can belong to two lines |
| `Attribution.RunHeld` | app/Services/InventoryService.php:617-659 | Over any run that neither takes nor returns an order's goods, the very same serials stay with the order, whatever happens to other orders |
| `Attribution.CancelReturnsWhatConfirmTook` | app/Services/OrderService.php:524-560 | Whatever happened in between, a serial changes hands when an order is cancelled if and only if it changed hands when that order was confirmed, and it is handed back as it was |
| `Attribution.RefundReturnsWhatConfirmTook` | app/Services/OrderService.php:827-851 | The same of a refund that restocks: it hands back exactly the serials that the confirmation took, as they were |
| `Effects.FirstSerialsAreSold` | app/Services/InventoryService.php:501-520 | Committing a serialized line sells it exactly the first available serials by id, as many as its whole units, and touches no other |
| `Effects.FirstSerialsComeBack` | app/Services/InventoryService.php:617-659 | Returning it makes exactly the first serials sold to the line available again |
| `Shortages.ConfirmSucceedsIff` | app/Services/InventoryService.php:505-513 | In every reachable state a pending order can be confirmed if and only if of every serialized variant there are as many available serials as its lines ask for together; otherwise the exception is the shortage |
| `Shortages.ConfirmNeverRunsShort` | app/Services/InventoryService.php:505-513 | Confirming a pending order succeeds in every reachable state when its serialized variants deny backorders and were ordered in whole units, whatever its other lines: the shortage exception inside the commit is unreachable |
| `Shortages.CancelNeverFails` | app/Services/InventoryService.php:631-635 | In every reachable state cancelling succeeds if and only if the status allows it: the shortage exception inside the return is unreachable |
| `Shortages.PaymentSucceedsIff` | app/Services/OrderService.php:590-656 | In every reachable state recording a payment succeeds if and only if its own guards hold and, when it confirms the order on the way, the serials for its lines are there; it confirms exactly when it should, and a shortage is the only further failure |
| `Shortages.RefundSucceedsIff` | app/Services/OrderService.php:714-790 | In every reachable state a refund succeeds if and only if its own guards hold: the restocking loop never runs short |
| `Shortages.CallbackThrowsIff` | app/Services/PaymentGatewayService.php:75-98 | In every reachable state a gateway callback throws if and only if it pays a pending order in full and orders are confirmed automatically or the serials for its lines are not there; with the serials the order is Confirmed all the same, without them nothing is written, or, when orders are not confirmed automatically, the order is paid and stays pending |
| `Shortages.MarkFailedNeverThrows` | app/Services/PaymentGatewayService.php:106-128 | In every reachable state a failure callback throws nothing |
| `Shortages.SweepSucceeds` | app/Services/OrderService.php:1446-1472 | Whatever was ordered, the expiry sweep never throws, cancels exactly the expired pending orders and touches no other |
| `Lifecycle.StepTravels` | app/Services/OrderService.php:1108-1120 | Every call takes every order through a sequence of allowed changes (edit while pending, legal move, payment within what is due, refund within what was paid, courier report) and places at most one order; only recordPayment with status Refunded can book a refund without looking at what was paid, and only on its own order |
| `Effects.TransitionsAre` | app/Enums/OrderStatus.php:31-42 | The legal moves: one step ahead at a time, cancelled until delivered, refunded once delivered or cancelled |
| `Effects.StatusMoves` | app/Services/OrderService.php:487-588 | A legal move changes the status, writes the timeline, sells the goods on confirmation, releases them when a pending order and returns them when a later one is cancelled; all else stays, and illegal moves are refused |
| `Effects.ClaimCancels` | app/Services/OrderService.php:1484-1505 | Claiming cancels a pending order with its reservations released, and leaves every other order alone |
| `Effects.PlaceIff` | app/Services/OrderService.php:356-482 | An order is placed if and only if it has lines, all are known, sellable and reservable, and a website discount does not exceed them |
| `Effects.PlaceOpens` | app/Services/OrderService.php:258-308 | What a placed order is: pending, its lines as requested under new ids, one pending consignment per strategy in order of first use, the website's discount, the totals, nothing paid; its lines are reserved and no other order changes |
| `Effects.StrategiesInOrderOfUse` | app/Services/OrderService.php:258-286 | Each strategy in use occurs once, in the order in which the lines first use it |
| `Effects.VettedIff` | app/Services/OrderService.php:371-409 | The checks before the first write pass if and only if every line is purchasable, and not zero on the admin form |
| `Effects.AddItemIff` | app/Services/OrderService.php:1122-1163 | When a line is added, and what that leaves |
| `Effects.QuantityEdit` | app/Services/OrderService.php:1165-1213 | A new quantity reserves or releases exactly the difference and prices the line at unit price x quantity rounded half up; other lines stay |
| `Effects.PriceEdit` | app/Services/OrderService.php:1295-1333 | A new unit price does the same without moving goods, and asks for a reason |
| `Effects.VariantEdit` | app/Services/OrderService.php:1243-1293 | A new variant releases the old goods, reserves the new ones and takes over the new price |
| `Effects.RemovalEdit` | app/Services/OrderService.php:1215-1241 | A removed line is released |
| `Effects.DiscountAndShippingEdits` | app/Services/OrderService.php:1335-1391 | Discount and shipping cost are set as given, if and only if the order is pending and the totals allow it |
| `Effects.EditedIff` | app/Services/OrderService.php:1066-1094 | An edit goes through if and only if the discount stays within the lines and the total covers what was paid |
| `Effects.LineEditsIff` | app/Services/OrderService.php:1165-1241 | When a new quantity and a removal are accepted |
| `Effects.VariantEditIff` | app/Services/OrderService.php:1243-1293 | When a new variant is accepted |
| `Effects.PriceEditIff` | app/Services/OrderService.php:1295-1333 | When a new unit price is accepted |
| `Effects.PaymentLeaves` | app/Services/OrderService.php:590-656 | A recorded payment adds exactly its row, and confirms the order when automatic confirmation is on and it completes a pending order |
| `Effects.CollectionBooks` | app/Services/OrderService.php:676-698 | Cash for a consignment is a payment on the order that has it, under the consignment's own reference |
| `Effects.RefundLeaves` | app/Services/OrderService.php:714-790 | A refund adds exactly its row; goods come back when asked; a full one of a cancelled or delivered order ends Refunded |
| `Effects.MoneyThrows` | app/Services/OrderService.php:590-745 | Which exception a refused payment or refund throws: a missing order, then amounts and status, then the reference |
| `Effects.EditsThrow` | app/Services/OrderService.php:1108-1391 | Which exception a refused edit throws: a missing order, then its status, then the line and the arguments |
| `Effects.PlaceThrows` | app/Services/OrderService.php:356-482 | Which exception a refused checkout throws before and after the checks of its lines |
| `Effects.FirstBadLineThrows` | app/Services/OrderService.php:381-393 | The first line that does not pass decides: a zero quantity on the admin form, or not purchasable |
| `Timeline.OrdersStaySound` | app/Services/OrderService.php:1066-1094 | In every reachable state: subtotal = sum of line totals, grand total = subtotal + shipping + tax - discount, discount <= subtotal, 0 <= paid <= grand total, the status events chain legally from Pending to the current status, and no notice is written twice |
| `Timeline.RefundsStayCovered` | app/Services/OrderService.php:714-745 | Over every run, an order whose refunds all go through refund() is never refunded more than was paid on it |
| `Timeline.WalksAreShort` | app/Enums/OrderStatus.php:31-42 | A legal timeline visits each status at most once and has at most six status events |
| `Timeline.ReportsOnlyDeliver` | app/Services/OrderService.php:905-945 | A courier report changes the status if and only if the order is Shipped and every consignment is delivered, then to Delivered; terminal orders neither move nor get notices |
| `Timeline.RepeatedReportsAreQuiet` | app/Services/OrderService.php:978-990 | Repeating a report changes neither the status nor the set of notices |
| `Timeline.FailuresAreNoticed` | app/Services/OrderService.php:944-967 | While an order is under way, after a report every failed consignment is on a notice that names exactly the failed ones |
| `Effects.ReportWrites` | app/Services/OrderService.php:905-968 | What a courier report makes of an order, case by case: terminal orders only log it; all delivered moves a shipped order to Delivered and puts any other on notice once; failed consignments are noticed once; nothing else changes |
| `Effects.ReportSets` | app/Services/OrderService.php:860-890 | A report sets the status of the consignment it names and of no other, on the one order that has it |
| `Effects.UnknownParcelRefused` | app/Services/OrderService.php:860-890 | A report on a consignment of no order is refused |
| `Gateway.ReferencesAreUnique` | app/Services/PaymentGatewayService.php:64-66 | In every reachable state at most one payment carries a given transaction reference, and a reference once used stays used |
| `Gateway.RepeatedCallbacksAreIgnored` | app/Services/PaymentGatewayService.php:106-128 | Once a transaction is on file, each later success or failure delivery of it, after any run of calls, changes nothing and throws nothing |
| `Gateway.CallbackTwice` | app/Services/PaymentGatewayService.php:56-98 | Delivering the same callback twice leaves the state of delivering it once, also when the first delivery was swallowed or threw |
| `Gateway.FailedTwice` | app/Services/PaymentGatewayService.php:106-128 | And so does delivering the same failure twice |
| `Effects.FailureCancels` | app/Services/PaymentGatewayService.php:106-128 | In every reachable state a failure with an unused transaction files the whole total as failed, and a pending order ends Cancelled with its lines released; a cancelled order is left alone and any other gets the row only |
| `Effects.BadCallbackCancels` | app/Services/PaymentGatewayService.php:56-98 | And so does a callback that is invalid or not over the whole total, for the amount it reports |
| `Effects.GoodCallbackConfirms` | app/Services/PaymentGatewayService.php:75-98 | A valid callback over the whole total books it as paid and confirms a pending order whose serials are there |
| `Gateway.CallbacksConfirmOnlyPaidOrders` | app/Services/PaymentGatewayService.php:75-98 | A callback moves an order only out of Pending, into Confirmed only when it is valid and paid equals the grand total, otherwise into Cancelled |
| `Gateway.RepeatedCollectionsAreIgnored` | app/Services/OrderService.php:676-698 | Booking a consignment's cash again, after any run, changes nothing |
| `Gateway.CodReferencesDiffer` | app/Services/OrderService.php:679 | Two consignments never derive the same reference |
| `Limits.SerialCommitExactIffWhole` | app/Services/InventoryService.php:488-523 | A serialized commit releases exactly its reservation and takes exactly its units if and only if the quantity and what is reserved are whole: PHP truncates, the CAST rounds |
| `Limits.FractionalLinesDrift` | app/Services/InventoryService.php:522-523 | A run ordering and confirming half a serialized unit ends with a whole unit reserved for no order |
| `Limits.PurchasableReservableIff` | app/Services/PurchasabilityPolicy.php:26-54 | What is shown as purchasable can be reserved if and only if it is not serialized stock that pending orders already hold |
| `Effects.PurchasableIff` | app/Services/PurchasabilityPolicy.php:26-54 | What counts as purchasable: not discontinued; serialized goods by their available serials; counted goods by a policy of allow or notify or by what is free |
| `Limits.HeldSerialShowsAsPurchasable` | app/Services/PurchasabilityPolicy.php:26-54 | A run after which the only serial, held by a pending order, shows as purchasable and cannot be reserved |
| `Limits.ReservableIsPurchasable` | app/Services/InventoryService.php:304-338 | Whatever can be reserved without a backorder is shown as purchasable, unless it is discontinued |
| `Limits.SaleUndoneIffCovered` | app/Services/InventoryService.php:467-470 | Committing and taking back leaves max(on hand, quantity); it undoes the sale if and only if the goods were on hand |
| `Limits.CancelledBackordersCreateStock` | app/Services/InventoryService.php:588-591 | A run that backorders, confirms and cancels one unit ends with a unit in stock although none was supplied |
| `Limits.BackorderedSerialRunsShort` | app/Services/InventoryService.php:505-513 | A run that orders two units of a backorderable serialized variant with one serial, and cannot confirm them |
| `Limits.ReturnIsNoOpIffNotStocked` | app/Services/InventoryService.php:559-573 | Returning goods changes nothing if and only if the variant is not stocked, however it is tracked; the comment promises the same for untracked variants |
| `Limits.UntrackedGoodsAreRestocked` | app/Services/InventoryService.php:559-591 | A run in which cancelling an order of an untracked variant puts a unit on its row |
| `Limits.PaidInFullThrows` | app/Services/PaymentGatewayService.php:84-98 | A run with automatic confirmation in which a valid callback over the order's total ends in an exception, the order Confirmed and paid |
| `Limits.PaidInFullStaysPending` | app/Services/PaymentGatewayService.php:64-98 | A run in the default configuration in which a valid callback over the whole total ends in a shortage: the payment is on file, the order pending, and after the serial arrived the same callback changes nothing |
| `Limits.AdjustmentReplaysIffNotClamped` | app/Services/InventoryService.php:670-673 | An adjustment keeps the ledger in step with the row if and only if it does not reach below zero |
| `Limits.ClampedAdjustment` | app/Services/InventoryService.php:670-673 | Taking a unit off an empty row leaves a ledger that replays to -1 unit |
| `Limits.SerialsOverwriteCountedStock` | app/Observers/SerialNumberObserver.php:17-25 | Registering a serial of a variant counted by quantity keeps its ledger if and only if the recount happens to equal the count |
| `Limits.RegisteredSerialLosesStock` | app/Observers/SerialNumberObserver.php:17-25 | Restocking five units and registering one serial leaves one unit on the row and five in the ledger |
| `Limits.PaymentAsRefundSoundIffCovered` | app/Services/OrderService.php:590-635 | Recording a payment with status Refunded keeps refunded <= paid if and only if it stays within what was paid |
| `Limits.UnpaidOrderRefunded` | app/Services/OrderService.php:590-635 | A run that refunds an order on which nothing was paid |
| `InventoryService.Service.Reserve` | app/Services/InventoryService.php:395-425 | New tables and exception of a guarded reservation; a rejected one changes nothing |
| `InventoryService.Service.Release` | app/Services/InventoryService.php:427-443 | New tables of a released reservation |
| `InventoryService.Service.Commit` | app/Services/InventoryService.php:445-484 | New row, sold counter and ledger of a committed line, serialized or counted |
| `InventoryService.Service.CommitSerials` | app/Services/InventoryService.php:486-540 | First available serials by id are sold to the line; too few throw before anything is written |
| `InventoryService.Service.HandOver` | app/Observers/SerialNumberObserver.php:13-26 | Saving serials one after the other with a recount after each ends in all of them moved and the row recounted once |
| `InventoryService.Service.Saved` | app/Observers/SerialNumberObserver.php:13-26 | The recount overwrites the row's quantity and nothing else |
| `InventoryService.Service.RestockFromCancellation` | app/Services/InventoryService.php:568-604 | New tables of a returned line; only the strategy makes it a no-op, untracked variants are restocked too |
| `InventoryService.Service.ReturnSoldSerials` | app/Services/InventoryService.php:617-659 | The line's serials become available again; too few throw |
| `InventoryService.Service.Restock` | app/Services/InventoryService.php:542-556 | New tables and exceptions of a manual restock |
| `InventoryService.Service.Adjust` | app/Services/InventoryService.php:661-675 | New tables and exceptions of a manual adjustment, clamped at zero |
| `InventoryService.Service.LogMovement` | app/Services/InventoryService.php:704-731 | One row is appended, stamped with the quantity on hand |
| `OrderService.Service.Place` | app/Services/OrderService.php:356-482 | Whole new state of placing an order (checks, consignments, items and reservations, totals), or the exception with everything rolled back |
| `OrderService.Service.CreateFulfillments` | app/Services/OrderService.php:258-286 | The consignment loop creates one consignment per fulfillment strategy, in order of first appearance |
| `OrderService.Service.CreateItems` | app/Services/OrderService.php:288-308 | The item loop creates and reserves every line, or stops at the first exception |
| `OrderService.Service.AddItem` | app/Services/OrderService.php:1122-1163 | New state of adding a line to a pending order, or the exception with everything rolled back |
| `OrderService.Service.UpdateItemQuantity` | app/Services/OrderService.php:1165-1213 | The difference is reserved or released and the line repriced, or nothing changes |
| `OrderService.Service.RemoveItem` | app/Services/OrderService.php:1215-1241 | The line's reservation is released and the line removed, or nothing changes |
| `OrderService.Service.ChangeItemVariant` | app/Services/OrderService.php:1243-1293 | The old variant is released before the new one is reserved; a failure of either undoes both |
| `OrderService.Service.AdjustItemUnitPrice` | app/Services/OrderService.php:1295-1333 | New state of repricing a line, or the exception |
| `OrderService.Service.ApplyOrderDiscount` | app/Services/OrderService.php:1335-1363 | New state of setting the discount, or the exception |
| `OrderService.Service.UpdateShipping` | app/Services/OrderService.php:1365-1391 | New state of setting the shipping cost, or the exception |
| `OrderService.Service.RecalculateTotals` | app/Services/OrderService.php:1066-1094 | Totals derived from the lines, refused when the discount exceeds them or they fall below what was paid |
| `OrderService.Service.ApplyStatusTransition` | app/Services/OrderService.php:515-588 | Status, goods and timeline after a transition, with the loops over the lines |
| `OrderService.Service.ActOnItems` | app/Services/OrderService.php:529-533 | The loop over the lines performs the action on each in turn and stops at the first exception |
| `OrderService.Service.UpdateStatus` | app/Services/OrderService.php:487-504 | New state of a legal transition; an illegal or failing one changes nothing |
| `OrderService.Service.ClaimPendingOrder` | app/Services/OrderService.php:1484-1505 | Cancels a pending order once, otherwise does nothing |
| `OrderService.Service.ReleaseExpiredReservations` | app/Services/OrderService.php:1446-1472 | The sweep loop over all orders, in one transaction |
| `OrderService.Service.RecordPayment` | app/Services/OrderService.php:590-656 | New state of a recorded payment, with auto-confirmation, or the exception with nothing written |
| `OrderService.Service.RecordCodCollection` | app/Services/OrderService.php:676-698 | Books a consignment's cash once |
| `OrderService.Service.Refund` | app/Services/OrderService.php:714-790 | New state of a refund, with restocking and the move to Refunded, or the exception with nothing written |
| `OrderService.Service.BookRefund` | app/Services/OrderService.php:757-782 | The refund row and the returned goods of a refund, or the exception with nothing written |
| `OrderService.Service.PropagateFulfillment` | app/Services/OrderService.php:905-968 | What all consignments together make of the order |
| `OrderService.Service.UpdateFulfillment` | app/Services/OrderService.php:860-890 | New state after a courier report |
| `OrderService.Service.HandleCallback` | app/Services/PaymentGatewayService.php:56-98 | State and escaping exception after a gateway callback, transaction by transaction |
| `OrderService.Service.MarkFailed` | app/Services/PaymentGatewayService.php:106-128 | State and escaping exception after a failure callback |
| `OrderService.Service.Serve` | app/Services/OrderService.php:487-504 | Any sequence of calls on the object ends in the state the theorems about runs speak of |
| `Rounding.HalfUp` | app/Services/OrderService.php:1100-1106 | The line total is the only integer with -500 < 1000 x total - price x quantity <= 500 |
| `Rounding.SubtotalWithinHalves` | app/Models/CartItem.php:35-41 | A subtotal of n lines is within n/2 minor units of the exact value |
| `Rounding.SplittingMovesAtMostOne` | app/Services/OrderService.php:1100-1106 | Splitting a line changes its cost by at most one minor unit |
| `Rounding.Monotone` | app/Services/OrderService.php:1100-1106 | More of the same goods never costs less |
| `Rounding.PerUnitWithinBounds` | app/Services/Pricing/CartPricingService.php:72-76 | The per-unit total exceeds price x quantity / base by at most one half, and falls short by less than 1/2 + 1/1000 + quantity/10^9 |
| `Rounding.EditsKeepPerUnitPricesIffWhole` | app/Services/OrderService.php:1197-1199 | An edit reprices from the stored unit price; that equals per-unit pricing for every quantity if and only if the unit price came out whole |
| `Rounding.PerUnitEditsDrift` | app/Services/Pricing/CartPricingService.php:84-107 | Three thirds of 100 cost 100 when ordered and 99 once the quantity was edited |
| `AttributeFilter.RoundTripIffClean` | app/Livewire/ProductCatalog.php:164-199 | parse(print(a)) = a if and only if codes are distinct, trimmed and free of ':' and ';', and value lists are non-empty with trimmed non-empty values free of ',' and ';' |
| `AttributeFilter.ParsePrintParse` | app/Livewire/ProductCatalog.php:164-199 | For every string, parsing what was printed drops exactly the codes without values |
| `AttributeFilter.NormalizingIsIdempotent` | app/Livewire/ProductCatalog.php:164-199 | For every string, print after parse is idempotent |
| `AttributeFilter.AbsentToggledTwice` | app/Livewire/ProductCatalog.php:204-223 | Toggling an absent value twice restores the selection if and only if its code was not set to an empty list |
| `AttributeFilter.EmptyCodeIsLost` | app/Livewire/ProductCatalog.php:204-223 | A URL such as "size:" sets its code to an empty list, and toggling any value twice loses the code |
| `AttributeFilter.SharedLinksRestoreTheSelection` | app/Livewire/ProductCatalog.php:204-223 | After any clicks on clean codes and values the URL restores exactly the selection |
| `AttributeFilter.ToggleLeaves` | app/Livewire/ProductCatalog.php:204-223 | Toggling appends an absent value to its code and takes out the first occurrence of a present one, drops a code left empty, and leaves the other codes as they are and in order |
| `AttributeFilter.SplitJoin` | app/Livewire/ProductCatalog.php:173-182 | explode undoes implode for parts free of the delimiter |
| `Text.TrimCuts` | app/Livewire/ProductCatalog.php:164-185 | trim removes blanks only, and leaves neither end blank |
| `AttributeFilter.ProductCatalog.constructor` | app/Livewire/ProductCatalog.php:83-88 | Mounting parses the URL's filter |
| `AttributeFilter.ProductCatalog.ParseAttrFilter` | app/Livewire/ProductCatalog.php:164-185 | The segment loop computes the parse of the filter string |
| `AttributeFilter.ProductCatalog.SyncAttrFilter` | app/Livewire/ProductCatalog.php:190-199 | The loop over the entries prints them |
| `AttributeFilter.ProductCatalog.ToggleAttr` | app/Livewire/ProductCatalog.php:204-223 | The value is spliced out or appended, the code unset when empty, and the URL kept in step |
| `Redirects.RowsAreSurvivors` | app/Services/RedirectService.php:20-37 | After any slug changes of any entities, path -> target is redirected if and only if it was the last change away from path and no later change left target |
| `Redirects.NoCycles` | app/Services/RedirectService.php:30-31 | No redirect leads back to where it started, in any number of hops |
| `Redirects.RedirectsEnd` | app/Services/RedirectService.php:30-36 | Following redirects ends within as many hops as there are rows |
| `Redirects.RevertedRename` | app/Services/RedirectService.php:30-36 | Taking a rename back leaves only the reverse redirect |
| `Redirects.RenamedTwice` | app/Services/RedirectService.php:30-31 | Renaming on drops the redirect of the first name |
| `Redirects.ChainIff` | app/Services/RedirectService.php:30-31 | A new row starts a chain if and only if its target was itself renamed away from, other than to the path just left |
| `Redirects.ChainedRenames` | app/Services/RedirectService.php:30-36 | After b -> c and then a -> b, following a takes two hops |
| `Redirects.ChangeLeaves` | app/Services/RedirectService.php:30-36 | One change leaves a row old -> new marked with its entity, no row into the old path, and every other row as it was |
| `Redirects.EffectiveIff` | app/Services/RedirectService.php:9-28 | Exactly which changes count (both slugs given, neither empty nor 0, different, of one of six kinds), and the path of each kind |
| `Redirects.RedirectService.RecordSlugChange` | app/Services/RedirectService.php:20-37 | Rows into the old path are deleted, then old -> new is upserted; ignored changes do nothing |
| `Redirects.RedirectService.Serve` | app/Services/RedirectService.php:20-37 | Any sequence of slug changes on the object ends in the table the theorems speak of |
| `Domains.StatusFollowsTransitions` | app/Enums/DomainStatus.php:28-42 | In any interleaving every status change is an allowed transition, the tenant never changes, and only pending or failed domains are removed |
| `Domains.TransitionsAre` | app/Enums/DomainStatus.php:28-42 | The allowed transitions, spelled out |
| `Domains.CreateLeaves` | app/Services/DomainManagementService.php:41-73 | A new domain is pending and unverified under a new id, and nothing else changes |
| `Domains.RegenerateLeaves` | app/Services/DomainManagementService.php:76-124 | A regenerated challenge makes the row pending and unverified with no attempts, exactly when both statuses allow it |
| `Domains.CheckLeaves` | app/Services/DomainDnsVerificationService.php:90-188 | What a finished check leaves behind: verified, retrying or failed, with the attempt counted, or nothing |
| `Domains.MarkVerifiedLeaves` | app/Services/DomainManagementService.php:126-172 | What a manual verification leaves behind: verified, failed with the attempt counted, or nothing |
| `Domains.RecordFailureLeaves` | app/Services/DomainManagementService.php:174-202 | A recorded failure marks a pending or failed row, and leaves any other alone |
| `Domains.ActivateLeaves` | app/Services/DomainManagementService.php:204-238 | The row becomes active and nothing else changes, exactly when both statuses allow it and it was read as verified |
| `Domains.SuspendLeaves` | app/Services/DomainManagementService.php:240-259 | An active row becomes suspended and is its tenant's primary domain no longer; other rows and tenants stay |
| `Domains.RevokeLeaves` | app/Services/DomainManagementService.php:261-284 | Whatever its status, the row becomes revoked and is the primary domain no longer; other rows and tenants stay |
| `Domains.RevokedForGood` | app/Services/DomainManagementService.php:270-281 | On a current read every domain that is not yet revoked ends revoked and is not its tenant's primary domain |
| `Domains.SetPrimaryLeaves` | app/Services/DomainManagementService.php:286-319 | The tenant's primary domain is set and nothing else, exactly when the row was read as active and verified |
| `Domains.ClearPrimaryLeaves` | app/Services/DomainManagementService.php:321-339 | Only the tenant's primary domain is cleared, and only when it is this one |
| `Domains.RemoveLeaves` | app/Services/DomainManagementService.php:341-361 | Only this row is removed, exactly when it was read as pending or failed and still is |
| `Domains.RefusedIff` | app/Services/DomainManagementService.php:76-361 | Exactly which of these calls end in an exception |
| `Domains.RevokedIsFinal` | app/Enums/DomainStatus.php:40 | A revoked domain stays revoked through every later call |
| `Domains.RowsStaySound` | app/Services/DomainDnsVerificationService.php:161-188 | In any interleaving a pending domain has attempts left and only verified domains are Verified, Active or Suspended |
| `Domains.PrimariesStaySafe` | app/Services/DomainManagementService.php:286-339 | In any interleaving a tenant's primary domain is its own, active and verified, unless the tenant's last setPrimary chose a domain that had left Active since it was read |
| `Domains.CurrentReadsAreSafe` | app/Services/DomainManagementService.php:286-299 | Calls that run one after the other lock what they read: none chooses an inactive primary domain or accepts the answer to a replaced challenge |
| `Domains.ReadsNameTheirTenant` | app/Services/DomainManagementService.php:240-319 | However stale the row that suspend, revoke or setPrimary read, it names the tenant of the row they lock |
| `Domains.SetPrimarySafeIffStillActive` | app/Services/DomainManagementService.php:291-311 | setPrimary does not look again under the lock: it leaves its tenant safe if and only if the locked row is that tenant's and still active |
| `Domains.SuspendedPrimary` | app/Services/DomainManagementService.php:291-311 | A run from the empty state in which a domain read as active is suspended and then made primary |
| `Domains.VerifiedIffProven` | app/Services/DomainDnsVerificationService.php:114-130 | In any interleaving verified_at is set if and only if the last challenge issued was answered since, over DNS while pending or by hand, in time, or markVerified accepted the answer to a replaced challenge since |
| `Domains.ActiveDomainsAreProven` | app/Services/DomainManagementService.php:204-238 | No domain is ever Verified, Active or Suspended on a challenge that nobody answered, except after that one mistake |
| `Domains.MarkVerifiedSoundIffStillCurrent` | app/Services/DomainManagementService.php:132-167 | markVerified compares with the row it read: it answers the current challenge if and only if that challenge was not replaced meanwhile |
| `Domains.ReplacedChallengeStillVerifies` | app/Services/DomainManagementService.php:132-167 | A run from the empty state in which an answer to the replaced challenge verifies the domain on the new one |
| `Domains.CheckVerifiesIff` | app/Services/DomainDnsVerificationService.php:93-130 | A check verifies if and only if the domain is pending, unexpired, still on the digest the check started with, and a trimmed TXT value hashes to it; it asks for a retry only while pending |
| `Domains.StaleChecksAreHarmless` | app/Services/DomainDnsVerificationService.php:97-105 | A check that started before a regeneration changes nothing, however the run went on |
| `Domains.RetriesEnd` | app/Services/DomainDnsVerificationService.php:139-157 | While a challenge is pending, fewer checks than the limit ran on it |
| `DomainService.Service.CreatePendingDomain` | app/Services/DomainManagementService.php:41-73 | A new pending domain with a fresh challenge |
| `DomainService.Service.RegenerateVerificationChallenge` | app/Services/DomainManagementService.php:76-124 | New challenge, attempts and verification reset, or the exception |
| `DomainService.Service.FinishCheck` | app/Services/DomainDnsVerificationService.php:90-158 | The locked part of a check, with the loop over the TXT values |
| `DomainService.Service.RecordFailure` | app/Services/DomainDnsVerificationService.php:161-188 | The failed attempt is counted, and the domain stays pending exactly when it will retry |
| `DomainService.Service.MarkVerified` | app/Services/DomainManagementService.php:126-172 | State and exception of a manual verification, including the failure it records |
| `DomainService.Service.RecordVerificationFailure` | app/Services/DomainManagementService.php:174-202 | A failed attempt is recorded when the transition allows it |
| `DomainService.Service.Activate` | app/Services/DomainManagementService.php:204-238 | New state or exception |
| `DomainService.Service.Suspend` | app/Services/DomainManagementService.php:240-259 | New state with the primary domain cleared, or the exception |
| `DomainService.Service.Revoke` | app/Services/DomainManagementService.php:261-284 | New state with the primary domain cleared, or the exception |
| `DomainService.Service.SetPrimary` | app/Services/DomainManagementService.php:286-319 | New state or exception |
| `DomainService.Service.ClearPrimaryDomain` | app/Services/DomainManagementService.php:321-339 | The tenant's primary domain is cleared when it is this one |
| `DomainService.Service.RemovePendingDomain` | app/Services/DomainManagementService.php:341-361 | The row is deleted when both the read and the locked status allow it |
| `Domains.RunAfter` | app/Services/DomainManagementService.php:41-341 | An object that served some calls and then serves more is in the state after all of them |
| `DomainService.Service.Serve` | app/Services/DomainManagementService.php:41-341 | Any sequence of calls on the object ends in the state the theorems about runs speak of |
| `Subscriptions.LedgerStaysSound` | app/Services/SubscriptionPaymentService.php:128-209 | Over every run: paid = sum of verified payments, in [0, net]; status is Open, PartiallyPaid or Paid exactly as paid is 0, between or net; a charge settled by a verification changed the subscription exactly once, all others never; at most one open or partial charge per tenant and intent; references are unique |
| `Subscriptions.RecordLeaves` | app/Services/SubscriptionPaymentService.php:38-126 | Recording appends exactly one pending payment, of the charge's tenant, plan and intent, worth the amount given or else what is outstanding, and is refused exactly by its guards |
| `Subscriptions.PaymentsAreWorthWhatWasAsked` | app/Services/SubscriptionPaymentService.php:69-113 | Over every run the payments recorded in it are worth, one by one, the amounts their calls asked for |
| `Subscriptions.SettledIffAskedInFull` | app/Services/SubscriptionPaymentService.php:176-199 | Over every run from an empty ledger, a charge is settled if and only if the amounts asked for in its verified payments add up to what it asks; they never add up to more |
| `Subscriptions.VerifyLeaves` | app/Services/SubscriptionPaymentService.php:128-209 | Verifying adds the amount to the charge, and settles it with one subscription change exactly when it is complete |
| `Subscriptions.RejectLeaves` | app/Services/SubscriptionPaymentService.php:211-239 | Rejecting marks exactly the one pending payment, and needs a reason |
| `Subscriptions.CreateLeaves` | app/Services/SubscriptionChargeService.php:31-89 | A new charge asks for the base less the discount, exactly when the tenant has none of its kind open |
| `Subscriptions.BackfillLinksAll` | app/Services/SubscriptionChargeService.php:97-160 | Backfilling gives every verified payment without a charge a new charge that mirrors it and is paid with it, no two payments the same one, and touches nothing else |
| `Subscriptions.BackfillTwice` | app/Services/SubscriptionChargeService.php:97-160 | Its second run links none and changes nothing |
| `Subscriptions.DiscountGranted` | app/Services/SubscriptionChargeService.php:162-191 | Exactly which discounts are granted, and that they stay below the base amount |
| `Subscriptions.ReferencesAreNormal` | app/Services/SubscriptionPaymentService.php:297-300 | A stored reference is its own normal form, so the same reference is refused however it is typed |
| `Subscriptions.NormalizedIs` | app/Services/SubscriptionPaymentService.php:297-300 | A normal form is the reference without the blanks around it, letter by letter in capitals |
| `Subscriptions.VerifiableIff` | app/Services/SubscriptionPaymentService.php:166-174 | A pending payment can be verified if and only if its charge still has that much outstanding |
| `Subscriptions.RefusedSettlementChangesNothing` | app/Services/SubscriptionPaymentService.php:183-188 | When the subscription change throws, no charge is settled and no change recorded |
| `SubscriptionService.Service.CreateCharge` | app/Services/SubscriptionChargeService.php:31-89 | New ledger or exception |
| `SubscriptionService.Service.Record` | app/Services/SubscriptionPaymentService.php:38-126 | New ledger or exception |
| `SubscriptionService.Service.Verify` | app/Services/SubscriptionPaymentService.php:128-209 | New ledger or exception |
| `SubscriptionService.Service.Reject` | app/Services/SubscriptionPaymentService.php:211-239 | New ledger or exception |
| `SubscriptionService.Service.BackfillVerifiedPayments` | app/Services/SubscriptionChargeService.php:97-160 | The loop over the payments links each one that needs it and counts them |
| `SubscriptionService.Service.Serve` | app/Services/SubscriptionPaymentService.php:128-209 | Any sequence of calls on the object ends in the ledger the theorems about runs speak of |
| `Coupons.BestHasTopScore` | app/Services/CouponService.php:224-246 | The loop keeps the first of the highest scores, and none only when no candidate is valid |
| `Coupons.ScorePicksBestIff` | app/Services/CouponService.php:236-240 | With a free-shipping candidate the integer score picks the best (free shipping, larger discount, lower id) if and only if no earlier discount reaches 10,000,000 and no later one exceeds it |
| `Coupons.NoShippingPicksBest` | app/Services/CouponService.php:236-240 | Without free shipping it always does |
| `Coupons.CheckoutAppliesBest` | app/Services/CouponService.php:212-263 | A cart whose discounts are all below 10,000,000 gets the best coupon, or none when none is valid |
| `Coupons.LargeDiscountBeatsShipping` | app/Services/CouponService.php:236-240 | A discount of 10,000,001 beats free shipping |
| `Coupons.DiscountWithinGoods` | app/Services/CouponService.php:192-203 | With percentages up to 100 a coupon takes off at most what its goods cost in the cart and at most its maximum, rounded half up |
| `Coupons.ValidIff` | app/Services/CouponService.php:159-205 | A coupon is accepted if and only if it runs, covers an item, meets both minimums, is open to the customer and has uses left in total and for that customer |
| `Coupons.DiscountIs` | app/Services/CouponService.php:192-203 | The discount is the fixed amount or the half-up share of what is covered, or nothing for free shipping, capped by a maximum that is not zero |
| `Coupons.AppliedIs` | app/Services/CouponService.php:89-109 | A chosen coupon stands alone; otherwise the applied one is automatic, valid and scores highest, and there is one whenever any automatic coupon is valid |
| `Checkout.AllCouponsPassIff` | app/Services/OrderService.php:1066-1079 | No coupon on a whole cart is refused by the order's discount guard if and only if the order's lines, priced anew, cost at least what the cart's lines do |
| `Checkout.WholePricesNeverRefused` | app/Services/Pricing/CartPricingService.php:52-76 | A coupon validated for a cart whose per-unit prices came out whole is never refused at checkout |
| `Checkout.FullCouponRefused` | app/Services/CouponService.php:173-203 | Three units at 200 per three cost 201 in the cart and 200 in the order, so a validated coupon for everything makes the checkout fail |
| `Coupons.LimitsHold` | app/Services/CouponService.php:305-318 | Over every run of checkouts and cancellations redemptions stay within the total and per-customer limits, each order has at most one and cancelled orders have none |
| `Coupons.CheckoutLeaves` | app/Services/OrderService.php:334-340 | A checkout whose coupon takes something off writes exactly one redemption, of that coupon, this order and this customer; any other writes none |
| `Coupons.CancelLeaves` | app/Services/CouponService.php:154-157 | Cancelling an order frees exactly its redemption |
| `Coupons.RowsAreGrants` | app/Services/CouponService.php:111-157 | Over every run the redemptions are exactly the discounts that checkouts gave in orders not cancelled, in order |
| `Coupons.GrantsStayWithinLimits` | app/Services/CouponService.php:305-318 | Counting the orders not cancelled in which a checkout gave a discount, not the rows: over every run a coupon is granted at most as often as its total limit, and to one customer at most as often as its limit per customer |
| `Coupons.ShippingLimitsBindIffZero` | app/Services/CouponService.php:127-134 | Free-shipping coupons are never redeemed, so after every run they pass their limits if and only if those are not zero |
| `Coupons.CouponService.FindValidAutomaticResult` | app/Services/CouponService.php:212-263 | The best-so-far loop over the automatic coupons |
| `Coupons.CouponService.PlaceOrder` | app/Services/OrderService.php:334-340 | A checkout redeems the applied coupon once, when it gives a discount |
| `Coupons.CouponService.ReleaseForOrder` | app/Services/CouponService.php:154-157 | A cancelled order loses its redemption |
| `Coupons.CouponService.Serve` | app/Services/CouponService.php:154-157 | Any sequence of checkouts and cancellations on the object ends in the state the theorems about runs speak of |
| `Variants.CartesianHas` | app/Services/BulkVariantGeneratorService.php:177-195 | The expansion contains exactly the tuples with one option per set, and as many as the sizes multiply to |
| `Variants.CartesianUnique` | app/Services/BulkVariantGeneratorService.php:177-195 | And lists none twice |
| `Variants.SignaturesAgree` | app/Services/BulkVariantGeneratorService.php:203-214 | The generator's signature of a combination is the signature of the variant it saves |
| `Variants.SignaturesDiffer` | app/Services/VariantSignatureService.php:157-172 | With distinct labels per definition no two combinations share a signature |
| `Variants.GenerateAccounts` | app/Services/BulkVariantGeneratorService.php:76-118 | Created plus skipped is the number of combinations |
| `Variants.SignaturesStayApart` | app/Services/BulkVariantGeneratorService.php:82-118 | Signed variants keep pairwise distinct signatures |
| `Variants.RunsStayApart` | app/Services/BulkVariantGeneratorService.php:46-118 | Over every run of requests signed variants stay pairwise distinct, and a combination that exists or is blocked stays so |
| `Variants.SecondRunCreatesNone` | app/Services/BulkVariantGeneratorService.php:82-91 | A second run over the same selections creates none, even when the first could not create all |
| `Variants.LaterRunCreatesNone` | app/Services/BulkVariantGeneratorService.php:82-91 | A request that was carried out creates none when made again, whatever was requested in between |
| `Variants.AllExistIffClear` | app/Services/BulkVariantGeneratorService.php:82-118 | All requested combinations exist afterwards if and only if no existing signature is a proper part of a missing one |
| `Variants.RejectedCombinationLeavesAVariant` | app/Services/BulkVariantGeneratorService.php:91-116 | A rejected combination is skipped but leaves a variant without its values behind |
| `Variants.OneLeaves` | app/Services/BulkVariantGeneratorService.php:82-118 | A combination that is not known leaves one new variant with a fresh SKU in last place: with all its values and counted as created when no variant carries a part of it, else with the values before the first such part and counted as skipped |
| `Variants.KnownIsSkipped` | app/Services/BulkVariantGeneratorService.php:85-89 | A known combination is counted as skipped and changes nothing else |
| `Variants.GenerateSucceedsIff` | app/Services/BulkVariantGeneratorService.php:46-80 | A request is refused exactly without a price, without options, or when the sizes multiply to more than the maximum |
| `Variants.FreshSku` | app/Services/BulkVariantGeneratorService.php:247-265 | The suffix search ends with a SKU the tenant does not own |
| `Variants.FirstFreeSku` | app/Services/BulkVariantGeneratorService.php:247-265 | It is the first that is free among the base, base-2, base-3 and so on |
| `Text.DecimalReads` | app/Services/BulkVariantGeneratorService.php:260 | The suffix is the attempt written in decimal digits, without a leading zero |
| `VariantGuard.GuardSeesTheSavedVariant` | app/Observers/ProductAttributeValueObserver.php:26-53 | The check before saving refuses if and only if the saved variant would repeat a definition or a sibling's combination |
| `VariantGuard.GuardRefusesIff` | app/Services/VariantSignatureService.php:103-128 | A variant-defining value is refused if and only if the variant would then hold two values of one such attribute, or the same combination as a sibling |
| `VariantGuard.CombinedMovesLast` | app/Services/VariantSignatureService.php:132-149 | A pending row replaces the row it updates, in last place |
| `VariantService.Generator.ExpandCombinations` | app/Services/BulkVariantGeneratorService.php:177-195 | The iterative expansion computes the cartesian product |
| `VariantService.Generator.SignatureOfChoices` | app/Services/BulkVariantGeneratorService.php:203-214 | The map built by the loop over the options |
| `VariantService.Generator.MapRows` | app/Services/VariantSignatureService.php:157-172 | The map built by the loop over the variant-defining rows |
| `VariantService.Generator.FindConflictingVariant` | app/Services/VariantSignatureService.php:74-94 | Finds a sibling with the same combination exactly when there is one |
| `VariantService.Generator.CollectSignatures` | app/Services/BulkVariantGeneratorService.php:222-239 | The signatures of all signed variants, in order |
| `VariantService.Generator.UniqueSku` | app/Services/BulkVariantGeneratorService.php:247-265 | The while loop terminates with the first free candidate |
| `VariantService.Generator.SaveValues` | app/Services/BulkVariantGeneratorService.php:99-105 | Values are saved one by one until the observer rejects one |
| `VariantService.Generator.GenerateVariants` | app/Services/BulkVariantGeneratorService.php:46-118 | New variants, SKUs and counts of a run of the generator, or the exception |
| `VariantService.Generator.GenerateVariant` | app/Services/BulkVariantGeneratorService.php:82-118 | One pass of the loop: a known combination is skipped, a new one gets a variant with a fresh SKU, kept or rejected value by value |
| `VariantService.Generator.Serve` | app/Services/BulkVariantGeneratorService.php:46-118 | Any sequence of requests to the object ends in the variants and SKUs the theorems about runs speak of |

## Left out

- Row-lock order, deadlocks and `DatabaseLockRetry`: each call is one atomic step.
- `transitionToStock` and any change of a variant's strategy, type or policy while orders hold it.
- The per-customer limit on pending orders, the release of that customer's expired orders at checkout, the converted-cart guard and the price-changed check: none of them touches the counters.
- Admin-panel actions that write rows directly, among them "Verify Manual Payment" (app/Filament/Store/Resources/OrderResource.php:396-442), which marks a pending payment paid without the remaining-due check of `recordPayment`; the money theorems cover the service calls.
- Notes, contact and address corrections, cost and weight totals, order numbers, activity log, mail and dispatched events.
- Shipping rates and the geo quote; the shipping cost is a parameter.
- Coupon scopes (products, categories, brands, collections): an item carries the coupons whose scope covers it. First-order and selected-customer eligibility is likewise a set per visit.
- Authorization, plan entitlement, deployment mode and host-name normalization of the domain services, and the cooldown and backoff times of DNS checks.
- The subscription changes themselves (assigning, extending, reactivating a plan): one operation record stands for each.
- Resolving the generator's selections against the database, and turning labels into slugs.
- Floating point: percentage coupons are rounded half up exactly, weights are left out.
- Cart merge, wishlist, search, homepage and theme presets, invitations, tenant deletion: they would only add easy members.
