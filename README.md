# Order processing service, modelled in Dafny

The model covers the order-handling logic of `OrderProcessingService`:
- the stage rules: the availability check, the price calculation, the payment decision and the stock reservation;
- the per-order pipeline `processOrder`, which turns every failure into one failed, zero-amount `OrderResult`;
- the batch runner `processMultipleOrders`.

It also models the three immutable value classes `Order`, `Product` and `OrderResult`.

The original runs the stages as futures on a thread pool. The model runs them as one sequential pass, in dependency order. Two run-time inputs are supplied per order as `Pipeline.Conditions`:
- the payment's random draw (approve or decline);
- whether the 10-second deadline expires.

A batch threads the inventory through its orders in list order. That is one interleaving the executor allows.

Modules:
- `Text`: the decimal rendering of an `int`, which Java's string concatenation uses in the insufficient-stock message. It comes with a parser and a proved round trip.
- `Domain`: the three value classes as datatypes. Each getter is the field destructor of the same name.
- `Stages`:
  - the inventory as a map from product id to `Product`;
  - the failure kinds and their messages;
  - the four stage rules, as functions.
- `Pipeline`: `processOrder` (`Process`) and `processMultipleOrders` (`ProcessAll`) as functions of the inventory, with the lemmas about them.
- `Service`: the class `OrderProcessingService` with its mutable `inventory` field.
  - `ReserveProduct` updates that field in place.
  - `ProcessOrder` and `ProcessMultipleOrders` are imperative methods proved to agree with `Process` and `ProcessAll`.
  - The module also holds the demo batch of `OrderProcessor.main`, computed against the seed catalogue.

Behaviour of the code that its names and comments do not make obvious:
- **Timeout message.** A timed-out order reports `"Ошибка обработки: null"`. `orTimeout` completes with a `TimeoutException` that has no cause and no message. The unwrapping keeps the exception itself, and Java renders its null message as `null`. There is no timeout-specific text.
- **Timeout and the inventory.** An expired deadline does not undo or cancel the stages in flight, so the inventory still receives the reservation (`ExpiredDeadlineReportsTimeout`).
- **Payment.** `processPayment` never completes with `false`. A decline is an exception with the message `"Payment failed (симуляция ошибки)"`. The pipeline's `"Платеж не прошел"` branch is modelled but provably never reported (`PaymentNotCompletedNeverReported`).
- **Quantity.** The quantity is not checked to be positive anywhere. No member assumes it is.
- **Failure prefix.** The failure prefix is `"Ошибка обработки: "`.

## Model

| member | source | states |
|---|---|---|
| Domain.OrderGettersReturnConstructorArguments | src/Order.java:7-17 | each getter of an order returns the constructor argument of the same name |
| Domain.OrderDeterminedByGetters | src/Order.java:2-17 | an order holds nothing beyond its four fields: two orders are equal iff all getters agree |
| Domain.ProductGettersReturnConstructorArguments | src/Product.java:6-16 | each getter of a product returns the constructor argument of the same name |
| Domain.ProductStockChangeNeedsNewRecord | src/Product.java:2-16 | a different stock level means a different record; records are equal iff all getters agree |
| Domain.OrderResultGettersReturnConstructorArguments | src/OrderResult.java:6-16 | each getter of a result returns the constructor argument of the same name |
| Domain.OrderResultDeterminedByGetters | src/OrderResult.java:2-16 | two results are equal iff all getters agree |
| Text.NatToString | src/OrderProcessingService.java:40-41 | a non-empty string of digits, with a leading zero only for zero |
| Text.IntToString | src/OrderProcessingService.java:40-41 | a non-empty string of digits, with a leading '-' exactly for negative values |
| Text.NatToStringRoundTrip | src/OrderProcessingService.java:40-41 | reading back the digits gives the number |
| Text.IntToStringRoundTrip | src/OrderProcessingService.java:40-41 | the rendering is well-formed decimal and parsing it gives the number back |
| Text.IntToStringInjective | src/OrderProcessingService.java:40-41 | different numbers render differently |
| Stages.NotFoundMessageInjective | src/OrderProcessingService.java:36 | the not-found message determines the product id |
| Stages.InsufficientStockMessageInjective | src/OrderProcessingService.java:40-41 | the insufficient-stock message determines both the required and the available quantity |
| Stages.MessageInjective | src/OrderProcessingService.java:36-41 | two failures with the same message are the same failure; the five kinds come from lines 36, 40-41, 90, 192 and 213 |
| Stages.Message | src/OrderProcessingService.java:36-41 | the exception messages of lines 36, 40-41, 90 and 192, and "null" for the message-less TimeoutException of line 213; each kind opens with its own first character |
| Stages.CheckProductAvailability | src/OrderProcessingService.java:33-45 | succeeds iff the id is present and stock >= quantity (equality allowed), returning the stored record unchanged; otherwise not-found for an absent id, or insufficient stock carrying the quantity and the stock |
| Stages.CalculatePrice | src/OrderProcessingService.java:61-72 | for a non-negative base price, the total lies between the discounted and the undiscounted taxed base |
| Stages.PriceWithoutDiscount | src/OrderProcessingService.java:61-69 | up to five units the price is base x 1.12 |
| Stages.PriceWithDiscount | src/OrderProcessingService.java:61-69 | above five units the price is base x 0.9 x 1.12 = base x 1.008 |
| Stages.PriceMonotoneInQuantity | src/OrderProcessingService.java:61-69 | at a non-negative unit price, more units never cost less, also across the discount threshold |
| Stages.PriceExampleDiscounted | src/OrderProcessingService.java:61-69 | six units at 100 cost exactly 604.8 |
| Stages.PriceExampleUndiscounted | src/OrderProcessingService.java:61-69 | two units at 100 cost exactly 224 |
| Stages.ProcessPayment | src/OrderProcessingService.java:89-94 | completes iff approved, and then always with `true`; a decline is the payment-failed error |
| Stages.Reserve | src/OrderProcessingService.java:112-124 | under the snapshot's id, a record with the snapshot's id, name and price and snapshot stock minus quantity; the key set gains only that id; every other entry is unchanged |
| Stages.ReservePreservesWellKeyed | src/OrderProcessingService.java:116-124 | after a reservation, every record is still stored under its own id |
| Stages.ReserveCanOversell | src/OrderProcessingService.java:114 | the reservation does not re-check sufficiency: a snapshot of 1 and a quantity of 2 store -1 |
| Stages.StaleSnapshotLosesUpdate | src/OrderProcessingService.java:33-45 | two orders for one product both pass the check against stock 10 and then both reserve from that snapshot: 7 remain, not 5 |
| Stages.ReserveCurrent | src/OrderProcessingService.java:114 | the intended reservation: current stock minus quantity; the key set is unchanged and other entries are untouched |
| Stages.ReserveCurrentAccumulates | src/OrderProcessingService.java:112-124 | two intended reservations of one product lower its stock by the sum of the quantities, in either order |
| Stages.FreshSnapshotReserveIsCurrent | src/OrderProcessingService.java:112-124 | with a snapshot read from the current inventory, the reservation as written equals the intended one |
| Pipeline.Failed | src/OrderProcessingService.java:216-222 | the failed shape: the order's id, not a success, amount 0.0 |
| Pipeline.FailedMessageNamesCause | src/OrderProcessingService.java:221 | a failed message is `"Ошибка обработки: "` followed by the cause's own message |
| Pipeline.RunStages | src/OrderProcessingService.java:176-199 | the price is carried to the join iff the check passes and payment is approved; it is then the computed price, and the inventory holds the reservation; on any failure the inventory is unchanged, and the failure is never the "payment did not go through" branch |
| Pipeline.Process | src/OrderProcessingService.java:171-225 | the result keeps the order id; success iff the deadline held, the check passed and payment was approved; a success is `(id, true, "Заказ успешно обработан", price)` with the computed price; a failure has the failed shape; the inventory is reserved exactly when the check passed and payment was approved |
| Pipeline.FailureCause | src/OrderProcessingService.java:216-224 | a failed order reports `"Ошибка обработки: " + message` of the first failing stage (timeout, not found, insufficient stock, payment) with amount 0.0 |
| Pipeline.FailedResultIdentifiesCause | src/OrderProcessingService.java:216-222 | two failed results of one order with the same message have the same cause |
| Pipeline.PaymentNotCompletedNeverReported | src/OrderProcessingService.java:187-193 | because the payment never completes with false, no result carries the "Платеж не прошел" message |
| Pipeline.SuccessDropsStockByQuantity | src/OrderProcessingService.java:196-209 | after a success, the product's stock has dropped by exactly the quantity, its id, name and price are kept, and no other entry or key changed |
| Pipeline.CheckFailureLeavesInventoryUnchanged | src/OrderProcessingService.java:176-199 | a failed availability check leaves the inventory unchanged and, before the deadline, is reported with the check's own failure |
| Pipeline.DeclinedPaymentLeavesInventoryUnchanged | src/OrderProcessingService.java:187-193 | a declined payment leaves the inventory unchanged and, after a passed check, is reported as the payment failure |
| Pipeline.ExpiredDeadlineReportsTimeout | src/OrderProcessingService.java:213-222 | an expired deadline gives the timeout failure, while the inventory is what the uninterrupted stages leave |
| Pipeline.ProcessReservesCurrentStock | src/OrderProcessingService.java:176-199 | run sequentially, the pipeline performs the intended reservation (current stock minus quantity) or none |
| Pipeline.ProcessKeepsInventoryInvariant | src/OrderProcessingService.java:171-225 | one order keeps records under their own ids, keeps the key set and keeps every stock non-negative |
| Pipeline.ProcessAll | src/OrderProcessingService.java:248-260 | one result per order, and result i carries order i's id |
| Pipeline.ProcessAllChain | src/OrderProcessingService.java:248-260 | the batch is the chain of its orders' pipelines, each run on the inventory the previous one left |
| Pipeline.ProcessAllResultAt | src/OrderProcessingService.java:248-260 | result i is order i's pipeline run after orders 0..i-1 |
| Pipeline.ProcessAllKeepsInventoryInvariant | src/OrderProcessingService.java:248-260 | a batch keeps records under their own ids, keeps the key set and keeps every stock non-negative |
| Pipeline.ProcessAllStockAccounting | src/OrderProcessingService.java:248-260 | when no deadline expires, each product's final stock is its initial stock minus the quantities of its successful orders |
| Pipeline.ProcessAllReservedAccounting | src/OrderProcessingService.java:248-260 | with or without expired deadlines, each product's final stock is its initial stock minus the quantities reserved for it, order by order |
| Service.SeedInventory | src/OrderProcessingService.java:16-24 | the five catalogue products PROD001-PROD005, each under its own id, with non-negative stock |
| Service.OrderProcessingService.constructor | src/OrderProcessingService.java:10-14 | a new service holds the seed catalogue, every record under its own id and no stock negative |
| Service.OrderProcessingService.ReserveProduct | src/OrderProcessingService.java:112-124 | replaces the product's record in the inventory field with the snapshot-based record; every other entry is unchanged; records stay under their own ids |
| Service.OrderProcessingService.ProcessOrder | src/OrderProcessingService.java:171-225 | returns `Process`'s result and leaves the inventory field as `Process` does; records stay under their own ids, and a non-negative stock stays non-negative |
| Service.OrderProcessingService.ProcessMultipleOrders | src/OrderProcessingService.java:242-260 | one result per order in input order, equal to `ProcessAll`'s results and inventory; records stay under their own ids, and a non-negative stock stays non-negative |
| Service.DemoOrders | src/OrderProcessor.java:11-19 | the seven orders of the entry point, in their order |
| Service.DemoBatch | src/OrderProcessor.java:11-28 | on the seed catalogue with every payment approved, ORD001-ORD005 succeed at 336000, 35280, 47600, 95200 and 40320; ORD006 fails as not found; ORD007 fails with 100 required and 8 in stock. The 8 is what ORD001 left, because the batch runs in list order; in the concurrent `main` all seven checks start together, so ORD007's check normally reads 10 |

## Left out

- The executor, the `CompletableFuture` composition (`supplyAsync`, `thenCompose`, `thenCombine`, `allOf`, `join`) and `shutdown` are not modelled. The pipeline and the batch run sequentially, so races between orders are not captured (see the finding below).
- The simulated `Thread.sleep` latencies are not modelled. The `Random` draw of the payment stage is a parameter (`Conditions.paymentApproved`).
- The 10-second deadline is not measured. Whether it expires is a parameter (`Conditions.deadlineExpired`).
- The `"Прервано"` failure is not modelled. It is raised only when a worker thread is interrupted, which the sequential model has no counterpart for.
- `sendNotification` is not modelled, because it only prints. This includes its message text.
- The `printf` logging and the duration measured in `whenComplete` are not modelled.
- The `toString` methods and their `%.2f` formatting are not modelled.
- `OrderProcessor.printResults` and its totals and percentages are not modelled. They are console output over `double`.
- `double` arithmetic is modelled as exact `real` arithmetic, with no IEEE rounding.
- Stage values use exact reals: `Stages.CalculatePrice` of six units at 100 is 604.8 exactly. The Java `double` result may differ in the last bits.
- Stage arithmetic on quantities is unbounded, with no 32-bit wrap-around: `Stages.Reserve` computes `stockQuantity - quantity` as a mathematical integer, while Java's `int` subtraction would wrap for values near the `int` limits.
- `Pipeline.Process` states a failure only as the failed shape with some cause. The exact cause is stated separately by `Pipeline.FailureCause`.
- `Pipeline.ProcessAllStockAccounting` holds only when no deadline expires, because it counts successful orders. A timed-out order can still have reserved, and it is not counted as successful. `Pipeline.ProcessAllReservedAccounting` covers every run by counting reservations instead.

## Findings

| source | as written | input that shows it | evidently intended | confidence | as-written member | corrected member |
|---|---|---|---|---|---|---|
| src/OrderProcessingService.java:114 | the reservation writes the stock of the product snapshot taken by the earlier availability check, minus the quantity, so a reservation made in between is overwritten | stock 10; orders of 2 and 3 for the same product both pass the check before either reserves; 7 units remain | the stock current at the time of the update minus the quantity, so 5 units remain | not executed | Stages.StaleSnapshotLosesUpdate | Stages.ReserveCurrentAccumulates |

The sequential pipeline hands the reservation a snapshot taken from the current inventory. It therefore performs exactly the corrected reservation, `Stages.ReserveCurrent`: this is proved by `Pipeline.ProcessReservesCurrentStock`, and `Pipeline.ProcessAllStockAccounting` builds on it.
