/** processOrder and processMultipleOrders as functions of the inventory,
    run as one sequential pass. The concurrent original composes the stages
    with futures; here check, price, payment and reservation run in their
    dependency order, the notification (which only logs) is omitted, and the
    batch threads the inventory through the orders in list order, which is
    one interleaving the executor allows. */
module Pipeline {
  import opened Domain
  import opened Stages

  /** The two things the original decides at run time without looking at the
      order: whether the payment's random draw approves, and whether the
      10-second deadline expires before the pipeline settles. */
  datatype Conditions = Conditions(paymentApproved: bool, deadlineExpired: bool)

  /** The result handed to the caller and the inventory once every stage of
      the order has settled. */
  datatype Outcome = Outcome(result: OrderResult, inventory: Inventory)

  const SuccessMessage: string := "Заказ успешно обработан"
  const ErrorPrefix: string := "Ошибка обработки: "

  /** The `handle` step: any failure becomes the one failed, zero-amount
      result for the order, its message the prefix followed by the cause's
      own message. */
  function Failed(order: Order, f: Failure): (r: OrderResult)
    ensures r.orderId == order.orderId && !r.success && r.totalAmount == 0.0
  {
    OrderResult(order.orderId, false, ErrorPrefix + Message(f), 0.0)
  }

  /** A failed result's message is the prefix followed by a non-empty
      message from which the cause can be read. */
  lemma FailedMessageNamesCause(order: Order, f: Failure)
    ensures var msg := Failed(order, f).message;
            && |msg| > |ErrorPrefix|
            && msg[..|ErrorPrefix|] == ErrorPrefix
            && msg[|ErrorPrefix|..] == Message(f)
  {
  }

  /** The check passes and the payment is approved, so the reservation runs. */
  predicate Reserves(inv: Inventory, order: Order, approved: bool) {
    order.productId in inv && inv[order.productId].stockQuantity >= order.quantity && approved
  }

  /** The stages up to the join of price and reservation: the price carried
      forward or the first failure, and the inventory afterwards. */
  datatype Settled = Settled(price: Result<real>, inventory: Inventory)

  function RunStages(inv: Inventory, order: Order, approved: bool): (st: Settled)
    ensures st.price.Ok? <==> Reserves(inv, order, approved)
    ensures st.price.Ok? ==>
              && st.price.value == CalculatePrice(order, inv[order.productId])
              && st.inventory == Reserve(inv, order, inv[order.productId])
    ensures st.price.Err? ==> st.inventory == inv && st.price.failure != PaymentNotCompleted
  {
    match CheckProductAvailability(inv, order)
    case Err(f) => Settled(Err(f), inv)
    case Ok(product) =>
      var price := CalculatePrice(order, product);
      match ProcessPayment(order, price, approved)
      case Err(f) => Settled(Err(f), inv)
      case Ok(paid) =>
        if paid then Settled(Ok(price), Reserve(inv, order, product))
        else Settled(Err(PaymentNotCompleted), inv)
  }

  /** processOrder. The deadline does not cancel the stages in flight, so the
      inventory is the one the stages leave whether or not it expired. */
  function Process(inv: Inventory, order: Order, cond: Conditions): (out: Outcome)
    ensures out.result.orderId == order.orderId
    ensures out.result.success <==> !cond.deadlineExpired && Reserves(inv, order, cond.paymentApproved)
    ensures out.result.success ==>
              out.result == OrderResult(order.orderId, true, SuccessMessage, CalculatePrice(order, inv[order.productId]))
    ensures !out.result.success ==> exists f :: out.result == Failed(order, f)
    ensures out.inventory ==
              if Reserves(inv, order, cond.paymentApproved) then Reserve(inv, order, inv[order.productId]) else inv
  {
    var settled := RunStages(inv, order, cond.paymentApproved);
    var result :=
      if cond.deadlineExpired then Failed(order, TimedOut)
      else match settled.price
        case Ok(finalPrice) => OrderResult(order.orderId, true, SuccessMessage, finalPrice)
        case Err(f) => Failed(order, f);
    Outcome(result, settled.inventory)
  }

  /** The cause a failed order reports, in the order the stages run. */
  function Cause(inv: Inventory, order: Order, cond: Conditions): Failure {
    if cond.deadlineExpired then TimedOut
    else if order.productId !in inv then ProductNotFound(order.productId)
    else if inv[order.productId].stockQuantity < order.quantity then
      InsufficientStock(order.quantity, inv[order.productId].stockQuantity)
    else PaymentFailed
  }

  lemma FailureCause(inv: Inventory, order: Order, cond: Conditions)
    ensures !Process(inv, order, cond).result.success ==>
              Process(inv, order, cond).result == Failed(order, Cause(inv, order, cond))
  {
  }

  /** Two failed results for one order with the same message have the same
      cause: the normalised message loses nothing. */
  lemma FailedResultIdentifiesCause(order: Order, f: Failure, g: Failure)
    ensures Failed(order, f).message == Failed(order, g).message ==> f == g
  {
    if Failed(order, f).message == Failed(order, g).message {
      DropCommonPrefix(ErrorPrefix, Message(f), Message(g));
      MessageInjective(f, g);
    }
  }

  /** processPayment never completes with `false`, so the "payment did not
      go through" branch of the pipeline never produces a result. */
  lemma PaymentNotCompletedNeverReported(inv: Inventory, order: Order, cond: Conditions)
    ensures Process(inv, order, cond).result.message != ErrorPrefix + Message(PaymentNotCompleted)
  {
    var r := Process(inv, order, cond).result;
    if !r.success {
      FailureCause(inv, order, cond);
      FailedResultIdentifiesCause(order, Cause(inv, order, cond), PaymentNotCompleted);
    } else {
      assert r.message[0] != (ErrorPrefix + Message(PaymentNotCompleted))[0];
    }
  }

  /** On success the product's stock has dropped by exactly the ordered
      quantity, its id, name and price are kept, and no other entry changed. */
  lemma SuccessDropsStockByQuantity(inv: Inventory, order: Order, cond: Conditions)
    requires WellKeyed(inv)
    ensures var out := Process(inv, order, cond);
            out.result.success ==>
              && order.productId in inv
              && out.inventory.Keys == inv.Keys
              && out.inventory[order.productId] ==
                   Product(order.productId, inv[order.productId].name, inv[order.productId].price,
                           inv[order.productId].stockQuantity - order.quantity)
              && forall k :: k in inv && k != order.productId ==> out.inventory[k] == inv[k]
  {
  }

  /** A failed availability check leaves the inventory as it was and is
      reported with the check's own failure. */
  lemma CheckFailureLeavesInventoryUnchanged(inv: Inventory, order: Order, cond: Conditions)
    requires CheckProductAvailability(inv, order).Err?
    ensures Process(inv, order, cond).inventory == inv
    ensures !cond.deadlineExpired ==>
              Process(inv, order, cond).result == Failed(order, CheckProductAvailability(inv, order).failure)
  {
  }

  /** A declined payment leaves the inventory as it was; the reservation
      never runs. */
  lemma DeclinedPaymentLeavesInventoryUnchanged(inv: Inventory, order: Order, cond: Conditions)
    requires !cond.paymentApproved
    ensures Process(inv, order, cond).inventory == inv
    ensures !cond.deadlineExpired && CheckProductAvailability(inv, order).Ok? ==>
              Process(inv, order, cond).result == Failed(order, PaymentFailed)
  {
  }

  /** An expired deadline turns the result into the timeout failure, but the
      stages still settle: the inventory is whatever they leave, reservation
      included. */
  lemma ExpiredDeadlineReportsTimeout(inv: Inventory, order: Order, cond: Conditions)
    requires cond.deadlineExpired
    ensures Process(inv, order, cond).result == Failed(order, TimedOut)
    ensures Process(inv, order, cond).inventory == Process(inv, order, cond.(deadlineExpired := false)).inventory
  {
  }

  /** In the sequential model the snapshot the check hands to the reservation
      is the current record, so the pipeline performs the intended
      reservation (current stock minus quantity). */
  lemma ProcessReservesCurrentStock(inv: Inventory, order: Order, cond: Conditions)
    requires WellKeyed(inv)
    ensures Process(inv, order, cond).inventory ==
              if Reserves(inv, order, cond.paymentApproved) then ReserveCurrent(inv, order) else inv
  {
    if Reserves(inv, order, cond.paymentApproved) {
      FreshSnapshotReserveIsCurrent(inv, order);
    }
  }

  /** One order keeps every record under its own id, keeps the key set, and
      never drives a stock below zero. */
  lemma ProcessKeepsInventoryInvariant(inv: Inventory, order: Order, cond: Conditions)
    requires WellKeyed(inv) && StockNonNegative(inv)
    ensures var after := Process(inv, order, cond).inventory;
            WellKeyed(after) && StockNonNegative(after) && after.Keys == inv.Keys
  {
  }

  // ---------------------------------------------------------------------
  // The batch.

  datatype BatchOutcome = BatchOutcome(results: seq<OrderResult>, inventory: Inventory)

  /** processMultipleOrders: one result per order, in input order; `conds[i]`
      holds the run-time conditions of `orders[i]`. */
  function ProcessAll(inv: Inventory, orders: seq<Order>, conds: seq<Conditions>): (b: BatchOutcome)
    requires |conds| == |orders|
    ensures |b.results| == |orders|
    ensures forall i :: 0 <= i < |orders| ==> b.results[i].orderId == orders[i].orderId
    decreases |orders|
  {
    if orders == [] then BatchOutcome([], inv)
    else
      var first := Process(inv, orders[0], conds[0]);
      var rest := ProcessAll(first.inventory, orders[1..], conds[1..]);
      BatchOutcome([first.result] + rest.results, rest.inventory)
  }

  /** A batch is the chain of its orders' pipelines: if each order k, run
      against `invs[k]`, yields `rs[k]` and leaves `invs[k + 1]`, the batch
      yields `rs` and leaves the last inventory. */
  lemma {:induction false} ProcessAllChain(invs: seq<Inventory>, orders: seq<Order>, conds: seq<Conditions>, rs: seq<OrderResult>)
    requires |conds| == |orders| && |rs| == |orders| && |invs| == |orders| + 1
    requires forall k :: 0 <= k < |orders| ==> Process(invs[k], orders[k], conds[k]) == Outcome(rs[k], invs[k + 1])
    ensures ProcessAll(invs[0], orders, conds) == BatchOutcome(rs, invs[|orders|])
    decreases |orders|
  {
    if orders != [] {
      forall k | 0 <= k < |orders| - 1
        ensures Process(invs[1..][k], orders[1..][k], conds[1..][k]) == Outcome(rs[1..][k], invs[1..][k + 1])
      {
        assert Process(invs[k + 1], orders[k + 1], conds[k + 1]) == Outcome(rs[k + 1], invs[k + 2]);
      }
      ProcessAllChain(invs[1..], orders[1..], conds[1..], rs[1..]);
      assert rs == [rs[0]] + rs[1..];
    }
  }

  /** The i-th result is the pipeline of the i-th order run against the
      inventory the orders before it left. */
  lemma {:induction false} ProcessAllResultAt(inv: Inventory, orders: seq<Order>, conds: seq<Conditions>, i: nat)
    requires |conds| == |orders| && i < |orders|
    ensures ProcessAll(inv, orders, conds).results[i]
              == Process(ProcessAll(inv, orders[..i], conds[..i]).inventory, orders[i], conds[i]).result
    decreases i
  {
    if i == 0 {
      assert orders[..0] == [] && conds[..0] == [];
    } else {
      var first := Process(inv, orders[0], conds[0]);
      var rest := ProcessAll(first.inventory, orders[1..], conds[1..]);
      ProcessAllResultAt(first.inventory, orders[1..], conds[1..], i - 1);
      assert ProcessAll(inv, orders, conds).results[i] == rest.results[i - 1];
      assert orders[1..][..i - 1] == orders[..i][1..];
      assert conds[1..][..i - 1] == conds[..i][1..];
      assert ProcessAll(inv, orders[..i], conds[..i]).inventory
               == ProcessAll(first.inventory, orders[..i][1..], conds[..i][1..]).inventory;
      assert orders[1..][i - 1] == orders[i];
      assert conds[1..][i - 1] == conds[i];
    }
  }

  /** Processing a batch keeps every record under its own id, keeps the key
      set, and never drives a stock below zero. */
  lemma {:induction false} ProcessAllKeepsInventoryInvariant(inv: Inventory, orders: seq<Order>, conds: seq<Conditions>)
    requires |conds| == |orders|
    requires WellKeyed(inv) && StockNonNegative(inv)
    ensures var after := ProcessAll(inv, orders, conds).inventory;
            WellKeyed(after) && StockNonNegative(after) && after.Keys == inv.Keys
    decreases |orders|
  {
    if orders != [] {
      ProcessKeepsInventoryInvariant(inv, orders[0], conds[0]);
      ProcessAllKeepsInventoryInvariant(Process(inv, orders[0], conds[0]).inventory, orders[1..], conds[1..]);
    }
  }

  /** The quantity of the successful orders for one product. */
  function SuccessfulQuantity(orders: seq<Order>, results: seq<OrderResult>, productId: string): int
    requires |results| == |orders|
  {
    if orders == [] then 0
    else
      (if results[0].success && orders[0].productId == productId then orders[0].quantity else 0)
      + SuccessfulQuantity(orders[1..], results[1..], productId)
  }

  /** When no deadline expires, no update is lost: every product's final stock
      is its initial stock minus the quantities of the successful orders for
      it. (An order whose deadline expired may still have reserved.) */
  lemma {:induction false} ProcessAllStockAccounting(inv: Inventory, orders: seq<Order>, conds: seq<Conditions>, productId: string)
    requires |conds| == |orders|
    requires WellKeyed(inv) && productId in inv
    requires forall i :: 0 <= i < |conds| ==> !conds[i].deadlineExpired
    ensures var b := ProcessAll(inv, orders, conds);
            && productId in b.inventory
            && b.inventory[productId].stockQuantity
                 == inv[productId].stockQuantity - SuccessfulQuantity(orders, b.results, productId)
    decreases |orders|
  {
    if orders != [] {
      var first := Process(inv, orders[0], conds[0]);
      SuccessDropsStockByQuantity(inv, orders[0], conds[0]);
      assert forall i :: 0 <= i < |conds[1..]| ==> !conds[1..][i].deadlineExpired by {
        forall i | 0 <= i < |conds[1..]| ensures !conds[1..][i].deadlineExpired {
          assert conds[1..][i] == conds[i + 1];
        }
      }
      ProcessAllStockAccounting(first.inventory, orders[1..], conds[1..], productId);
      var b := ProcessAll(inv, orders, conds);
      assert b.results[1..] == ProcessAll(first.inventory, orders[1..], conds[1..]).results;
    }
  }

  /** The quantity the batch reserves for one product: order by order, the
      quantity of each order whose check passes and whose payment is
      approved against the inventory the orders before it left. */
  function ReservedQuantity(inv: Inventory, orders: seq<Order>, conds: seq<Conditions>, productId: string): int
    requires |conds| == |orders|
    decreases |orders|
  {
    if orders == [] then 0
    else
      (if Reserves(inv, orders[0], conds[0].paymentApproved) && orders[0].productId == productId
       then orders[0].quantity else 0)
      + ReservedQuantity(Process(inv, orders[0], conds[0]).inventory, orders[1..], conds[1..], productId)
  }

  /** Whatever the deadlines do, no reservation is lost in the sequential
      batch: every product's final stock is its initial stock minus the
      quantities reserved for it. */
  lemma {:induction false} ProcessAllReservedAccounting(inv: Inventory, orders: seq<Order>, conds: seq<Conditions>, productId: string)
    requires |conds| == |orders|
    requires WellKeyed(inv) && productId in inv
    ensures var b := ProcessAll(inv, orders, conds);
            && productId in b.inventory
            && b.inventory[productId].stockQuantity
                 == inv[productId].stockQuantity - ReservedQuantity(inv, orders, conds, productId)
    decreases |orders|
  {
    if orders != [] {
      var first := Process(inv, orders[0], conds[0]);
      ProcessReservesCurrentStock(inv, orders[0], conds[0]);
      if orders[0].productId in inv {
        ReservePreservesWellKeyed(inv, orders[0], inv[orders[0].productId]);
      }
      ProcessAllReservedAccounting(first.inventory, orders[1..], conds[1..], productId);
    }
  }
}
