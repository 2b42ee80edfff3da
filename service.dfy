/** OrderProcessingService: the one object with mutable state, its
    `inventory` map. The reservation replaces a record in that map in place;
    the pipeline and the batch are methods that run the stage rules against
    the current map and are proved to agree with the functions of module
    Pipeline. The executor, the futures and the random source are not
    modelled; the payment decision and the deadline arrive as Conditions. */
module Service {
  import opened Domain
  import opened Stages
  import opened Pipeline

  /** The catalogue initializeInventory puts into a fresh service. */
  function SeedInventory(): (inv: Inventory)
    ensures WellKeyed(inv) && StockNonNegative(inv)
    ensures inv.Keys == {"PROD001", "PROD002", "PROD003", "PROD004", "PROD005"}
  {
    map[
      "PROD001" := Product("PROD001", "Ноутбук", 150000.0, 10),
      "PROD002" := Product("PROD002", "Мышь", 3500.0, 50),
      "PROD003" := Product("PROD003", "Клавиатура", 8500.0, 30),
      "PROD004" := Product("PROD004", "Монитор", 85000.0, 15),
      "PROD005" := Product("PROD005", "Наушники", 12000.0, 25)
    ]
  }

  class OrderProcessingService {
    var inventory: Inventory

    /** Every record sits under its own id: the catalogue is built that way
        and every reservation keeps it so, whatever snapshot it is given. */
    ghost predicate Valid()
      reads this
    {
      WellKeyed(inventory)
    }

    constructor ()
      ensures Valid() && StockNonNegative(inventory)
      ensures inventory == SeedInventory()
    {
      inventory := SeedInventory();
    }

    /** reserveProduct: builds a record from the snapshot with the stock
        lowered by the ordered quantity and puts it under the snapshot's id.
        Neither the current record nor the sufficiency of the stock is
        consulted. */
    method ReserveProduct(order: Order, product: Product)
      requires Valid()
      modifies this
      ensures Valid()
      ensures product.productId in inventory
      ensures inventory[product.productId] ==
                Product(product.productId, product.name, product.price, product.stockQuantity - order.quantity)
      ensures forall k :: k in old(inventory) && k != product.productId ==> k in inventory && inventory[k] == old(inventory)[k]
      ensures inventory == Reserve(old(inventory), order, product)
    {
      var newStock := product.stockQuantity - order.quantity;
      var updatedProduct := Product(product.productId, product.name, product.price, newStock);
      inventory := inventory[updatedProduct.productId := updatedProduct];
      ReservePreservesWellKeyed(old(inventory), order, product);
    }

    /** processOrder: check, price, pay, reserve, and turn the first failure
        (or an expired deadline) into the failed result. A run never drives
        a stock below zero: the reservation only follows a passed check. */
    method ProcessOrder(order: Order, cond: Conditions) returns (result: OrderResult)
      requires Valid()
      modifies this
      ensures Valid()
      ensures old(StockNonNegative(inventory)) ==> StockNonNegative(inventory)
      ensures result == Process(old(inventory), order, cond).result
      ensures inventory == Process(old(inventory), order, cond).inventory
    {
      if StockNonNegative(inventory) {
        ProcessKeepsInventoryInvariant(inventory, order, cond);
      }
      var stages: Result<real>;
      var checked := CheckProductAvailability(inventory, order);
      if checked.Err? {
        stages := Err(checked.failure);
      } else {
        var product := checked.value;
        var price := CalculatePrice(order, product);
        var payment := ProcessPayment(order, price, cond.paymentApproved);
        if payment.Err? {
          stages := Err(payment.failure);
        } else if payment.value {
          ReserveProduct(order, product);
          stages := Ok(price);
        } else {
          stages := Err(PaymentNotCompleted);
        }
      }
      if cond.deadlineExpired {
        result := Failed(order, TimedOut);
      } else if stages.Ok? {
        result := OrderResult(order.orderId, true, SuccessMessage, stages.value);
      } else {
        result := Failed(order, stages.failure);
      }
    }

    /** processMultipleOrders: one pipeline per order, run in list order,
        results collected in input order. */
    method ProcessMultipleOrders(orders: seq<Order>, conds: seq<Conditions>) returns (results: seq<OrderResult>)
      requires Valid()
      requires |conds| == |orders|
      modifies this
      ensures Valid()
      ensures old(StockNonNegative(inventory)) ==> StockNonNegative(inventory)
      ensures |results| == |orders|
      ensures forall i :: 0 <= i < |orders| ==> results[i].orderId == orders[i].orderId
      ensures results == ProcessAll(old(inventory), orders, conds).results
      ensures inventory == ProcessAll(old(inventory), orders, conds).inventory
    {
      ghost var whole := ProcessAll(inventory, orders, conds);
      ghost var start := inventory;
      results := [];
      var i := 0;
      while i < |orders|
        invariant 0 <= i <= |orders|
        invariant Valid()
        invariant results + ProcessAll(inventory, orders[i..], conds[i..]).results == whole.results
        invariant ProcessAll(inventory, orders[i..], conds[i..]).inventory == whole.inventory
      {
        ghost var rest := ProcessAll(inventory, orders[i..], conds[i..]);
        var r := ProcessOrder(orders[i], conds[i]);
        assert orders[i..][1..] == orders[i + 1..] && conds[i..][1..] == conds[i + 1..];
        assert rest.results == [r] + ProcessAll(inventory, orders[i + 1..], conds[i + 1..]).results;
        results := results + [r];
        i := i + 1;
      }
      assert orders[i..] == [] && conds[i..] == [];
      if StockNonNegative(start) {
        ProcessAllKeepsInventoryInvariant(start, orders, conds);
      }
    }
  }

  /** The inventory after the first k demo orders (the failing ones change
      nothing). */
  function DemoInventory(k: nat): Inventory
    requires k <= 7
  {
    var seed := SeedInventory();
    if k == 0 then seed
    else if k == 1 then seed["PROD001" := Product("PROD001", "Ноутбук", 150000.0, 8)]
    else if k == 2 then DemoInventory(1)["PROD002" := Product("PROD002", "Мышь", 3500.0, 40)]
    else if k == 3 then DemoInventory(2)["PROD003" := Product("PROD003", "Клавиатура", 8500.0, 25)]
    else if k == 4 then DemoInventory(3)["PROD004" := Product("PROD004", "Монитор", 85000.0, 14)]
    else DemoInventory(4)["PROD005" := Product("PROD005", "Наушники", 12000.0, 22)]
  }

  const Approved: Conditions := Conditions(true, false)

  /** What the demo orders yield, in order. */
  function DemoResults(): (rs: seq<OrderResult>)
    ensures |rs| == 7
  {
    [ OrderResult("ORD001", true, SuccessMessage, 336000.0),
      OrderResult("ORD002", true, SuccessMessage, 35280.0),
      OrderResult("ORD003", true, SuccessMessage, 47600.0),
      OrderResult("ORD004", true, SuccessMessage, 95200.0),
      OrderResult("ORD005", true, SuccessMessage, 40320.0),
      Failed(DemoOrders()[5], ProductNotFound("PROD999")),
      Failed(DemoOrders()[6], InsufficientStock(100, 8)) ]
  }

  lemma DemoStep0()
    ensures Process(DemoInventory(0), DemoOrders()[0], Approved) == Outcome(DemoResults()[0], DemoInventory(1))
  {
  }

  lemma DemoStep1()
    ensures Process(DemoInventory(1), DemoOrders()[1], Approved) == Outcome(DemoResults()[1], DemoInventory(2))
  {
  }

  lemma DemoStep2()
    ensures Process(DemoInventory(2), DemoOrders()[2], Approved) == Outcome(DemoResults()[2], DemoInventory(3))
  {
  }

  lemma DemoStep3()
    ensures Process(DemoInventory(3), DemoOrders()[3], Approved) == Outcome(DemoResults()[3], DemoInventory(4))
  {
  }

  lemma DemoStep4()
    ensures Process(DemoInventory(4), DemoOrders()[4], Approved) == Outcome(DemoResults()[4], DemoInventory(5))
  {
  }

  lemma DemoStep5()
    ensures Process(DemoInventory(5), DemoOrders()[5], Approved) == Outcome(DemoResults()[5], DemoInventory(6))
  {
  }

  lemma DemoStep6()
    ensures Process(DemoInventory(6), DemoOrders()[6], Approved) == Outcome(DemoResults()[6], DemoInventory(7))
  {
  }

  /** Order k of the demo, run against what the orders before it left. */
  lemma DemoStep(k: nat)
    requires k < 7
    ensures Process(DemoInventory(k), DemoOrders()[k], Approved)
              == Outcome(DemoResults()[k], DemoInventory(k + 1))
  {
    if k == 0 { DemoStep0(); }
    else if k == 1 { DemoStep1(); }
    else if k == 2 { DemoStep2(); }
    else if k == 3 { DemoStep3(); }
    else if k == 4 { DemoStep4(); }
    else if k == 5 { DemoStep5(); }
    else { DemoStep6(); }
  }

  /** The demo batch of the repository's entry point, every payment approved
      and no deadline expired: five orders succeed at their computed price,
      the unknown product and the oversized order fail. The "8 in stock" of
      the oversized order for PROD001 is what the first order left, because
      the batch runs in list order here; in the concurrent original all
      seven checks start together, so that check normally reads 10. */
  lemma DemoBatch(invs: seq<Inventory>, orders: seq<Order>, conds: seq<Conditions>)
    requires invs == seq(8, k requires 0 <= k < 8 => DemoInventory(k))
    requires orders == DemoOrders()
    requires conds == [Approved, Approved, Approved, Approved, Approved, Approved, Approved]
    ensures ProcessAll(invs[0], orders, conds) == BatchOutcome(DemoResults(), invs[7])
  {
    forall k | 0 <= k < 7
      ensures Process(invs[k], orders[k], conds[k]) == Outcome(DemoResults()[k], invs[k + 1])
    {
      DemoStep(k);
    }
    ProcessAllChain(invs, orders, conds, DemoResults());
  }

  /** The seven orders of the repository's entry point. */
  function DemoOrders(): (orders: seq<Order>)
    ensures |orders| == 7
  {
    [ Order("ORD001", "PROD001", 2, "customer1@example.com"),
      Order("ORD002", "PROD002", 10, "customer2@example.com"),
      Order("ORD003", "PROD003", 5, "customer3@example.com"),
      Order("ORD004", "PROD004", 1, "customer4@example.com"),
      Order("ORD005", "PROD005", 3, "customer5@example.com"),
      Order("ORD006", "PROD999", 1, "customer6@example.com"),
      Order("ORD007", "PROD001", 100, "customer7@example.com") ]
  }
}
