/** The stage rules of OrderProcessingService, without their simulated
    latencies, logging and executor: the availability check, the price
    calculation, the payment decision and the reservation, each as a function
    of the inventory and its inputs. The payment's random draw is an input. */
module Stages {
  import opened Domain
  import Text

  /** The service's `inventory` map: product id to the current record. */
  type Inventory = map<string, Product>

  /** Every record is stored under its own product id (the catalogue is built
      that way and a reservation keeps it so). */
  predicate WellKeyed(inv: Inventory) {
    forall k :: k in inv ==> inv[k].productId == k
  }

  predicate StockNonNegative(inv: Inventory) {
    forall k :: k in inv ==> inv[k].stockQuantity >= 0
  }

  /** The exceptions a stage can raise, each with the message it carries. */
  datatype Failure =
    | ProductNotFound(productId: string)            // availability check, unknown id
    | InsufficientStock(required: int, available: int) // availability check, stock < quantity
    | PaymentFailed                                 // processPayment's simulated decline
    | PaymentNotCompleted                           // the pipeline's guard on a `false` payment
    | TimedOut                                      // orTimeout's TimeoutException

  datatype Result<T> = Ok(value: T) | Err(failure: Failure)

  /** The exception's getMessage(). A TimeoutException built by orTimeout has
      no message, and Java renders the null message as "null". Each kind of
      failure opens its message with its own character. */
  function Message(f: Failure): (msg: string)
    ensures |msg| > 0 && msg[0] == Head(f)
  {
    match f
    case ProductNotFound(id) =>
      ConcatHead("Товар ", id + " не найден");
      "Товар " + (id + " не найден")
    case InsufficientStock(required, available) =>
      var rest := Text.IntToString(required) + (", в наличии: " + Text.IntToString(available));
      ConcatHead("Недостаточно товара на складе. Требуется: ", rest);
      "Недостаточно товара на складе. Требуется: " + rest
    case PaymentFailed => "Payment failed (симуляция ошибки)"
    case PaymentNotCompleted => "Платеж не прошел"
    case TimedOut => "null"
  }

  // ---------------------------------------------------------------------
  // Message is injective: a failure message names its cause exactly.

  lemma DropCommonPrefix(p: string, x: string, y: string)
    requires p + x == p + y
    ensures x == y
  {
    assert x == (p + x)[|p|..];
    assert y == (p + y)[|p|..];
  }

  /** Splitting at the first ',' is unique. */
  lemma SplitAtComma(x1: string, y1: string, x2: string, y2: string)
    requires x1 + y1 == x2 + y2
    requires forall i :: 0 <= i < |x1| ==> x1[i] != ','
    requires forall i :: 0 <= i < |x2| ==> x2[i] != ','
    requires |y1| > 0 && y1[0] == ',' && |y2| > 0 && y2[0] == ','
    ensures x1 == x2 && y1 == y2
  {
    assert x1 == (x1 + y1)[..|x1|];
    assert x2 == (x2 + y2)[..|x2|];
    assert y1 == (x1 + y1)[|x1|..];
    assert y2 == (x2 + y2)[|x2|..];
  }

  lemma IntToStringHasNoComma(n: int)
    ensures forall i :: 0 <= i < |Text.IntToString(n)| ==> Text.IntToString(n)[i] != ','
  {
  }

  lemma NotFoundMessageInjective(a: string, b: string)
    requires Message(ProductNotFound(a)) == Message(ProductNotFound(b))
    ensures a == b
  {
    var p, q := "Товар ", " не найден";
    DropCommonPrefix(p, a + q, b + q);
    assert |a| == |b|;
    assert a == (a + q)[..|a|];
    assert b == (b + q)[..|b|];
  }

  lemma InsufficientStockMessageInjective(r1: int, a1: int, r2: int, a2: int)
    requires Message(InsufficientStock(r1, a1)) == Message(InsufficientStock(r2, a2))
    ensures r1 == r2 && a1 == a2
  {
    var p, c := "Недостаточно товара на складе. Требуется: ", ", в наличии: ";
    var x1, y1 := Text.IntToString(r1), Text.IntToString(a1);
    var x2, y2 := Text.IntToString(r2), Text.IntToString(a2);
    DropCommonPrefix(p, x1 + (c + y1), x2 + (c + y2));
    IntToStringHasNoComma(r1);
    IntToStringHasNoComma(r2);
    SplitAtComma(x1, c + y1, x2, c + y2);
    DropCommonPrefix(c, y1, y2);
    Text.IntToStringInjective(r1, r2);
    Text.IntToStringInjective(a1, a2);
  }

  /** The first character of a message tells its kind. */
  function Head(f: Failure): char {
    match f
    case ProductNotFound(_) => 'Т'
    case InsufficientStock(_, _) => 'Н'
    case PaymentFailed => 'P'
    case PaymentNotCompleted => 'П'
    case TimedOut => 'n'
  }

  lemma ConcatHead(a: string, b: string)
    requires |a| > 0
    ensures (a + b)[0] == a[0]
  {
  }

  /** Two failures with the same message are the same failure: the message
      of a failed order identifies its cause. */
  lemma MessageInjective(f: Failure, g: Failure)
    ensures Message(f) == Message(g) ==> f == g
  {
    if Message(f) == Message(g) {
      // The five kinds differ in their first character.
      assert Message(f)[0] == Message(g)[0];
      match f
      case ProductNotFound(a) =>
        assert g.ProductNotFound?;
        NotFoundMessageInjective(a, g.productId);
      case InsufficientStock(r, a) =>
        assert g.InsufficientStock?;
        InsufficientStockMessageInjective(r, a, g.required, g.available);
      case PaymentFailed =>
      case PaymentNotCompleted =>
      case TimedOut =>
    }
  }

  // ---------------------------------------------------------------------
  // Stage 1: availability check.

  /** checkProductAvailability: the stored record when the id is known and
      its stock covers the quantity (equality allowed), else the failure.
      It only reads the inventory. */
  function CheckProductAvailability(inv: Inventory, order: Order): (r: Result<Product>)
    ensures r.Ok? <==> order.productId in inv && inv[order.productId].stockQuantity >= order.quantity
    ensures r.Ok? ==> r.value == inv[order.productId]
    ensures order.productId !in inv ==> r == Err(ProductNotFound(order.productId))
    ensures order.productId in inv && inv[order.productId].stockQuantity < order.quantity ==>
              r == Err(InsufficientStock(order.quantity, inv[order.productId].stockQuantity))
  {
    if order.productId !in inv then
      Err(ProductNotFound(order.productId))
    else
      var product := inv[order.productId];
      if product.stockQuantity < order.quantity then
        Err(InsufficientStock(order.quantity, product.stockQuantity))
      else
        Ok(product)
  }

  // ---------------------------------------------------------------------
  // Stage 2: price calculation.

  /** Quantities above this get the discount. */
  const DiscountThreshold: int := 5
  const DiscountRate: real := 0.10
  /** The price after discount is multiplied by this (12 % tax). */
  const TaxFactor: real := 1.12

  /** Unit price times quantity. */
  function BasePrice(order: Order, product: Product): real {
    product.price * order.quantity as real
  }

  /** calculatePrice: the base price, minus 10 % of it when the quantity
      exceeds five, plus 12 % tax on what remains. For a non-negative base
      the total lies between the discounted and the undiscounted taxed base. */
  function CalculatePrice(order: Order, product: Product): (total: real)
    ensures var base := BasePrice(order, product);
            0.0 <= base ==> 0.9 * TaxFactor * base <= total <= TaxFactor * base
  {
    var basePrice := BasePrice(order, product);
    var discount := if order.quantity > DiscountThreshold then basePrice * DiscountRate else 0.0;
    (basePrice - discount) * TaxFactor
  }

  /** Up to five units: base price plus 12 % tax. */
  lemma PriceWithoutDiscount(order: Order, product: Product)
    requires order.quantity <= DiscountThreshold
    ensures CalculatePrice(order, product) == 1.12 * BasePrice(order, product)
  {
  }

  /** Above five units: 90 % of the base price plus 12 % tax, that is
      100.8 % of the base price. */
  lemma PriceWithDiscount(order: Order, product: Product)
    requires order.quantity > DiscountThreshold
    ensures CalculatePrice(order, product) == 1.008 * BasePrice(order, product)
  {
  }

  lemma MulMonotone(p: real, a: real, b: real)
    requires 0.0 <= p && a <= b
    ensures p * a <= p * b
  {
    var d := b - a;
    assert p * d >= 0.0;
    assert p * b == p * a + p * d;
  }

  lemma BasePriceMonotone(product: Product, o1: Order, o2: Order)
    requires product.price >= 0.0
    requires o1.quantity <= o2.quantity
    ensures BasePrice(o1, product) <= BasePrice(o2, product)
  {
    MulMonotone(product.price, o1.quantity as real, o2.quantity as real);
  }

  /** At a non-negative unit price, ordering more never costs less, even
      across the discount threshold (five units cost 5.6 times the unit
      price, six units 6.048 times). */
  lemma PriceMonotoneInQuantity(product: Product, o1: Order, o2: Order)
    requires product.price >= 0.0
    requires o1.quantity <= o2.quantity
    ensures CalculatePrice(o1, product) <= CalculatePrice(o2, product)
  {
    BasePriceMonotone(product, o1, o2);
    if o2.quantity <= DiscountThreshold {
      PriceWithoutDiscount(o1, product);
      PriceWithoutDiscount(o2, product);
    } else if o1.quantity > DiscountThreshold {
      PriceWithDiscount(o1, product);
      PriceWithDiscount(o2, product);
    } else {
      PriceWithoutDiscount(o1, product);
      PriceWithDiscount(o2, product);
      var five, six := o1.(quantity := 5), o1.(quantity := 6);
      BasePriceMonotone(product, o1, five);
      BasePriceMonotone(product, six, o2);
      assert BasePrice(five, product) == 5.0 * product.price;
      assert BasePrice(six, product) == 6.0 * product.price;
    }
  }

  /** Six units at 100: base 600, discount 60, tax 64.8. */
  lemma PriceExampleDiscounted()
    ensures CalculatePrice(Order("o", "p", 6, "e"), Product("p", "n", 100.0, 10)) == 604.8
  {
  }

  /** Two units at 100: base 200, no discount, tax 24. */
  lemma PriceExampleUndiscounted()
    ensures CalculatePrice(Order("o", "p", 2, "e"), Product("p", "n", 100.0, 10)) == 224.0
  {
  }

  // ---------------------------------------------------------------------
  // Stage 3: payment.

  /** processPayment: `approved` stands for the random draw landing at or
      above 0.10. A decline is raised as an exception; the stage never
      completes with `false`. */
  function ProcessPayment(order: Order, amount: real, approved: bool): (r: Result<bool>)
    ensures r.Ok? <==> approved
    ensures r.Ok? ==> r.value
    ensures r.Err? ==> r.failure == PaymentFailed
  {
    if approved then Ok(true) else Err(PaymentFailed)
  }

  // ---------------------------------------------------------------------
  // Stage 4: reservation.

  /** reserveProduct: puts, under the snapshot's id, a new record with the
      snapshot's id, name and price and the snapshot's stock minus the
      ordered quantity. It does not look the product up again and does not
      check that the stock suffices. Every other key is left as it was. */
  function Reserve(inv: Inventory, order: Order, snapshot: Product): (r: Inventory)
    ensures r.Keys == inv.Keys + {snapshot.productId}
    ensures r[snapshot.productId] ==
              Product(snapshot.productId, snapshot.name, snapshot.price, snapshot.stockQuantity - order.quantity)
    ensures forall k :: k in inv && k != snapshot.productId ==> r[k] == inv[k]
  {
    var newStock := snapshot.stockQuantity - order.quantity;
    inv[snapshot.productId := Product(snapshot.productId, snapshot.name, snapshot.price, newStock)]
  }

  /** Whatever snapshot it is given, a reservation stores the new record
      under that record's own id. */
  lemma ReservePreservesWellKeyed(inv: Inventory, order: Order, snapshot: Product)
    requires WellKeyed(inv)
    ensures WellKeyed(Reserve(inv, order, snapshot))
  {
  }

  /** Without its own sufficiency check, a reservation can drive stock below
      zero when the snapshot no longer covers the quantity. */
  lemma ReserveCanOversell()
    ensures var inv := map["P" := Product("P", "n", 1.0, 1)];
            Reserve(inv, Order("o", "P", 2, "e"), inv["P"])["P"].stockQuantity == -1
  {
  }

  /** The reservation as evidently intended: the stock stored at the moment
      of the update, minus the quantity. */
  function ReserveCurrent(inv: Inventory, order: Order): (r: Inventory)
    requires order.productId in inv
    ensures r.Keys == inv.Keys
    ensures r[order.productId].stockQuantity == inv[order.productId].stockQuantity - order.quantity
    ensures forall k :: k in inv && k != order.productId ==> r[k] == inv[k]
  {
    var current := inv[order.productId];
    inv[order.productId := Product(current.productId, current.name, current.price,
                                   current.stockQuantity - order.quantity)]
  }

  /** With a snapshot taken from the current inventory, the reservation as
      written is the intended one. */
  lemma FreshSnapshotReserveIsCurrent(inv: Inventory, order: Order)
    requires WellKeyed(inv) && order.productId in inv
    ensures Reserve(inv, order, inv[order.productId]) == ReserveCurrent(inv, order)
  {
  }

  /** Two orders for the same product both pass the check against the same
      stock of 10 before either reserves (the interleaving the executor
      allows). Each reservation writes snapshot stock minus its own quantity,
      so the later write wins: 7 units remain instead of 10 - 2 - 3 = 5. */
  lemma StaleSnapshotLosesUpdate()
    ensures var inv := map["PROD001" := Product("PROD001", "n", 1.0, 10)];
            var first, second := Order("A", "PROD001", 2, "a"), Order("B", "PROD001", 3, "b");
            var snapFirst := CheckProductAvailability(inv, first);
            var snapSecond := CheckProductAvailability(inv, second);
            && snapFirst.Ok? && snapSecond.Ok?
            && Reserve(Reserve(inv, first, snapFirst.value), second, snapSecond.value)["PROD001"].stockQuantity == 7
  {
  }

  /** The intended reservation loses no update: two reservations for the
      same product lower its stock by the sum of the quantities, in either
      order. */
  lemma ReserveCurrentAccumulates(inv: Inventory, first: Order, second: Order)
    requires first.productId in inv && second.productId == first.productId
    ensures var both := ReserveCurrent(ReserveCurrent(inv, first), second);
            both[first.productId].stockQuantity
              == inv[first.productId].stockQuantity - first.quantity - second.quantity
    ensures ReserveCurrent(ReserveCurrent(inv, first), second)
              == ReserveCurrent(ReserveCurrent(inv, second), first)
  {
    var id := first.productId;
    var a := ReserveCurrent(ReserveCurrent(inv, first), second);
    var b := ReserveCurrent(ReserveCurrent(inv, second), first);
    assert a[id] == b[id];
    assert a.Keys == b.Keys;
  }
}
