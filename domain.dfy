/** The three immutable value classes of the order service. Each Java class
    has private fields assigned once in its constructor and only getters
    afterwards, so each is a datatype: the constructor is the datatype
    constructor and each getter is the field destructor of the same name.
    Java `double` is modelled as `real` (no rounding), Java `int` as `int`. */
module Domain {

  /** An order as the caller builds it. The constructor does not check that
      `quantity` is positive; no member of this model assumes it is. */
  datatype Order = Order(orderId: string, productId: string, quantity: int, customerEmail: string)

  /** A catalogue entry. A stock change builds a new record (see
      Stages.Reserve); there is no setter. */
  datatype Product = Product(productId: string, name: string, price: real, stockQuantity: int)

  /** The single terminal outcome of one order's pipeline. */
  datatype OrderResult = OrderResult(orderId: string, success: bool, message: string, totalAmount: real)

  /** getOrderId, getProductId, getQuantity and getCustomerEmail return what
      the constructor was given. */
  lemma OrderGettersReturnConstructorArguments(orderId: string, productId: string, quantity: int, customerEmail: string)
    ensures var o := Order(orderId, productId, quantity, customerEmail);
            && o.orderId == orderId
            && o.productId == productId
            && o.quantity == quantity
            && o.customerEmail == customerEmail
  {
  }

  /** An order is determined by what its getters return: nothing else is
      stored and nothing can change after construction. */
  lemma OrderDeterminedByGetters(o: Order, o': Order)
    ensures (o.orderId == o'.orderId && o.productId == o'.productId
             && o.quantity == o'.quantity && o.customerEmail == o'.customerEmail) <==> o == o'
  {
  }

  /** getProductId, getName, getPrice and getStockQuantity return what the
      constructor was given. */
  lemma ProductGettersReturnConstructorArguments(productId: string, name: string, price: real, stockQuantity: int)
    ensures var p := Product(productId, name, price, stockQuantity);
            && p.productId == productId
            && p.name == name
            && p.price == price
            && p.stockQuantity == stockQuantity
  {
  }

  /** A product with a different stock level is a different record: the
      stock of a record cannot change, only a new record can be built. */
  lemma ProductStockChangeNeedsNewRecord(p: Product, p': Product)
    ensures p.stockQuantity != p'.stockQuantity ==> p != p'
    ensures (p.productId == p'.productId && p.name == p'.name
             && p.price == p'.price && p.stockQuantity == p'.stockQuantity) <==> p == p'
  {
  }

  /** getOrderId, isSuccess, getMessage and getTotalAmount return what the
      constructor was given. */
  lemma OrderResultGettersReturnConstructorArguments(orderId: string, success: bool, message: string, totalAmount: real)
    ensures var r := OrderResult(orderId, success, message, totalAmount);
            && r.orderId == orderId
            && r.success == success
            && r.message == message
            && r.totalAmount == totalAmount
  {
  }

  /** A result is determined by what its getters return. */
  lemma OrderResultDeterminedByGetters(r: OrderResult, r': OrderResult)
    ensures (r.orderId == r'.orderId && r.success == r'.success
             && r.message == r'.message && r.totalAmount == r'.totalAmount) <==> r == r'
  {
  }
}
