/**
 * The order controller of the backend: `createOrder` (validation, stock check,
 * order and order-item creation, stock and sold update, order numbering, all
 * inside one transaction) and `getUserOrders` (a user's orders with their
 * items, newest first).
 *
 * The database is an in-memory store: a map from product id to product row,
 * the order and order-item tables as sequences, and the next auto-increment
 * id.  The transaction becomes all-or-nothing: every rejected request leaves
 * the store as it was, and a committed request applies the whole cart.
 * The clock (`Date.now()`, the current year) is a parameter.
 */
module OrderController {
  import opened Wrappers
  import opened Strings
  import Ordering

  /** A product row; only `stock` and `sold` are touched by an order. */
  datatype Product = Product(name: string, price: real, stock: int, sold: int)

  /** A cart line as the client sends it: the product id plus a display snapshot. */
  datatype CartItem = CartItem(id: int, name: string, price: real, quantity: int, image: string)

  /** The `totals` object of the request; `shipping` and `tax` may be absent. */
  datatype Totals = Totals(subtotal: real, shipping: Option<real>, tax: Option<real>, total: real)

  datatype CustomerDetails = CustomerDetails(firstName: string, lastName: string, email: string, phone: string, address: string)

  datatype PaymentDetails = PaymentDetails(paymentMethod: string, accountType: string, bankName: string)

  datatype Order = Order(
    id: nat, userId: int, orderNumber: string,
    total: real, subtotal: real, shipping: real, tax: real,
    customerDetails: CustomerDetails, paymentDetails: PaymentDetails,
    createdAt: int, estimatedDelivery: int)

  datatype OrderItem = OrderItem(
    orderId: nat, productId: int, quantity: int, price: real,
    productName: string, productImage: string)

  /** The reasons a request is turned away, in the order they are checked. */
  datatype Failure =
    | Unauthenticated
    | CartEmpty
    | MissingOrderInformation
    | ProductNotFound(productName: string)
    | InsufficientStock(productName: string, available: int, requested: int)

  datatype Response =
    | Created(id: nat, orderNumber: string, createdAt: int, total: real)
    | Rejected(failure: Failure)

  /** Five days in milliseconds, the delivery estimate's offset from the creation time. */
  const DeliveryOffsetMs: int := 5 * 24 * 60 * 60 * 1000

  /** The HTTP status the controller answers with. */
  function HttpStatus(r: Response): (code: int)
    ensures r.Created? <==> code == 201
    ensures code == 401 <==> r == Rejected(Unauthenticated)
    ensures r.Rejected? && r.failure != Unauthenticated ==> code == 400
  {
    match r
    case Created(_, _, _, _) => 201
    case Rejected(Unauthenticated) => 401
    case Rejected(_) => 400
  }

  /** The `message` field of a rejection. */
  function Message(f: Failure): (msg: string)
    ensures |msg| > 0
    ensures f.ProductNotFound? ==> |msg| == |f.productName| + 18 && msg[8..|msg| - 10] == f.productName
    ensures f.InsufficientStock? ==> |msg| > 23 + |f.productName| && msg[23..23 + |f.productName|] == f.productName
  {
    match f
    case Unauthenticated => "User not authenticated"
    case CartEmpty => "Cart is empty"
    case MissingOrderInformation => "Missing required order information"
    case ProductNotFound(name) =>
      var msg := "Product " + name + " not found";
      assert msg[8..|msg| - 10] == name;
      msg
    case InsufficientStock(name, available, requested) =>
      var head := "Insufficient stock for " + name;
      var msg := head + (". Available: " + IntToString(available) + ", Requested: " + IntToString(requested));
      assert msg[..|head|] == head && head[23..] == name;
      msg
  }

  /** The `success` and `message` fields of the JSON body `createOrder` answers with. */
  function ResponseBody(r: Response): (body: (bool, string))
    ensures body.0 <==> r.Created?
    ensures r.Created? ==> body.1 == "Order created successfully"
    ensures r.Rejected? ==> body.1 == Message(r.failure)
  {
    match r
    case Created(_, _, _, _) => (true, "Order created successfully")
    case Rejected(f) => (false, Message(f))
  }

  /**
   * A client can tell the failures apart by their message: equal messages come from the same
   * check, and a missing product's message names that product.
   */
  lemma MessagesDistinguishFailures(f: Failure, g: Failure)
    requires Message(f) == Message(g)
    ensures f.Unauthenticated? == g.Unauthenticated? && f.CartEmpty? == g.CartEmpty?
    ensures f.MissingOrderInformation? == g.MissingOrderInformation?
    ensures f.ProductNotFound? == g.ProductNotFound? && f.InsufficientStock? == g.InsufficientStock?
    ensures f.ProductNotFound? && g.ProductNotFound? ==> f.productName == g.productName
  {
    var m := Message(f);
    // the first character names the check
    assert f.Unauthenticated? ==> m[0] == 'U';
    assert f.CartEmpty? ==> m[0] == 'C';
    assert f.MissingOrderInformation? ==> m[0] == 'M';
    assert f.ProductNotFound? ==> m[0] == 'P';
    assert f.InsufficientStock? ==> m[0] == 'I';
    assert g.Unauthenticated? ==> m[0] == 'U';
    assert g.CartEmpty? ==> m[0] == 'C';
    assert g.MissingOrderInformation? ==> m[0] == 'M';
    assert g.ProductNotFound? ==> m[0] == 'P';
    assert g.InsufficientStock? ==> m[0] == 'I';
    if f.ProductNotFound? && g.ProductNotFound? {
      assert m[8..|m| - 10] == f.productName;
      assert m[8..|m| - 10] == g.productName;
    }
  }

  /** `req.user?.id` is truthy: present and not 0. */
  predicate HasUser(userId: Option<int>) {
    userId.Some? && userId.value != 0
  }

  // ---------------------------------------------------------------------------
  // Order numbers

  /** `ORD-<year>-<id left-padded with '0' to at least 3 digits>`. */
  function FormatOrderNumber(year: nat, id: nat): (s: string)
    ensures StartsWith(s, "ORD-")
  {
    "ORD-" + (NatToString(year) + "-" + PadStart(NatToString(id), 3, '0'))
  }

  /** The placeholder number the order carries until its id is known. */
  function TemporaryOrderNumber(year: nat, nowMs: int, userId: int): string {
    "ORD-" + NatToString(year) + "-" + IntToString(nowMs) + "-" + IntToString(userId)
  }

  /** Reads `ORD-<digits>-<digits>` back into its year and id. */
  function ParseOrderNumber(s: string): Option<(nat, nat)> {
    if !StartsWith(s, "ORD-") then None else ParseYearAndId(s[4..])
  }

  /** Reads `<digits>-<digits>`, split at the first '-'. */
  function ParseYearAndId(rest: string): Option<(nat, nat)> {
    match FirstIndexOf(rest, '-')
    case None => None
    case Some(k) =>
      var year, id := rest[..k], rest[k + 1..];
      if year != [] && id != [] && AllDigits(year) && AllDigits(id)
      then Some((DigitsValue(year), DigitsValue(id)))
      else None
  }

  /** The id an order number encodes, if it is well formed. */
  function OrderIdOf(s: string): Option<nat> {
    match ParseOrderNumber(s)
    case None => None
    case Some((_, id)) => Some(id)
  }

  /** The first '-' after a run of digits is the one right after them. */
  lemma {:induction false} FirstDashAfterDigits(y: string, d: string)
    requires AllDigits(y)
    ensures FirstIndexOf(y + "-" + d, '-') == Some(|y|)
  {
    if y != [] {
      assert (y + "-" + d)[1..] == y[1..] + "-" + d;
      FirstDashAfterDigits(y[1..], d);
    }
  }

  /** `<y>-<d>` with two non-empty digit strings splits into their values. */
  lemma ParseYearAndIdParts(y: string, d: string)
    requires AllDigits(y) && AllDigits(d) && y != [] && d != []
    ensures ParseYearAndId(y + "-" + d) == Some((DigitsValue(y), DigitsValue(d)))
  {
    var rest := y + "-" + d;
    FirstDashAfterDigits(y, d);
    assert rest[..|y|] == y;
    assert rest[|y| + 1..] == d;
  }

  /** `ORD-<y>-<d>` with two non-empty digit strings parses into their values. */
  lemma ParseOrderNumberParts(y: string, d: string)
    requires AllDigits(y) && AllDigits(d) && y != [] && d != []
    ensures ParseOrderNumber("ORD-" + (y + "-" + d)) == Some((DigitsValue(y), DigitsValue(d)))
  {
    var rest := y + "-" + d;
    var s := "ORD-" + rest;
    assert s[..4] == "ORD-";
    assert s[4..] == rest;
    ParseYearAndIdParts(y, d);
  }

  /** The final order number can be read back: year and id are recovered exactly. */
  lemma OrderNumberRoundTrip(year: nat, id: nat)
    ensures ParseOrderNumber(FormatOrderNumber(year, id)) == Some((year, id))
  {
    var y := NatToString(year);
    var d := PadStart(NatToString(id), 3, '0');
    ZeroPaddedValue(id, 3);
    DigitsValueOfNatToString(year);
    ParseOrderNumberParts(y, d);
  }

  /** Two orders get the same final number only for the same year and id. */
  lemma OrderNumberInjective(y1: nat, id1: nat, y2: nat, id2: nat)
    requires FormatOrderNumber(y1, id1) == FormatOrderNumber(y2, id2)
    ensures y1 == y2 && id1 == id2
  {
    OrderNumberRoundTrip(y1, id1);
    OrderNumberRoundTrip(y2, id2);
  }

  /** Ids below 100 are padded to three digits; longer ids appear as they are. */
  lemma OrderNumberPadding(year: nat, id: nat)
    ensures id < 100 ==> |PadStart(NatToString(id), 3, '0')| == 3
    ensures id >= 100 ==> PadStart(NatToString(id), 3, '0') == NatToString(id)
  {
    if id >= 100 {
      assert |NatToString(id)| == |NatToString(id / 10)| + 1;
      assert |NatToString(id / 10)| == |NatToString(id / 100)| + 1;
    } else if id >= 10 {
      assert |NatToString(id)| == |NatToString(id / 10)| + 1;
    }
  }

  // ---------------------------------------------------------------------------
  // Validation

  /** A cart line passes the stock check against `products`. */
  predicate LineInStock(products: map<int, Product>, item: CartItem) {
    item.id in products && products[item.id].stock >= item.quantity
  }

  /** How a line that fails the stock check is reported. */
  function LineFailure(products: map<int, Product>, item: CartItem): Failure {
    if item.id !in products then ProductNotFound(item.name)
    else InsufficientStock(item.name, products[item.id].stock, item.quantity)
  }

  /** The first line, front to back, that fails against the pre-order stock. */
  function FirstFailingLine(products: map<int, Product>, cart: seq<CartItem>): Option<Failure> {
    if cart == [] then None
    else if !LineInStock(products, cart[0]) then Some(LineFailure(products, cart[0]))
    else FirstFailingLine(products, cart[1..])
  }

  /** The stock check passes exactly when every line is in stock. */
  lemma {:induction false} FirstFailingLineNone(products: map<int, Product>, cart: seq<CartItem>)
    ensures FirstFailingLine(products, cart) == None
      <==> forall k :: 0 <= k < |cart| ==> LineInStock(products, cart[k])
  {
    if cart != [] {
      FirstFailingLineNone(products, cart[1..]);
      assert forall k :: 1 <= k < |cart| ==> cart[k] == cart[1..][k - 1];
    }
  }

  /** The checks of `createOrder`, in the order the controller runs them. */
  function CheckRequest(
    userId: Option<int>, cartItems: Option<seq<CartItem>>, customer: Option<CustomerDetails>,
    payment: Option<PaymentDetails>, totals: Option<Totals>, products: map<int, Product>): Option<Failure>
  {
    if !HasUser(userId) then Some(Unauthenticated)
    else if cartItems.None? || |cartItems.value| == 0 then Some(CartEmpty)
    else if customer.None? || payment.None? || totals.None? then Some(MissingOrderInformation)
    else FirstFailingLine(products, cartItems.value)
  }

  /** Each check wins over every later one: a missing user hides all other faults, and so on down the chain. */
  lemma CheckRequestPriority(
    userId: Option<int>, cartItems: Option<seq<CartItem>>, customer: Option<CustomerDetails>,
    payment: Option<PaymentDetails>, totals: Option<Totals>, products: map<int, Product>)
    ensures !HasUser(userId) ==> CheckRequest(userId, cartItems, customer, payment, totals, products) == Some(Unauthenticated)
    ensures HasUser(userId) && (cartItems.None? || cartItems.value == []) ==>
      CheckRequest(userId, cartItems, customer, payment, totals, products) == Some(CartEmpty)
    ensures HasUser(userId) && cartItems.Some? && cartItems.value != [] && (customer.None? || payment.None? || totals.None?) ==>
      CheckRequest(userId, cartItems, customer, payment, totals, products) == Some(MissingOrderInformation)
    ensures CheckRequest(userId, cartItems, customer, payment, totals, products) == None <==>
      HasUser(userId) && cartItems.Some? && cartItems.value != [] && customer.Some? && payment.Some? && totals.Some?
      && forall k :: 0 <= k < |cartItems.value| ==> LineInStock(products, cartItems.value[k])
  {
    if cartItems.Some? {
      FirstFailingLineNone(products, cartItems.value);
    }
  }

  // ---------------------------------------------------------------------------
  // The writes of a committed order

  /** The order row written for a committed request, with its final number. */
  function PlacedOrder(
    id: nat, userId: int, totals: Totals, customer: CustomerDetails, payment: PaymentDetails,
    year: nat, nowMs: int): (o: Order)
    ensures o.id == id && o.userId == userId && OrderIdOf(o.orderNumber) == Some(id)
    ensures o.total == totals.total && o.subtotal == totals.subtotal
    ensures o.shipping == (if totals.shipping.Some? then totals.shipping.value else 0.0)
    ensures o.tax == (if totals.tax.Some? then totals.tax.value else 0.0)
    ensures o.estimatedDelivery == o.createdAt + 432000000
  {
    OrderNumberRoundTrip(year, id);
    Order(id, userId, FormatOrderNumber(year, id), totals.total, totals.subtotal,
          totals.shipping.GetOr(0.0), totals.tax.GetOr(0.0), customer, payment,
          nowMs, nowMs + DeliveryOffsetMs)
  }

  /** The item row written for one cart line: a snapshot of the line, not of the product row. */
  function ItemOf(orderId: nat, item: CartItem): (r: OrderItem)
    ensures r.orderId == orderId && r.productId == item.id && r.quantity == item.quantity
    ensures r.price == item.price && r.productName == item.name && r.productImage == item.image
  {
    OrderItem(orderId, item.id, item.quantity, item.price, item.name, item.image)
  }

  /** The item rows of an order: one per cart line, in cart order. */
  function ItemsFor(orderId: nat, cart: seq<CartItem>): (r: seq<OrderItem>)
    ensures |r| == |cart| && forall k :: 0 <= k < |cart| ==> r[k] == ItemOf(orderId, cart[k])
  {
    seq(|cart|, k requires 0 <= k < |cart| => ItemOf(orderId, cart[k]))
  }

  /** `UPDATE products SET stock = stock - q, sold = sold + q WHERE id = item.id`. */
  function ApplyLine(products: map<int, Product>, item: CartItem): map<int, Product> {
    if item.id in products then
      var p := products[item.id];
      products[item.id := p.(stock := p.stock - item.quantity, sold := p.sold + item.quantity)]
    else products
  }

  /** The product table after the updates of every line, applied in cart order. */
  function ApplyCart(products: map<int, Product>, cart: seq<CartItem>): map<int, Product> {
    if cart == [] then products
    else ApplyLine(ApplyCart(products, cart[..|cart| - 1]), cart[|cart| - 1])
  }

  /** The total quantity the cart orders of product `pid`. */
  function QuantityFor(cart: seq<CartItem>, pid: int): int {
    if cart == [] then 0
    else QuantityFor(cart[..|cart| - 1], pid) + (if cart[|cart| - 1].id == pid then cart[|cart| - 1].quantity else 0)
  }

  /** The product ids of the cart lines. */
  ghost predicate InCart(cart: seq<CartItem>, pid: int) {
    exists k :: 0 <= k < |cart| && cart[k].id == pid
  }

  /**
   * After the updates, each product's stock has dropped and its sold count risen by the
   * cart's total quantity for it; names, prices and the set of products are unchanged.
   */
  lemma {:induction false} ApplyCartEffect(products: map<int, Product>, cart: seq<CartItem>, pid: int)
    ensures ApplyCart(products, cart).Keys == products.Keys
    ensures pid in products ==>
      var p, q := products[pid], ApplyCart(products, cart)[pid];
      q == p.(stock := p.stock - QuantityFor(cart, pid), sold := p.sold + QuantityFor(cart, pid))
  {
    if cart != [] {
      ApplyCartEffect(products, cart[..|cart| - 1], pid);
    }
  }

  /** A product that no line names is ordered in quantity 0, so the updates leave it alone. */
  lemma {:induction false} QuantityForAbsent(cart: seq<CartItem>, pid: int)
    requires !InCart(cart, pid)
    ensures QuantityFor(cart, pid) == 0
  {
    if cart != [] {
      assert cart[|cart| - 1].id != pid;
      assert forall k :: 0 <= k < |cart| - 1 ==> cart[..|cart| - 1][k] == cart[k];
      QuantityForAbsent(cart[..|cart| - 1], pid);
    }
  }

  /** Products outside the cart are untouched by a committed order. */
  lemma UntouchedOutsideCart(products: map<int, Product>, cart: seq<CartItem>, pid: int)
    requires pid in products && !InCart(cart, pid)
    ensures pid in ApplyCart(products, cart) && ApplyCart(products, cart)[pid] == products[pid]
  {
    ApplyCartEffect(products, cart, pid);
    QuantityForAbsent(cart, pid);
  }

  /** No two lines name the same product. */
  predicate DistinctIds(cart: seq<CartItem>) {
    forall i, j :: 0 <= i < j < |cart| ==> cart[i].id != cart[j].id
  }

  /** With distinct ids the cart orders each product in exactly the quantity of its one line. */
  lemma {:induction false} QuantityForDistinct(cart: seq<CartItem>, k: nat)
    requires DistinctIds(cart) && k < |cart|
    ensures QuantityFor(cart, cart[k].id) == cart[k].quantity
  {
    var init := cart[..|cart| - 1];
    assert forall i :: 0 <= i < |init| ==> init[i] == cart[i];
    if k == |cart| - 1 {
      assert !InCart(init, cart[k].id);
      QuantityForAbsent(init, cart[k].id);
    } else {
      QuantityForDistinct(init, k);
    }
  }

  /** Every stock is non-negative. */
  ghost predicate StockNonNegative(products: map<int, Product>) {
    forall pid :: pid in products ==> products[pid].stock >= 0
  }

  /** A cart with distinct ids that passes the check cannot drive any stock below zero. */
  lemma DistinctCartKeepsStock(products: map<int, Product>, cart: seq<CartItem>)
    requires StockNonNegative(products) && DistinctIds(cart)
    requires FirstFailingLine(products, cart) == None
    ensures StockNonNegative(ApplyCart(products, cart))
  {
    FirstFailingLineNone(products, cart);
    forall pid | pid in ApplyCart(products, cart) ensures ApplyCart(products, cart)[pid].stock >= 0 {
      ApplyCartEffect(products, cart, pid);
      if InCart(cart, pid) {
        var k :| 0 <= k < |cart| && cart[k].id == pid;
        QuantityForDistinct(cart, k);
      } else {
        QuantityForAbsent(cart, pid);
      }
    }
  }

  /**
   * As written, each line is checked against the stock before the order, so two lines of the
   * same product are each checked against the full stock: 5 in stock, two lines of 3, both pass,
   * and the stock ends at -1.
   */
  lemma DuplicateLinesOverdraw()
    ensures var products := map[1 := Product("Mouse", 50.0, 5, 0)];
            var cart := [CartItem(1, "Mouse", 50.0, 3, ""), CartItem(1, "Mouse", 50.0, 3, "")];
            FirstFailingLine(products, cart) == None
            && 1 in ApplyCart(products, cart) && ApplyCart(products, cart)[1].stock == -1
  {
    var products := map[1 := Product("Mouse", 50.0, 5, 0)];
    var cart := [CartItem(1, "Mouse", 50.0, 3, ""), CartItem(1, "Mouse", 50.0, 3, "")];
    assert cart[1..][1..] == [];
    assert cart[..1][..0] == [];
    assert cart[..|cart| - 1] == cart[..1];
  }

  // ---------------------------------------------------------------------------
  // The corrected stock check: each line is checked against what the earlier lines left

  /** The first line, from index `i` on, whose quantity exceeds the stock left by the lines before it. */
  function FirstOverdraw(products: map<int, Product>, cart: seq<CartItem>, i: nat): Option<Failure>
    decreases |cart| - i
  {
    if i >= |cart| then None
    else
      var item := cart[i];
      if item.id !in products then Some(ProductNotFound(item.name))
      else
        var left := products[item.id].stock - QuantityFor(cart[..i], item.id);
        if left < item.quantity then Some(InsufficientStock(item.name, left, item.quantity))
        else FirstOverdraw(products, cart, i + 1)
  }

  /** The corrected request check: the same presence checks in the same order, then `FirstOverdraw`. */
  function CheckRequestGuarded(
    userId: Option<int>, cartItems: Option<seq<CartItem>>, customer: Option<CustomerDetails>,
    payment: Option<PaymentDetails>, totals: Option<Totals>, products: map<int, Product>): Option<Failure>
  {
    if !HasUser(userId) then Some(Unauthenticated)
    else if cartItems.None? || |cartItems.value| == 0 then Some(CartEmpty)
    else if customer.None? || payment.None? || totals.None? then Some(MissingOrderInformation)
    else FirstOverdraw(products, cartItems.value, 0)
  }

  /** Every line from `i` on fits in the stock left by the lines before it. */
  ghost predicate FitsFrom(products: map<int, Product>, cart: seq<CartItem>, i: nat) {
    forall k :: i <= k < |cart| ==>
      cart[k].id in products && products[cart[k].id].stock >= QuantityFor(cart[..k + 1], cart[k].id)
  }

  lemma {:induction false} FirstOverdrawNone(products: map<int, Product>, cart: seq<CartItem>, i: nat)
    requires i <= |cart|
    requires FirstOverdraw(products, cart, i) == None
    ensures FitsFrom(products, cart, i)
    decreases |cart| - i
  {
    if i < |cart| {
      FirstOverdrawNone(products, cart, i + 1);
      assert cart[..i + 1][..i] == cart[..i];
    }
  }

  /** When every line fits in what its predecessors left, the whole cart fits in the stock. */
  lemma {:induction false} FitsBoundsTotal(products: map<int, Product>, cart: seq<CartItem>, pid: int)
    requires StockNonNegative(products) && FitsFrom(products, cart, 0) && pid in products
    ensures products[pid].stock >= QuantityFor(cart, pid)
  {
    if cart != [] {
      var init := cart[..|cart| - 1];
      forall k | 0 <= k < |init|
        ensures init[k].id in products && products[init[k].id].stock >= QuantityFor(init[..k + 1], init[k].id)
      {
        assert init[..k + 1] == cart[..k + 1];
      }
      if cart[|cart| - 1].id == pid {
        assert cart[..|cart|] == cart;
      } else {
        FitsBoundsTotal(products, init, pid);
      }
    }
  }

  /** With the corrected check no committed cart, duplicates included, drives a stock below zero. */
  lemma GuardedCheckKeepsStock(products: map<int, Product>, cart: seq<CartItem>)
    requires StockNonNegative(products)
    requires FirstOverdraw(products, cart, 0) == None
    ensures StockNonNegative(ApplyCart(products, cart))
  {
    FirstOverdrawNone(products, cart, 0);
    forall pid | pid in ApplyCart(products, cart) ensures ApplyCart(products, cart)[pid].stock >= 0 {
      ApplyCartEffect(products, cart, pid);
      FitsBoundsTotal(products, cart, pid);
    }
  }

  /** For carts with distinct ids the corrected check decides exactly as the original one. */
  lemma {:induction false} GuardedAgreesOnDistinct(products: map<int, Product>, cart: seq<CartItem>, i: nat)
    requires DistinctIds(cart) && i <= |cart|
    ensures FirstOverdraw(products, cart, i) == FirstFailingLine(products, cart[i..])
    decreases |cart| - i
  {
    if i < |cart| {
      var pre := cart[..i];
      assert forall k :: 0 <= k < |pre| ==> pre[k] == cart[k];
      assert !InCart(pre, cart[i].id);
      QuantityForAbsent(pre, cart[i].id);
      assert cart[i..][1..] == cart[i + 1..];
      GuardedAgreesOnDistinct(products, cart, i + 1);
    }
  }

  // ---------------------------------------------------------------------------
  // The order query

  datatype OrderWithItems = OrderWithItems(order: Order, items: seq<OrderItem>)

  datatype OrdersResponse = NotAuthenticated | Orders(orders: seq<OrderWithItems>)

  /** The orders of one user, in table order. */
  function OrdersOf(orders: seq<Order>, userId: int): (r: seq<Order>)
    ensures forall o :: o in r <==> o in orders && o.userId == userId
    ensures multiset(r) <= multiset(orders)
    ensures forall o :: multiset(r)[o] == if o.userId == userId then multiset(orders)[o] else 0
  {
    if orders == [] then []
    else
      assert orders == [orders[0]] + orders[1..];
      (if orders[0].userId == userId then [orders[0]] else []) + OrdersOf(orders[1..], userId)
  }

  /** The item rows of one order, in table order. */
  function ItemsOf(items: seq<OrderItem>, orderId: nat): (r: seq<OrderItem>)
    ensures forall it :: it in r <==> it in items && it.orderId == orderId
    ensures forall it :: multiset(r)[it] == if it.orderId == orderId then multiset(items)[it] else 0
  {
    if items == [] then []
    else
      assert items == [items[0]] + items[1..];
      (if items[0].orderId == orderId then [items[0]] else []) + ItemsOf(items[1..], orderId)
  }

  function WithItems(orders: seq<Order>, items: seq<OrderItem>): (r: seq<OrderWithItems>)
    ensures |r| == |orders|
    ensures forall k :: 0 <= k < |r| ==> r[k] == OrderWithItems(orders[k], ItemsOf(items, orders[k].id))
  {
    seq(|orders|, k requires 0 <= k < |orders| => OrderWithItems(orders[k], ItemsOf(items, orders[k].id)))
  }

  function CreatedAt(w: OrderWithItems): int { w.order.createdAt }

  /** `getUserOrders`: 401 without a user; otherwise the user's orders with their items, newest first. */
  function UserOrders(orders: seq<Order>, items: seq<OrderItem>, userId: Option<int>): (r: OrdersResponse)
    ensures r.NotAuthenticated? <==> !HasUser(userId)
    ensures r.Orders? ==>
      && Ordering.SortedDesc(r.orders, CreatedAt)
      && multiset(r.orders) == multiset(WithItems(OrdersOf(orders, userId.value), items))
  {
    if !HasUser(userId) then NotAuthenticated
    else
      Ordering.SortDescCorrect(WithItems(OrdersOf(orders, userId.value), items), CreatedAt);
      Orders(Ordering.SortDesc(WithItems(OrdersOf(orders, userId.value), items), CreatedAt))
  }

  /** Every order of the user appears in the joined list, with its own items. */
  lemma WithItemsCovers(mine: seq<Order>, items: seq<OrderItem>, o: Order)
    requires o in mine
    ensures OrderWithItems(o, ItemsOf(items, o.id)) in WithItems(mine, items)
  {
    var k :| 0 <= k < |mine| && mine[k] == o;
    assert WithItems(mine, items)[k] == OrderWithItems(o, ItemsOf(items, o.id));
  }

  /** Every entry of the joined list is one of the user's orders with exactly its own items. */
  lemma WithItemsSound(mine: seq<Order>, items: seq<OrderItem>, w: OrderWithItems)
    requires w in WithItems(mine, items)
    ensures w.order in mine && w.items == ItemsOf(items, w.order.id)
  {
    var k :| 0 <= k < |WithItems(mine, items)| && WithItems(mine, items)[k] == w;
  }

  /**
   * The answer of `getUserOrders`: a 401 exactly when there is no user; otherwise every order of
   * that user and no other, each with exactly its own items, sorted by creation time, newest
   * first, and as many entries as the user has orders.
   */
  lemma UserOrdersCorrect(orders: seq<Order>, items: seq<OrderItem>, userId: Option<int>)
    ensures UserOrders(orders, items, userId).NotAuthenticated? <==> !HasUser(userId)
    ensures HasUser(userId) ==>
      var r := UserOrders(orders, items, userId).orders;
      && Ordering.SortedDesc(r, CreatedAt)
      && |r| == |OrdersOf(orders, userId.value)|
      && (forall w :: w in r ==> w.order in orders && w.order.userId == userId.value)
      && (forall w :: w in r ==> forall it :: it in w.items <==> it in items && it.orderId == w.order.id)
      && (forall o :: o in orders && o.userId == userId.value ==> OrderWithItems(o, ItemsOf(items, o.id)) in r)
  {
    if HasUser(userId) {
      var mine := OrdersOf(orders, userId.value);
      var joined := WithItems(mine, items);
      var r := Ordering.SortDesc(joined, CreatedAt);
      Ordering.SortDescCorrect(joined, CreatedAt);
      forall w | w in r ensures w.order in mine && w.items == ItemsOf(items, w.order.id) {
        assert w in multiset(r);
        WithItemsSound(mine, items, w);
      }
      forall o | o in orders && o.userId == userId.value ensures OrderWithItems(o, ItemsOf(items, o.id)) in r {
        WithItemsCovers(mine, items, o);
        assert OrderWithItems(o, ItemsOf(items, o.id)) in multiset(joined);
      }
    }
  }

  lemma ApplyCartStep(products: map<int, Product>, cart: seq<CartItem>, j: nat)
    requires j < |cart|
    ensures ApplyCart(products, cart[..j + 1]) == ApplyLine(ApplyCart(products, cart[..j]), cart[j])
  {
    assert cart[..j + 1][..j] == cart[..j];
  }

  lemma ItemsForStep(orderId: nat, cart: seq<CartItem>, j: nat)
    requires j < |cart|
    ensures ItemsFor(orderId, cart[..j + 1]) == ItemsFor(orderId, cart[..j]) + [ItemOf(orderId, cart[j])]
  {
  }

  /**
   * The second loop of `createOrder`: for each cart line, one item row for order `orderId`
   * and that line's stock and sold update.
   */
  method StageLines(cart: seq<CartItem>, orderId: nat, items: seq<OrderItem>, products: map<int, Product>)
    returns (newItems: seq<OrderItem>, newProducts: map<int, Product>)
    ensures newItems == items + ItemsFor(orderId, cart)
    ensures newProducts == ApplyCart(products, cart)
  {
    newItems, newProducts := items, products;
    var j := 0;
    while j < |cart|
      invariant 0 <= j <= |cart|
      invariant newItems == items + ItemsFor(orderId, cart[..j])
      invariant newProducts == ApplyCart(products, cart[..j])
    {
      var item := cart[j];
      ApplyCartStep(products, cart, j);
      ItemsForStep(orderId, cart, j);
      newItems := newItems + [ItemOf(orderId, item)];
      if item.id in newProducts {
        var p := newProducts[item.id];
        newProducts := newProducts[item.id := p.(stock := p.stock - item.quantity, sold := p.sold + item.quantity)];
      }
      j := j + 1;
    }
    assert cart[..|cart|] == cart;
  }

  // ---------------------------------------------------------------------------
  // The store and the transaction

  /** The ids of an order table. */
  ghost function OrderIds(orders: seq<Order>): set<nat> {
    set i | 0 <= i < |orders| :: orders[i].id
  }

  /**
   * Order ids are positive, below the next auto-increment id and unique; every order's
   * number encodes its id; every item belongs to an order.
   */
  ghost predicate ValidTables(orders: seq<Order>, items: seq<OrderItem>, nextId: nat) {
    && nextId >= 1
    && (forall i :: 0 <= i < |orders| ==> 1 <= orders[i].id < nextId)
    && (forall i, j :: 0 <= i < j < |orders| ==> orders[i].id != orders[j].id)
    && (forall i :: 0 <= i < |orders| ==> OrderIdOf(orders[i].orderNumber) == Some(orders[i].id))
    && (forall k :: 0 <= k < |items| ==> items[k].orderId in OrderIds(orders))
  }

  /** Appending an order with the next id, and items that belong to it, keeps the tables valid. */
  lemma ValidAfterCommit(orders: seq<Order>, items: seq<OrderItem>, nextId: nat, order: Order, added: seq<OrderItem>)
    requires ValidTables(orders, items, nextId)
    requires order.id == nextId && OrderIdOf(order.orderNumber) == Some(nextId)
    requires forall k :: 0 <= k < |added| ==> added[k].orderId == nextId
    ensures ValidTables(orders + [order], items + added, nextId + 1)
  {
    var newOrders, newItems := orders + [order], items + added;
    assert newOrders[|orders|].id == nextId;
    assert nextId in OrderIds(newOrders);
    forall k | 0 <= k < |newItems| ensures newItems[k].orderId in OrderIds(newOrders) {
      if k < |items| {
        var i :| 0 <= i < |orders| && orders[i].id == items[k].orderId;
        assert newOrders[i].id == items[k].orderId;
      } else {
        assert newItems[k] == added[k - |items|];
      }
    }
  }

  /** Replacing the row just appended: `orders + [draft]` with its last row set to `final`. */
  /** The row as `Order.create` first inserts it, with the placeholder number. */
  function DraftOrder(
    id: nat, userId: int, totals: Totals, customer: CustomerDetails, payment: PaymentDetails,
    year: nat, nowMs: int): Order
  {
    Order(id, userId, TemporaryOrderNumber(year, nowMs, userId), totals.total, totals.subtotal,
          totals.shipping.GetOr(0.0), totals.tax.GetOr(0.0), customer, payment,
          nowMs, nowMs + DeliveryOffsetMs)
  }

  function RenumberLast(orders: seq<Order>, draft: Order, final: Order): (r: seq<Order>)
    ensures r == orders + [final]
  {
    (orders + [draft])[|orders| := final]
  }

  /** The tables after one order and its lines are committed. */
  lemma CommitKeepsTablesValid(orders: seq<Order>, items: seq<OrderItem>, nextId: nat, placed: Order, cart: seq<CartItem>)
    requires ValidTables(orders, items, nextId)
    requires placed.id == nextId && OrderIdOf(placed.orderNumber) == Some(nextId)
    ensures ValidTables(orders + [placed], items + ItemsFor(nextId, cart), nextId + 1)
  {
    var added := ItemsFor(nextId, cart);
    assert forall k :: 0 <= k < |added| ==> added[k].orderId == nextId;
    ValidAfterCommit(orders, items, nextId, placed, added);
  }

  class OrderStore {
    var products: map<int, Product>
    var orders: seq<Order>
    var items: seq<OrderItem>
    var nextId: nat

    /** The store's invariant, on its current tables. */
    ghost predicate Valid()
      reads this
    {
      ValidTables(orders, items, nextId)
    }

    constructor (catalog: map<int, Product>)
      ensures Valid()
      ensures products == catalog && orders == [] && items == [] && nextId == 1
    {
      products, orders, items, nextId := catalog, [], [], 1;
    }

    /** In a valid store distinct orders carry distinct order numbers. */
    lemma OrderNumbersUnique(i: nat, j: nat)
      requires Valid() && i < j < |orders|
      ensures orders[i].orderNumber != orders[j].orderNumber
    {
    }

    /**
     * `createOrder`.  A rejected request leaves every table as it was; a committed one adds one
     * order with the next id and the final number, one item per cart line, and applies every
     * line's stock and sold update.
     */
    method CreateOrder(
      userId: Option<int>, cartItems: Option<seq<CartItem>>, customer: Option<CustomerDetails>,
      payment: Option<PaymentDetails>, totals: Option<Totals>, year: nat, nowMs: int)
      returns (r: Response)
      requires Valid()
      modifies this
      ensures Valid()
      ensures var check := CheckRequest(userId, cartItems, customer, payment, totals, old(products));
        if check.Some? then
          && r == Rejected(check.value)
          && products == old(products) && orders == old(orders) && items == old(items) && nextId == old(nextId)
        else
          && r == Created(old(nextId), FormatOrderNumber(year, old(nextId)), nowMs, totals.value.total)
          && orders == old(orders) + [PlacedOrder(old(nextId), userId.value, totals.value, customer.value, payment.value, year, nowMs)]
          && items == old(items) + ItemsFor(old(nextId), cartItems.value)
          && products == ApplyCart(old(products), cartItems.value)
          && nextId == old(nextId) + 1
    {
      if !HasUser(userId) {
        return Rejected(Unauthenticated);
      }
      if cartItems.None? || |cartItems.value| == 0 {
        return Rejected(CartEmpty);
      }
      if customer.None? || payment.None? || totals.None? {
        return Rejected(MissingOrderInformation);
      }
      var cart := cartItems.value;
      // stock check against the stock before the order, first failure wins
      var i := 0;
      while i < |cart|
        invariant 0 <= i <= |cart|
        invariant FirstFailingLine(products, cart) == FirstFailingLine(products, cart[i..])
      {
        var item := cart[i];
        assert cart[i..][1..] == cart[i + 1..];
        if item.id !in products {
          return Rejected(ProductNotFound(item.name));
        }
        if products[item.id].stock < item.quantity {
          return Rejected(InsufficientStock(item.name, products[item.id].stock, item.quantity));
        }
        i := i + 1;
      }
      r := Commit(cart, userId.value, customer.value, payment.value, totals.value, year, nowMs);
    }

    /**
     * The same transaction with the corrected stock check: each line must fit in the stock left
     * by the earlier lines of the same cart, so a committed order never overdraws.
     */
    method CreateOrderGuarded(
      userId: Option<int>, cartItems: Option<seq<CartItem>>, customer: Option<CustomerDetails>,
      payment: Option<PaymentDetails>, totals: Option<Totals>, year: nat, nowMs: int)
      returns (r: Response)
      requires Valid() && StockNonNegative(products)
      modifies this
      ensures Valid() && StockNonNegative(products)
      ensures r.Rejected? ==>
        products == old(products) && orders == old(orders) && items == old(items) && nextId == old(nextId)
      ensures r.Created? ==>
        && HasUser(userId) && cartItems.Some? && cartItems.value != [] && customer.Some? && payment.Some? && totals.Some?
        && FirstOverdraw(old(products), cartItems.value, 0) == None
        && r == Created(old(nextId), FormatOrderNumber(year, old(nextId)), nowMs, totals.value.total)
        && orders == old(orders) + [PlacedOrder(old(nextId), userId.value, totals.value, customer.value, payment.value, year, nowMs)]
        && items == old(items) + ItemsFor(old(nextId), cartItems.value)
        && products == ApplyCart(old(products), cartItems.value)
      ensures var check := CheckRequestGuarded(userId, cartItems, customer, payment, totals, old(products));
        (r.Rejected? <==> check.Some?) && (r.Rejected? ==> r.failure == check.value)
      ensures cartItems.Some? && DistinctIds(cartItems.value) ==>
        var check := CheckRequest(userId, cartItems, customer, payment, totals, old(products));
        (r.Rejected? <==> check.Some?) && (r.Rejected? ==> r.failure == check.value)
    {
      if !HasUser(userId) {
        return Rejected(Unauthenticated);
      }
      if cartItems.None? || |cartItems.value| == 0 {
        return Rejected(CartEmpty);
      }
      if customer.None? || payment.None? || totals.None? {
        return Rejected(MissingOrderInformation);
      }
      var cart := cartItems.value;
      if DistinctIds(cart) {
        GuardedAgreesOnDistinct(products, cart, 0);
      }
      var i := 0;
      while i < |cart|
        invariant 0 <= i <= |cart|
        invariant FirstOverdraw(products, cart, 0) == FirstOverdraw(products, cart, i)
      {
        var item := cart[i];
        if item.id !in products {
          return Rejected(ProductNotFound(item.name));
        }
        var left := products[item.id].stock - QuantityFor(cart[..i], item.id);
        if left < item.quantity {
          return Rejected(InsufficientStock(item.name, left, item.quantity));
        }
        i := i + 1;
      }
      GuardedCheckKeepsStock(products, cart);
      r := Commit(cart, userId.value, customer.value, payment.value, totals.value, year, nowMs);
    }

    /**
     * The writes of a committed order: the order row, its final number, the items and the
     * stock updates.  The rows are staged and become visible together, as at commit.
     */
    method Commit(
      cart: seq<CartItem>, user: int, customer: CustomerDetails, payment: PaymentDetails,
      totals: Totals, year: nat, nowMs: int)
      returns (r: Response)
      requires Valid()
      modifies this
      ensures Valid()
      ensures r == Created(old(nextId), FormatOrderNumber(year, old(nextId)), nowMs, totals.total)
      ensures orders == old(orders) + [PlacedOrder(old(nextId), user, totals, customer, payment, year, nowMs)]
      ensures items == old(items) + ItemsFor(old(nextId), cart)
      ensures products == ApplyCart(old(products), cart)
      ensures nextId == old(nextId) + 1
    {
      var id := nextId;
      // the row is first inserted with a placeholder number, then renumbered once its id is known
      var order := DraftOrder(id, user, totals, customer, payment, year, nowMs);
      var finalNumber := FormatOrderNumber(year, id);
      var placed := PlacedOrder(id, user, totals, customer, payment, year, nowMs);
      var newOrders := RenumberLast(orders, order, placed);
      var newItems, newProducts := StageLines(cart, id, items, products);
      CommitKeepsTablesValid(orders, items, nextId, placed, cart);
      orders, items, products, nextId := newOrders, newItems, newProducts, nextId + 1;
      return Created(id, finalNumber, nowMs, totals.total);
    }

  }
}
