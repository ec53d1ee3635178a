/**
 * The checkout of the shopping-cart page: the totals rule, the required-field checks of
 * the details and payment steps, the order request sent to the backend, and the step
 * machine of the checkout dialog.  The cart total itself comes from the cart store and
 * the backend's answer is an input.
 */
module ShoppingCart {
  import opened Wrappers
  import opened Strings
  import OrderController

  type CartItem = OrderController.CartItem


  /** The amounts shown in the summary and sent with the order. */
  function CartTotals(subtotal: real): (t: OrderController.Totals)
    ensures t.subtotal == subtotal
    ensures t.shipping.Some? && t.tax.Some?
    ensures t.shipping.value == 0.0 <==> subtotal > 100.0
    ensures subtotal <= 100.0 ==> t.shipping.value == 9.99
    ensures t.tax.value == 0.08 * subtotal
    ensures t.total == subtotal + t.shipping.value + t.tax.value
  {
    var shipping := if subtotal > 100.0 then 0.0 else 9.99;
    var tax := subtotal * 0.08;
    OrderController.Totals(subtotal, Some(shipping), Some(tax), subtotal + shipping + tax)
  }

  /** On either side of the free-shipping threshold, a larger cart costs more. */
  lemma TotalMonotoneBesideThreshold(a: real, b: real)
    requires a <= b
    requires b <= 100.0 || a > 100.0
    ensures CartTotals(a).total <= CartTotals(b).total
  {
  }

  /** Across the threshold it does not: a cart of 100.00 costs more than one of 100.01. */
  lemma TotalDropsAtThreshold()
    ensures CartTotals(100.0).total > CartTotals(100.01).total
  {
  }

  /** The customer form, field for field the backend's customer record. */
  type CustomerForm = OrderController.CustomerDetails

  datatype PaymentForm = PaymentForm(accountNumber: string, accountHolderName: string, accountType: string, bankName: string)

  const BlankCustomer := OrderController.CustomerDetails("", "", "", "", "")
  const BlankPayment := PaymentForm("", "", "checking", "")

  /** `proceedToPayment`'s check: none of the five customer fields is blank. */
  predicate CustomerComplete(c: CustomerForm) {
    && !IsBlank(c.firstName) && !IsBlank(c.lastName) && !IsBlank(c.email)
    && !IsBlank(c.phone) && !IsBlank(c.address)
  }

  /** `handlePayment`'s check: account number, holder and bank are not blank; the account type is not checked. */
  predicate PaymentComplete(p: PaymentForm) {
    !IsBlank(p.accountNumber) && !IsBlank(p.accountHolderName) && !IsBlank(p.bankName)
  }

  /** The customer check is the page's test that every field is non-empty after `trim()`. */
  lemma CustomerCompleteIffTrimmed(c: CustomerForm)
    ensures CustomerComplete(c) <==>
      && Trim(c.firstName) != "" && Trim(c.lastName) != "" && Trim(c.email) != ""
      && Trim(c.phone) != "" && Trim(c.address) != ""
  {
    TrimEmptyIffBlank(c.firstName);
    TrimEmptyIffBlank(c.lastName);
    TrimEmptyIffBlank(c.email);
    TrimEmptyIffBlank(c.phone);
    TrimEmptyIffBlank(c.address);
  }

  /** The payment check is the page's test that the three fields are non-empty after `trim()`. */
  lemma PaymentCompleteIffTrimmed(p: PaymentForm)
    ensures PaymentComplete(p) <==>
      Trim(p.accountNumber) != "" && Trim(p.accountHolderName) != "" && Trim(p.bankName) != ""
  {
    TrimEmptyIffBlank(p.accountNumber);
    TrimEmptyIffBlank(p.accountHolderName);
    TrimEmptyIffBlank(p.bankName);
  }

  /** The text stored as the payment method: the type, then the last four characters of the number. */
  function PaymentMethodText(accountType: string, accountNumber: string): (text: string)
    ensures |text| == |accountType| + 19 + (if |accountNumber| < 4 then |accountNumber| else 4)
    ensures text[..|accountType| + 19] == accountType + " account ending in "
    ensures |accountNumber| <= 4 ==> text[|accountType| + 19..] == accountNumber
    ensures text[|accountType| + 19..] == accountNumber[|accountNumber| - (|text| - |accountType| - 19)..]
  {
    var tail := LastN(accountNumber, 4);
    var prefix := accountType + " account ending in ";
    assert |prefix| == |accountType| + 19;
    assert (prefix + tail)[..|prefix|] == prefix;
    assert (prefix + tail)[|prefix|..] == tail;
    prefix + tail
  }

  /** The body posted to the order endpoint. */
  datatype OrderRequest = OrderRequest(
    cartItems: seq<CartItem>,
    customerDetails: OrderController.CustomerDetails,
    paymentDetails: OrderController.PaymentDetails,
    totals: OrderController.Totals)

  function BuildRequest(cart: seq<CartItem>, customer: CustomerForm, payment: PaymentForm, subtotal: real): (r: OrderRequest)
    ensures r.cartItems == cart && r.customerDetails == customer && r.totals == CartTotals(subtotal)
    ensures r.paymentDetails.paymentMethod == PaymentMethodText(payment.accountType, payment.accountNumber)
    ensures r.paymentDetails.accountType == payment.accountType && r.paymentDetails.bankName == payment.bankName
  {
    OrderRequest(cart, customer,
                 OrderController.PaymentDetails(PaymentMethodText(payment.accountType, payment.accountNumber),
                                                payment.accountType, payment.bankName),
                 CartTotals(subtotal))
  }

  /**
   * A request built by the page always carries customer, payment and totals, so for a signed-in
   * user the backend's verdict is either "cart is empty" or its stock check.
   */
  lemma RequestPassesPresenceChecks(
    req: OrderRequest, userId: int, products: map<int, OrderController.Product>)
    requires userId != 0
    ensures var verdict := OrderController.CheckRequest(
              Some(userId), Some(req.cartItems), Some(req.customerDetails),
              Some(req.paymentDetails), Some(req.totals), products);
      && (req.cartItems == [] <==> verdict == Some(OrderController.CartEmpty))
      && verdict != Some(OrderController.Unauthenticated)
      && verdict != Some(OrderController.MissingOrderInformation)
      && (req.cartItems != [] ==> verdict == OrderController.FirstFailingLine(products, req.cartItems))
  {
    var verdict := OrderController.CheckRequest(
      Some(userId), Some(req.cartItems), Some(req.customerDetails),
      Some(req.paymentDetails), Some(req.totals), products);
    if req.cartItems != [] {
      NoLineFailureIsCartEmpty(products, req.cartItems);
    }
  }

  /** The stock check only ever reports a missing product or short stock. */
  lemma {:induction false} NoLineFailureIsCartEmpty(products: map<int, OrderController.Product>, cart: seq<CartItem>)
    ensures var f := OrderController.FirstFailingLine(products, cart);
      f.None? || f.value.ProductNotFound? || f.value.InsufficientStock?
  {
    if cart != [] {
      NoLineFailureIsCartEmpty(products, cart[1..]);
    }
  }

  /** What the order endpoint answered: an order, a refusal with a message (maybe ""), or a thrown error. */
  datatype ApiResponse =
    | OrderCreated(orderNumber: string, orderId: int, total: real)
    | Refused(message: string)
    | RequestFailed(message: string)

  /** The confirmation shown after a placed order. */
  datatype OrderInfo = OrderInfo(orderNumber: string, orderId: int, total: real)

  datatype Step = Review | Details | Payment | Processing | Success

  /** The alert shown when the order could not be placed. */
  function FailureAlert(r: ApiResponse): (text: string)
    requires !r.OrderCreated?
    ensures StartsWith(text, "Payment processing failed: ") && |text| >= 46
    ensures text[|text| - 19..] == ". Please try again."
    ensures text[27..|text| - 19] == (if r.Refused? && r.message == "" then "Failed to create order" else r.message)
    ensures r.Refused? ==> |text| > 46
  {
    var reason := if r.Refused? && r.message == "" then "Failed to create order" else r.message;
    "Payment processing failed: " + reason + ". Please try again."
  }

  /** The state of the cart page's checkout dialog. */
  class Checkout {
    var cart: seq<CartItem>
    var showModal: bool
    var step: Step
    var isProcessing: bool
    var orderInfo: Option<OrderInfo>
    var customer: CustomerForm
    var payment: PaymentForm

    constructor (items: seq<CartItem>)
      ensures cart == items && !showModal && step == Review && !isProcessing && orderInfo == None
      ensures customer == BlankCustomer && payment == BlankPayment
    {
      cart, showModal, step, isProcessing, orderInfo := items, false, Review, false, None;
      customer, payment := BlankCustomer, BlankPayment;
    }

    /** `handleCheckout`: opens the dialog on the review step. */
    method HandleCheckout()
      modifies this`showModal, this`step
      ensures showModal && step == Review
    {
      showModal := true;
      step := Review;
    }

    /** `proceedToDetails`. */
    method ProceedToDetails()
      modifies this`step
      ensures step == Details
    {
      step := Details;
    }

    /** `proceedToPayment`: moves to the payment step only with every customer field filled in. */
    method ProceedToPayment() returns (alert: Option<string>)
      modifies this`step
      ensures alert.None? <==> CustomerComplete(customer)
      ensures alert.Some? ==> alert.value == "Please fill in all required fields" && step == old(step)
      ensures alert.None? ==> step == Payment
    {
      if !CustomerComplete(customer) {
        return Some("Please fill in all required fields");
      }
      step := Payment;
      return None;
    }

    /**
     * The first half of `handlePayment`, up to the call to the backend: with the payment
     * fields filled in it enters the processing step and yields the request to send.
     */
    method HandlePayment(subtotal: real) returns (request: Option<OrderRequest>, alert: Option<string>)
      modifies this`step, this`isProcessing
      ensures request.Some? <==> PaymentComplete(payment)
      ensures request.None? ==>
        alert == Some("Please fill in all payment information") && step == old(step) && isProcessing == old(isProcessing)
      ensures request.Some? ==>
        alert.None? && request.value == BuildRequest(cart, customer, payment, subtotal) && step == Processing && isProcessing
    {
      if !PaymentComplete(payment) {
        return None, Some("Please fill in all payment information");
      }
      step := Processing;
      isProcessing := true;
      return Some(BuildRequest(cart, customer, payment, subtotal)), None;
    }

    /** The second half of `handlePayment`: the backend's answer decides between success and a return to payment. */
    method FinishPayment(response: ApiResponse) returns (alert: Option<string>)
      modifies this`step, this`isProcessing, this`orderInfo
      ensures !isProcessing
      ensures response.OrderCreated? ==>
        && alert.None? && step == Success
        && orderInfo == Some(OrderInfo(response.orderNumber, response.orderId, response.total))
      ensures !response.OrderCreated? ==>
        alert == Some(FailureAlert(response)) && step == Payment && orderInfo == old(orderInfo)
    {
      if response.OrderCreated? {
        step := Success;
        isProcessing := false;
        orderInfo := Some(OrderInfo(response.orderNumber, response.orderId, response.total));
        return None;
      }
      alert := Some(FailureAlert(response));
      step := Payment;
      isProcessing := false;
    }

    /** `handleOrderComplete`: empties the cart and closes the dialog. */
    method HandleOrderComplete()
      modifies this`cart, this`showModal, this`step, this`orderInfo
      ensures cart == [] && !showModal && step == Review && orderInfo == None
    {
      cart := [];
      showModal := false;
      step := Review;
      orderInfo := None;
    }

    /** `closeModal`: closes the dialog and forgets the order, keeping the cart. */
    method CloseModal()
      modifies this`showModal, this`step, this`orderInfo
      ensures !showModal && step == Review && orderInfo == None
    {
      showModal := false;
      step := Review;
      orderInfo := None;
    }

    /** `goBack`: one step back from details or payment; elsewhere nothing happens. */
    method GoBack()
      modifies this`step
      ensures old(step) == Details ==> step == Review
      ensures old(step) == Payment ==> step == Details
      ensures old(step) != Details && old(step) != Payment ==> step == old(step)
    {
      if step == Details {
        step := Review;
      } else if step == Payment {
        step := Details;
      }
    }
  }
}
