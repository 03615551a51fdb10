/**
 * The checkout page's step machine: 'address' until an order and its payment
 * intent are both created, then 'payment', then 'success' once the payment
 * form reports success. The two API calls are given as their outcomes; the
 * order request the page sends is the backend's `OrderInput`.
 */
module CheckoutPage {
  import opened Wrappers
  import opened Schema
  import Text
  import Pricing
  import CartContext
  import OrderRoutes
  import ApiClient

  datatype Step = AddressStep | PaymentStep | SuccessStep

  /**
   * An awaited API call: it resolves with a value or rejects. A rejection
   * carries the message of the Error thrown, or None for a thrown value that
   * is not an Error.
   */
  datatype Call<T> = Resolved(value: T) | Rejected(message: Option<string>)

  const ADDRESS_REQUIRED := "Please enter a shipping address"
  const ORDER_FAILED := "Failed to create order"
  const LOGIN_PATH := "/auth/login?redirect=/checkout"
  const CART_PATH := "/cart"

  /** `err instanceof Error ? err.message : 'Failed to create order'`. */
  function ErrorText(message: Option<string>): (r: string)
    ensures message.Some? ==> r == message.value
    ensures message.None? ==> r == ORDER_FAILED
    ensures r == "" <==> message == Some("")
  {
    message.GetOr(ORDER_FAILED)
  }

  /** A request the api client refuses always leaves a non-empty error on the page. */
  lemma RefusalExplained(dataError: Option<string>)
    ensures ErrorText(ApiClient.ThrownMessage(false, dataError)) != ""
  {
    ApiClient.ThrownMessageNotEmpty(dataError);
  }

  /** The order request's lines: one (product id, quantity) pair per cart line, in cart order. */
  function OrderLines(items: seq<CartContext.CartLine>): (r: seq<OrderRoutes.LineInput>)
    ensures |r| == |items|
    ensures forall i :: 0 <= i < |items| ==>
              r[i] == OrderRoutes.LineInput(items[i].product.id, items[i].quantity)
  {
    if items == [] then []
    else OrderLines(items[..|items| - 1])
           + [OrderRoutes.LineInput(items[|items| - 1].product.id, items[|items| - 1].quantity)]
  }

  /** The body of `ordersApi.create(lines, shippingAddress)`; the address is sent as typed, untrimmed. */
  function OrderRequest(items: seq<CartContext.CartLine>, address: string): OrderRoutes.OrderInput
  {
    OrderRoutes.OrderInput(OrderLines(items), Some(address))
  }

  /** The backend accepts the page's request exactly when the cart has a line and every quantity is at least 1. */
  lemma OrderRequestAccepted(items: seq<CartContext.CartLine>, address: string)
    ensures OrderRoutes.ValidOrderInput(OrderRequest(items, address)) <==>
              |items| >= 1 && forall i :: 0 <= i < |items| ==> items[i].quantity >= 1
  {
    var lines := OrderLines(items);
    assert forall i :: 0 <= i < |items| ==> lines[i].quantity == items[i].quantity;
  }

  /** The storefront's copy of a product agrees with the backend row: same price and same discount once parsed. */
  ghost predicate Agrees(p: CartContext.ShopProduct, products: map<Id, Product>, parse: string -> real)
  {
    && p.id in products
    && products[p.id].price == parse(p.price)
    && products[p.id].discountPercent == (if Truthy(p.discountPercent) then Some(parse(p.discountPercent.value)) else None)
  }

  /** One agreeing line costs on the page what the backend charges for it. */
  lemma LineAmountMatchesServer(line: CartContext.CartLine, products: map<Id, Product>, parse: string -> real)
    requires Agrees(line.product, products, parse)
    ensures CartContext.LineAmount(line, parse) == OrderRoutes.FinalPrice(products[line.product.id]) * line.quantity as real
  {
    var p := products[line.product.id];
    Pricing.ClientPriceIsDiscountedPrice(line.product.price, line.product.discountPercent, parse);
    OrderRoutes.FinalPriceIsDiscountedPrice(p);
    if !Truthy(line.product.discountPercent) {
      Pricing.NoDiscountKeepsPrice(p.price);
    }
  }

  /** The page's subtotal and the backend's each grow by the last line's amount. */
  lemma SubtotalStep(items: seq<CartContext.CartLine>, products: map<Id, Product>, parse: string -> real)
    requires items != [] && OrderRoutes.AllKnown(OrderLines(items), products)
    ensures OrderRoutes.AllKnown(OrderLines(items[..|items| - 1]), products)
    ensures CartContext.Subtotal(items, parse) ==
              CartContext.Subtotal(items[..|items| - 1], parse) + CartContext.LineAmount(items[|items| - 1], parse)
    ensures OrderRoutes.RawSubtotal(OrderLines(items), products) ==
              OrderRoutes.RawSubtotal(OrderLines(items[..|items| - 1]), products)
              + OrderRoutes.FinalPrice(products[items[|items| - 1].product.id]) * items[|items| - 1].quantity as real
  {
    var lines := OrderLines(items);
    assert lines[..|lines| - 1] == OrderLines(items[..|items| - 1]);
  }

  /**
   * When every cart line's product agrees with the backend, the subtotal the
   * page shows is the unrounded subtotal the backend computes for the request.
   */
  lemma {:induction false} CartSubtotalMatchesServer(items: seq<CartContext.CartLine>, products: map<Id, Product>,
                                                     parse: string -> real)
    requires forall i :: 0 <= i < |items| ==> Agrees(items[i].product, products, parse)
    ensures OrderRoutes.AllKnown(OrderLines(items), products)
    ensures CartContext.Subtotal(items, parse) == OrderRoutes.RawSubtotal(OrderLines(items), products)
  {
    var lines := OrderLines(items);
    assert forall i :: 0 <= i < |items| ==> lines[i].productId == items[i].product.id;
    if items != [] {
      var init := items[..|items| - 1];
      assert forall i :: 0 <= i < |init| ==> init[i] == items[i];
      CartSubtotalMatchesServer(init, products, parse);
      SubtotalStep(items, products, parse);
      LineAmountMatchesServer(items[|items| - 1], products, parse);
    }
  }

  /** The first redirect guard: a visitor who is not signed in is sent to the login page. */
  function LoginRedirect(authLoading: bool, isAuthenticated: bool): (r: Option<string>)
    ensures r.Some? <==> !authLoading && !isAuthenticated
    ensures r.Some? ==> r.value == LOGIN_PATH
  {
    if !authLoading && !isAuthenticated then Some(LOGIN_PATH) else None
  }

  /** The second redirect guard: an empty cart outside the success step is sent back to the cart. */
  function CartRedirect(lineCount: nat, step: Step): (r: Option<string>)
    ensures r.Some? <==> lineCount == 0 && step != SuccessStep
    ensures r.Some? ==> r.value == CART_PATH
  {
    if lineCount == 0 && step != SuccessStep then Some(CART_PATH) else None
  }

  /** The fields of the page state that handleCreateOrder may change. */
  datatype PageState = PageState(
    step: Step,
    order: Option<OrderRoutes.OrderView>,
    clientSecret: string,
    loading: bool,
    error: string)

  /** The address is blank: every character is one that `trim()` removes. */
  predicate Blank(address: string)
  {
    forall i :: 0 <= i < |address| ==> Text.IsTrimmable(address[i])
  }

  /** `!address.trim()`: the test the handler makes, which is blankness. */
  method TrimsToEmpty(address: string) returns (b: bool)
    ensures b == Blank(address)
  {
    b := Text.Trim(address) == "";
    Text.TrimEmptyIffBlank(address);
  }

  /**
   * The state handleCreateOrder leaves: a blank address only sets the error;
   * otherwise the order call's failure sets the error, its success records the
   * order, and then the intent call's failure sets the error while its success
   * records the secret and moves to 'payment'; loading ends false.
   */
  function AfterCreateOrder(s: PageState, address: string, placeOrder: Call<OrderRoutes.OrderView>,
                            createIntent: Call<string>): PageState
  {
    if Blank(address) then s.(error := ADDRESS_REQUIRED)
    else if placeOrder.Rejected? then s.(loading := false, error := ErrorText(placeOrder.message))
    else if createIntent.Rejected? then
      s.(order := Some(placeOrder.value), loading := false, error := ErrorText(createIntent.message))
    else
      s.(order := Some(placeOrder.value), clientSecret := createIntent.value, step := PaymentStep,
         loading := false, error := "")
  }

  /** A blank address sets the error, leaves every other field as it was, and sends nothing. */
  lemma BlankAddressSendsNothing(s: PageState, address: string, items: seq<CartContext.CartLine>,
                                 placeOrder: Call<OrderRoutes.OrderView>, createIntent: Call<string>)
    requires Blank(address)
    ensures AfterCreateOrder(s, address, placeOrder, createIntent) == s.(error := ADDRESS_REQUIRED)
    ensures SentOrder(items, address).None? && SentIntent(address, placeOrder).None?
  {
  }

  /** The step becomes 'payment' only when the address is not blank and both calls succeed. */
  lemma PaymentOnlyAfterBothCalls(s: PageState, address: string, placeOrder: Call<OrderRoutes.OrderView>,
                                  createIntent: Call<string>)
    requires s.step == AddressStep
    ensures AfterCreateOrder(s, address, placeOrder, createIntent).step == PaymentStep <==>
              !Blank(address) && placeOrder.Resolved? && createIntent.Resolved?
    ensures AfterCreateOrder(s, address, placeOrder, createIntent).step != PaymentStep ==>
              AfterCreateOrder(s, address, placeOrder, createIntent).step == AddressStep
  {
  }

  /**
   * Any failure leaves the step and the secret; a blank address shows its own
   * message, and once the calls were made loading ends false.
   */
  lemma FailureKeepsStep(s: PageState, address: string, placeOrder: Call<OrderRoutes.OrderView>,
                         createIntent: Call<string>)
    requires Blank(address) || placeOrder.Rejected? || createIntent.Rejected?
    ensures var r := AfterCreateOrder(s, address, placeOrder, createIntent);
            r.step == s.step && r.clientSecret == s.clientSecret
    ensures Blank(address) ==> AfterCreateOrder(s, address, placeOrder, createIntent).error == ADDRESS_REQUIRED
    ensures !Blank(address) ==> !AfterCreateOrder(s, address, placeOrder, createIntent).loading
  {
  }

  /** The order request sent: the cart's lines and the address as typed, unless the address is blank. */
  function SentOrder(items: seq<CartContext.CartLine>, address: string): Option<OrderRoutes.OrderInput>
  {
    if Blank(address) then None else Some(OrderRequest(items, address))
  }

  /** The order the intent is requested for: the created one. */
  function SentIntent(address: string, placeOrder: Call<OrderRoutes.OrderView>): Option<Id>
  {
    if Blank(address) || placeOrder.Rejected? then None else Some(placeOrder.value.id)
  }

  /** The page state. */
  class Checkout {
    var step: Step
    var shippingAddress: string
    var order: Option<OrderRoutes.OrderView>
    var clientSecret: string
    var loading: bool
    var error: string

    function State(): PageState
      reads this
    {
      PageState(step, order, clientSecret, loading, error)
    }

    constructor ()
      ensures State() == PageState(AddressStep, None, "", false, "") && shippingAddress == ""
    {
      step := AddressStep;
      shippingAddress := "";
      order := None;
      clientSecret := "";
      loading := false;
      error := "";
    }

    /** The address field's change handler. */
    method SetShippingAddress(text: string)
      modifies this`shippingAddress
      ensures shippingAddress == text
    {
      shippingAddress := text;
    }

    /**
     * handleCreateOrder, given the outcomes of the order call and of the
     * intent call. Returns the order request sent and the order id the intent
     * was requested for.
     */
    method HandleCreateOrder(items: seq<CartContext.CartLine>, placeOrder: Call<OrderRoutes.OrderView>, createIntent: Call<string>)
      returns (sentOrder: Option<OrderRoutes.OrderInput>, sentIntent: Option<Id>)
      modifies this`step, this`order, this`clientSecret, this`loading, this`error
      ensures State() == AfterCreateOrder(old(State()), shippingAddress, placeOrder, createIntent)
      ensures sentOrder == SentOrder(items, shippingAddress)
      ensures sentIntent == SentIntent(shippingAddress, placeOrder)
    {
      var blank := TrimsToEmpty(shippingAddress);
      if blank {
        error := ADDRESS_REQUIRED;
        return None, None;
      }
      loading := true;
      error := "";
      sentOrder := Some(OrderRequest(items, shippingAddress));
      if placeOrder.Rejected? {
        error := ErrorText(placeOrder.message);
        loading := false;
        return sentOrder, None;
      }
      order := Some(placeOrder.value);
      sentIntent := Some(placeOrder.value.id);
      if createIntent.Rejected? {
        error := ErrorText(createIntent.message);
        loading := false;
        return;
      }
      clientSecret := createIntent.value;
      step := PaymentStep;
      loading := false;
    }

    /** handlePaymentSuccess: the cart is emptied and the page shows success, which the cart guard does not redirect. */
    method HandlePaymentSuccess(cart: CartContext.GuestCart)
      modifies this`step, cart
      ensures cart.items == [] && step == SuccessStep
      ensures CartRedirect(|cart.items|, step).None?
    {
      cart.ClearCart();
      step := SuccessStep;
    }
  }
}
