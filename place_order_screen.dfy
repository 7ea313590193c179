/** The place-order page: the four order totals it writes onto the cart and the request it
    sends once the payment has gone through. */
module PlaceOrderScreen {
  import opened Js
  import opened Money
  import opened CartReducer
  import opened CartScreen
  import opened OrderModel
  import opened OrderController

  datatype OrderTotals = OrderTotals(itemsPrice: string, shippingPrice: string, taxPrice: string, totalPrice: string)

  lemma ZeroPriceText()
    ensures AddDecimals(0) == "0.00" && ParseAmount("0.00") == Some(0)
  {
    ParseAddDecimals(0);
  }

  /** The items price is the cart subtotal, summed first and rounded once; shipping and tax
      are both "0.00"; the total is the three read back, added and printed again, which is
      the items price. */
  function Totals(items: seq<CartItem>): (t: OrderTotals)
    ensures ParseAmount(t.itemsPrice) == Some(Subtotal(items))
    ensures t.shippingPrice == "0.00" && t.taxPrice == "0.00"
    ensures t.totalPrice == t.itemsPrice
  {
    var itemsPrice := AddDecimals(Subtotal(items));
    var shippingPrice := AddDecimals(0);
    var taxPrice := AddDecimals(0);
    ParseAddDecimals(Subtotal(items));
    ZeroPriceText();
    var sum := ParseAmount(itemsPrice).value + ParseAmount(shippingPrice).value + ParseAmount(taxPrice).value;
    assert sum == Subtotal(items);
    OrderTotals(itemsPrice, shippingPrice, taxPrice, AddDecimals(sum))
  }

  /** The cart as the page sees it: the state plus the four price fields the page assigns. */
  class CheckoutCart {
    const state: CartState
    var itemsPrice: Option<string>
    var shippingPrice: Option<string>
    var taxPrice: Option<string>
    var totalPrice: Option<string>

    constructor(s: CartState)
      ensures state == s
      ensures itemsPrice.None? && shippingPrice.None? && taxPrice.None? && totalPrice.None?
    {
      state := s;
      itemsPrice, shippingPrice, taxPrice, totalPrice := None, None, None, None;
    }

    /** The four assignments the page makes on every render. */
    method AssignTotals()
      modifies this
      ensures var t := Totals(state.cartItems);
        itemsPrice == Some(t.itemsPrice) && shippingPrice == Some(t.shippingPrice)
        && taxPrice == Some(t.taxPrice) && totalPrice == Some(t.totalPrice)
    {
      var t := Totals(state.cartItems);
      itemsPrice := Some(t.itemsPrice);
      shippingPrice := Some(t.shippingPrice);
      taxPrice := Some(t.taxPrice);
      totalPrice := Some(t.totalPrice);
    }

    /** `successPaymentHandler(paymentResult)`: the cart lines, address and payment method,
        the four totals as assigned, and the provider's result. */
    function OrderRequestFor(paymentResult: PayPalResult): (req: OrderRequest)
      reads this
      ensures req.orderItems == Some(state.cartItems) && req.shippingAddress == state.shippingAddress
      ensures req.paymentMethod == state.paymentMethod && req.paymentResult == Some(paymentResult)
      ensures req.itemsPrice == itemsPrice && req.shippingPrice == shippingPrice
      ensures req.taxPrice == taxPrice && req.totalPrice == totalPrice
    {
      OrderRequest(Some(state.cartItems), state.shippingAddress, state.paymentMethod,
                   itemsPrice, shippingPrice, taxPrice, totalPrice, Some(paymentResult))
    }
  }

  /** The request of the page for a cart whose totals are assigned. */
  function CheckoutRequest(s: CartState, paymentResult: PayPalResult): (req: OrderRequest)
  {
    var t := Totals(s.cartItems);
    OrderRequest(Some(s.cartItems), s.shippingAddress, s.paymentMethod,
                 Some(t.itemsPrice), Some(t.shippingPrice), Some(t.taxPrice), Some(t.totalPrice), Some(paymentResult))
  }

  /** From cart to stored order: the order's items price and total both equal the cart
      subtotal in pence, its shipping and tax are 0, and it is marked paid. An empty cart is
      rejected. */
  lemma CheckoutStoresSubtotal(s: CartState, pr: PayPalResult, id: string, user: string, now: int)
    requires pr.payer.Some?
    ensures var r := BuildOrder(CheckoutRequest(s, pr), id, user, now);
      (s.cartItems == [] <==> r == Rejected(NoOrderItems))
      && (r.Created? ==> r.order.itemsPrice == Subtotal(s.cartItems) && r.order.totalPrice == Subtotal(s.cartItems)
                         && r.order.shippingPrice == 0 && r.order.taxPrice == 0 && r.order.isPaid)
  {
    ZeroPriceText();
  }

  /** The page's method and the request function agree once the totals are assigned. */
  method PlaceOrder(cart: CheckoutCart, pr: PayPalResult) returns (req: OrderRequest)
    modifies cart
    ensures req == CheckoutRequest(cart.state, pr)
  {
    cart.AssignTotals();
    req := cart.OrderRequestFor(pr);
  }
}
