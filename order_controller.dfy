/** The order API: creating an order from a checkout request, reading orders back and
    marking an order dispatched. */
module OrderController {
  import opened Js
  import opened Http
  import opened Money
  import opened CartReducer
  import opened OrderModel

  datatype Payer = Payer(email_address: Option<string>)

  /** What the payment provider reports about a completed payment. */
  datatype PayPalResult = PayPalResult(id: Option<string>, status: Option<string>, update_time: Option<string>, payer: Option<Payer>)

  /** The body of a create-order request; the four prices arrive as texts. */
  datatype OrderRequest = OrderRequest(
    orderItems: Option<seq<CartItem>>, shippingAddress: Address, paymentMethod: Option<string>,
    itemsPrice: Option<string>, shippingPrice: Option<string>, taxPrice: Option<string>, totalPrice: Option<string>,
    paymentResult: Option<PayPalResult>)

  /** The result of handling a create-order request: the stored order, the 400 rejection,
      a failure reading a field of an absent payment record, or a record that the schema's
      validation refuses. */
  datatype Outcome = Created(order: Order) | Rejected(error: HttpError) | Crashed | Invalid

  const NoOrderItems := HttpError(400, "No order items")

  /** A Number field given as text: absent means the default 0; unreadable text fails. */
  function CastPrice(s: Option<string>): (r: Option<Pence>)
    ensures s.None? ==> r == Some(0)
    ensures s.Some? ==> r == ParseAmount(s.value)
  {
    if s.None? then Some(0) else ParseAmount(s.value)
  }

  /** The payment record as stored: the object handed to the schema names its time
      `update_time`, a field the schema does not have, so the time is dropped. */
  function StoredPaymentResult(pr: PayPalResult): (r: PaymentResult)
    requires pr.payer.Some?
    ensures r.id == pr.id && r.status == pr.status && r.email_address == pr.payer.value.email_address
    ensures r.supdate_time.None?
  {
    PaymentResult(pr.id, pr.status, None, pr.payer.value.email_address)
  }

  /** The payment record as evidently intended: the provider's update time is kept. */
  function IntendedPaymentResult(pr: PayPalResult): (r: PaymentResult)
    requires pr.payer.Some?
    ensures r.id == pr.id && r.status == pr.status && r.email_address == pr.payer.value.email_address
    ensures r.supdate_time == pr.update_time
  {
    PaymentResult(pr.id, pr.status, pr.update_time, pr.payer.value.email_address)
  }

  /** A payment that reports its update time still has it stored nowhere. */
  lemma UpdateTimeLost(pr: PayPalResult)
    requires pr.payer.Some? && pr.update_time.Some?
    ensures StoredPaymentResult(pr).supdate_time != pr.update_time
    ensures IntendedPaymentResult(pr).supdate_time == pr.update_time
  {
  }

  predicate ItemsValid(items: seq<CartItem>)
  {
    forall i :: 0 <= i < |items| ==> CastOrderItem(items[i]).Some?
  }

  function CastOrderItems(items: seq<CartItem>): (r: seq<OrderItem>)
    requires ItemsValid(items)
    ensures |r| == |items| && forall i :: 0 <= i < |items| ==> Some(r[i]) == CastOrderItem(items[i])
  {
    seq(|items|, i requires 0 <= i < |items| && ItemsValid(items) => CastOrderItem(items[i]).value)
  }

  /** Every check the schema makes when the order is saved. */
  predicate Storable(req: OrderRequest)
  {
    ItemsValid(OrArray(req.orderItems, [])) && CastAddress(req.shippingAddress).Some? && req.paymentMethod.Some?
    && CastPrice(req.itemsPrice).Some? && CastPrice(req.shippingPrice).Some?
    && CastPrice(req.taxPrice).Some? && CastPrice(req.totalPrice).Some?
  }

  /** `createOrder` for `user` at time `now`, with `id` the new record's id. */
  function BuildOrder(req: OrderRequest, id: string, user: string, now: int): (r: Outcome)
    ensures r.Rejected? <==> req.orderItems == Some([])
    ensures r.Rejected? ==> r.error == NoOrderItems
    ensures r.Crashed? <==> req.orderItems != Some([]) && (req.paymentResult.None? || req.paymentResult.value.payer.None?)
    ensures r.Created? <==> req.orderItems != Some([]) && req.paymentResult.Some? && req.paymentResult.value.payer.Some? && Storable(req)
    ensures r.Created? ==>
              var o := r.order;
              o.id == id && o.user == user && o.isPaid && o.paidAt == Some(now)
              && !o.isDelivered && !o.isDispatched && o.dispatchedAt.None? && o.deliveredAt.None?
              && Some(o.itemsPrice) == CastPrice(req.itemsPrice) && Some(o.shippingPrice) == CastPrice(req.shippingPrice)
              && Some(o.taxPrice) == CastPrice(req.taxPrice) && Some(o.totalPrice) == CastPrice(req.totalPrice)
              && o.orderItems == CastOrderItems(OrArray(req.orderItems, []))
              && o.paymentResult == StoredPaymentResult(req.paymentResult.value)
              && Some(o.shippingAddress) == CastAddress(req.shippingAddress) && Some(o.paymentMethod) == req.paymentMethod
  {
    if req.orderItems.Some? && |req.orderItems.value| == 0 then Rejected(NoOrderItems)
    else if req.paymentResult.None? || req.paymentResult.value.payer.None? then Crashed
    else if !Storable(req) then Invalid
    else
      var items := OrArray(req.orderItems, []);
      var o := NewOrder(id, user, CastAddress(req.shippingAddress).value, req.paymentMethod.value);
      Created(o.(orderItems := CastOrderItems(items), paymentResult := StoredPaymentResult(req.paymentResult.value),
                 itemsPrice := CastPrice(req.itemsPrice).value, shippingPrice := CastPrice(req.shippingPrice).value,
                 taxPrice := CastPrice(req.taxPrice).value, totalPrice := CastPrice(req.totalPrice).value,
                 isPaid := true, paidAt := Some(now)))
  }

  /** A request without any `orderItems` field is not rejected: it makes an order of no lines. */
  lemma MissingItemsAccepted(req: OrderRequest, id: string, user: string, now: int)
    requires req.orderItems.None? && req.paymentResult.Some? && req.paymentResult.value.payer.Some? && Storable(req)
    ensures BuildOrder(req, id, user, now).Created? && BuildOrder(req, id, user, now).order.orderItems == []
  {
  }

  /** `updateOrderToDispatched` on a found order: the flag and its time, nothing else. */
  function Dispatched(o: Order, now: int): (r: Order)
    ensures r.isDispatched && r.dispatchedAt == Some(now)
    ensures r.isPaid == o.isPaid && r.paidAt == o.paidAt && r.orderItems == o.orderItems && r.totalPrice == o.totalPrice
    ensures r.(isDispatched := o.isDispatched, dispatchedAt := o.dispatchedAt) == o
  {
    o.(isDispatched := true, dispatchedAt := Some(now))
  }

  /** Dispatching does not ask whether the order is paid, and dispatching twice keeps the flag. */
  lemma DispatchIgnoresPayment(o: Order, t1: int, t2: int)
    ensures !o.isPaid ==> Dispatched(o, t1).isDispatched && !Dispatched(o, t1).isPaid
    ensures Dispatched(Dispatched(o, t1), t2) == Dispatched(o, t2)
  {
  }

  /** The orders of one user, in stored order. */
  function OrdersOf(orders: seq<Order>, user: string): (r: seq<Order>)
    ensures |r| <= |orders|
    ensures forall o :: o in r <==> o in orders && o.user == user
  {
    if |orders| == 0 then []
    else if orders[0].user == user then [orders[0]] + OrdersOf(orders[1..], user)
    else OrdersOf(orders[1..], user)
  }

  predicate HasOrder(orders: seq<Order>, id: string)
  {
    exists k :: 0 <= k < |orders| && orders[k].id == id
  }

  /** The stored orders, each with its own id. */
  class OrderStore {
    var orders: seq<Order>

    predicate Valid()
      reads this
    {
      forall i, j :: 0 <= i < j < |orders| ==> orders[i].id != orders[j].id
    }

    constructor()
      ensures Valid() && orders == []
    {
      orders := [];
    }

    /** The record with `id`, or 404 "Order not found". */
    method GetOrderById(id: string) returns (r: Result<Order>)
      ensures r.Ok? <==> HasOrder(orders, id)
      ensures r.Ok? ==> r.value in orders && r.value.id == id
      ensures r.Err? ==> r.error == OrderNotFound
    {
      var k := 0;
      while k < |orders|
        invariant 0 <= k <= |orders|
        invariant forall i :: 0 <= i < k ==> orders[i].id != id
      {
        if orders[k].id == id {
          return Ok(orders[k]);
        }
        k := k + 1;
      }
      return Err(OrderNotFound);
    }

    /** `createOrder`: a created order is stored after the others. */
    method CreateOrder(req: OrderRequest, id: string, user: string, now: int) returns (r: Outcome)
      requires Valid() && !HasOrder(orders, id)
      modifies this
      ensures Valid()
      ensures r == BuildOrder(req, id, user, now)
      ensures orders == if r.Created? then old(orders) + [r.order] else old(orders)
    {
      r := BuildOrder(req, id, user, now);
      if r.Created? {
        orders := orders + [r.order];
      }
    }

    /** `getMyOrders`: the requester's orders. */
    method GetMyOrders(user: string) returns (r: seq<Order>)
      ensures forall o :: o in r <==> o in orders && o.user == user
    {
      r := OrdersOf(orders, user);
    }

    /** `getOrders`: every stored order, whoever placed it, in stored order. */
    method GetOrders() returns (r: seq<Order>)
      ensures |r| == |orders| && forall k :: 0 <= k < |r| ==> r[k] == orders[k]
    {
      r := orders;
    }

    /** `updateOrderToDispatched`: the order with `id` is dispatched at `now`, paid or not;
        a missing order gives 404 and changes nothing. */
    method UpdateOrderToDispatched(id: string, now: int) returns (r: Result<Order>)
      requires Valid()
      modifies this
      ensures Valid()
      ensures r.Err? <==> !HasOrder(old(orders), id)
      ensures r.Err? ==> r.error == OrderNotFound && orders == old(orders)
      ensures r.Ok? ==> exists k :: 0 <= k < |old(orders)| && old(orders)[k].id == id
                          && r.value == Dispatched(old(orders)[k], now) && orders == old(orders)[k := r.value]
    {
      var k := 0;
      while k < |orders|
        invariant 0 <= k <= |orders|
        invariant forall i :: 0 <= i < k ==> orders[i].id != id
      {
        if orders[k].id == id {
          r := Ok(Dispatched(orders[k], now));
          orders := orders[k := r.value];
          return;
        }
        k := k + 1;
      }
      r := Err(OrderNotFound);
    }
  }
}
