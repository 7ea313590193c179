/** The order record, as the order schema declares it, and how a cart line becomes an
    order line when an order is stored. */
module OrderModel {
  import opened Js
  import opened Money
  import opened ProductModel
  import opened CartReducer

  datatype ShippingAddress = ShippingAddress(address: string, city: string, postalCode: string, country: string)

  /** All four address fields are required. */
  function CastAddress(a: Address): (r: Option<ShippingAddress>)
    ensures r.Some? <==> a.address.Some? && a.city.Some? && a.postalCode.Some? && a.country.Some?
    ensures r.Some? ==> r.value == ShippingAddress(a.address.value, a.city.value, a.postalCode.value, a.country.value)
  {
    if a.address.Some? && a.city.Some? && a.postalCode.Some? && a.country.Some? then
      Some(ShippingAddress(a.address.value, a.city.value, a.postalCode.value, a.country.value))
    else None
  }

  /** A personalization inside an order line: its surcharge is a String field there. */
  datatype OrderPersonalization = OrderPersonalization(
    name: string, isOptional: bool, isSelected: bool, value: Option<string>,
    additionalPrice: string, linkedImage: Option<int>)

  /** An order line; `productId` is the product's id, stored as the line's `_id`. */
  datatype OrderItem = OrderItem(
    name: string, qty: nat, image: string, price: Pence, totalPrice: Pence,
    variantId: Option<string>, variations: seq<Variation>, personalizations: seq<OrderPersonalization>,
    productId: string)

  /** The payment record; its third field is named `supdate_time`. */
  datatype PaymentResult = PaymentResult(
    id: Option<string>, status: Option<string>, supdate_time: Option<string>, email_address: Option<string>)

  datatype Order = Order(
    id: string, user: string, orderItems: seq<OrderItem>, shippingAddress: ShippingAddress,
    paymentMethod: string, paymentResult: PaymentResult,
    itemsPrice: Pence, shippingPrice: Pence, taxPrice: Pence, totalPrice: Pence,
    isPaid: bool, paidAt: Option<int>, isDelivered: bool, isDispatched: bool,
    deliveredAt: Option<int>, dispatchedAt: Option<int>)

  /** The String cast of a personalization's numeric surcharge. */
  function CastOrderPersonalization(p: Personalization): (r: OrderPersonalization)
    ensures ParseAmount(r.additionalPrice) == Some(p.additionalPrice)
    ensures r.name == p.name && r.isOptional == p.isOptional && r.isSelected == p.isSelected
    ensures r.value == Some(p.value) && r.linkedImage == p.linkedImage
  {
    ParseNumberText(p.additionalPrice);
    OrderPersonalization(p.name, p.isOptional, p.isSelected, Some(p.value), NumberText(p.additionalPrice), p.linkedImage)
  }

  function CastOrderPersonalizations(ps: seq<Personalization>): (r: seq<OrderPersonalization>)
    ensures |r| == |ps| && forall i :: 0 <= i < |ps| ==> r[i] == CastOrderPersonalization(ps[i])
  {
    seq(|ps|, i requires 0 <= i < |ps| => CastOrderPersonalization(ps[i]))
  }

  /** A cart line stored in an order: the image is required, so a line without one fails;
      every other field is copied, and the line's id is the product's id. */
  function CastOrderItem(item: CartItem): (r: Option<OrderItem>)
    ensures r.Some? <==> item.image.Some?
    ensures r.Some? ==>
              r.value.name == item.name && r.value.qty == item.qty && r.value.image == item.image.value
              && r.value.price == item.price && r.value.totalPrice == item.totalPrice && r.value.productId == item.id
              && r.value.variantId == Some(item.variantId) && r.value.variations == item.variations
              && r.value.personalizations == CastOrderPersonalizations(item.personalizations)
  {
    if item.image.None? then None
    else Some(OrderItem(item.name, item.qty, item.image.value, item.price, item.totalPrice, Some(item.variantId),
                        item.variations, CastOrderPersonalizations(item.personalizations), item.id))
  }

  /** A new order before anything is set on it: the four prices 0 and the three flags false. */
  function NewOrder(id: string, user: string, address: ShippingAddress, paymentMethod: string): (o: Order)
    ensures o.itemsPrice == 0 && o.shippingPrice == 0 && o.taxPrice == 0 && o.totalPrice == 0
    ensures !o.isPaid && !o.isDelivered && !o.isDispatched
    ensures o.paidAt.None? && o.deliveredAt.None? && o.dispatchedAt.None? && o.orderItems == []
    ensures o.id == id && o.user == user && o.shippingAddress == address && o.paymentMethod == paymentMethod
  {
    Order(id, user, [], address, paymentMethod, PaymentResult(None, None, None, None),
          0, 0, 0, 0, false, None, false, false, None, None)
  }
}
