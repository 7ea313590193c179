/** The cart's action creators: each builds a payload, dispatches it to the reducer and
    then writes part of the new state to the browser's storage. */
module CartActions {
  import opened Js
  import opened Money
  import opened ProductModel
  import opened CartReducer

  /** The copy of a product the product screen hands to `addToCart`: the product with its
      working selection, unit price, first image and variantId filled in. */
  datatype AddedProduct = AddedProduct(
    id: string, name: string, image: Option<string>, price: Pence, countInStock: nat,
    variations: seq<Variation>, personalizations: seq<Personalization>,
    variantId: string, totalPrice: Pence)

  /** The add payload: the nine fields of the product and the quantity argument. */
  function AddToCartPayload(p: AddedProduct, qty: nat): (item: CartItem)
    ensures item.id == p.id && item.name == p.name && item.image == p.image && item.price == p.price
    ensures item.countInStock == p.countInStock && item.variations == p.variations
    ensures item.personalizations == p.personalizations && item.variantId == p.variantId
    ensures item.totalPrice == p.totalPrice && item.qty == qty
  {
    CartItem(p.id, p.name, p.image, p.price, p.countInStock, p.variations, p.personalizations,
             p.variantId, p.totalPrice, qty)
  }

  /** The remove payload `{ productId, variantId }`: it has no `_id` field. */
  function RemoveFromCartPayload(productId: string, variantId: string): (p: RemovePayload)
    ensures p.id.None? && p.productId == Some(productId) && p.variantId == Some(variantId)
  {
    RemovePayload(None, Some(productId), Some(variantId))
  }

  /** Because the reducer reads the absent `_id`, removing a line drops every line with the
      same variantId, whichever product it belongs to, and keeps all others. */
  lemma RemoveFromCartMatchesVariantOnly(s: CartState, productId: string, variantId: string)
    ensures var r := Reduce(s, RemoveItem(RemoveFromCartPayload(productId, variantId))).cartItems;
      forall x :: x in r <==> x in s.cartItems && x.variantId != variantId
  {
  }

  /** Two different products whose configurations share the variantId "0-0-": removing the
      first one's line also removes the second one's line. */
  lemma RemoveFromCartDropsOtherProduct()
    ensures var a := CartItem("a", "Giraffe card", None, 325, 5, [], [], "0-0-", 325, 1);
      var b := CartItem("b", "Lion card", None, 325, 5, [], [], "0-0-", 325, 2);
      var s := CartState([a, b], NoAddress, None);
      UniqueLines(s.cartItems)
      && Reduce(s, RemoveItem(RemoveFromCartPayload("a", "0-0-"))).cartItems == []
      && RemoveLine(s.cartItems, "a", "0-0-") == [b]
  {
    var a := CartItem("a", "Giraffe card", None, 325, 5, [], [], "0-0-", 325, 1);
    var b := CartItem("b", "Lion card", None, 325, 5, [], [], "0-0-", 325, 2);
    assert [a, b][1..] == [b];
    assert [b][1..] == [];
  }

  /** The cart store with the three storage keys the actions write. The stored values are
      snapshots: `None` means the key was never written. */
  class CartStore {
    var state: CartState
    ghost var storedCartItems: Option<seq<CartItem>>
    ghost var storedShippingAddress: Option<Address>
    ghost var storedPaymentMethod: Option<string>

    /** One line per (product id, variantId) in the cart. */
    predicate Valid()
      reads this
    {
      UniqueLines(state.cartItems)
    }

    constructor()
      ensures Valid()
      ensures state == InitialState
      ensures storedCartItems.None? && storedShippingAddress.None? && storedPaymentMethod.None?
    {
      state := InitialState;
      storedCartItems := None;
      storedShippingAddress := None;
      storedPaymentMethod := None;
    }

    /** `addToCart(product, qty)`: dispatches the add, then stores the new cart lines. */
    method AddToCart(p: AddedProduct, qty: nat)
      requires Valid()
      modifies this
      ensures Valid()
      ensures state == Reduce(old(state), AddItem(AddToCartPayload(p, qty)))
      ensures storedCartItems == Some(state.cartItems)
      ensures storedShippingAddress == old(storedShippingAddress) && storedPaymentMethod == old(storedPaymentMethod)
    {
      AddKeepsUniqueLines(state, AddToCartPayload(p, qty));
      state := Reduce(state, AddItem(AddToCartPayload(p, qty)));
      storedCartItems := Some(state.cartItems);
    }

    /** `removeFromCart(productId, variantId)`: dispatches the remove, then stores the new cart lines. */
    method RemoveFromCart(productId: string, variantId: string)
      requires Valid()
      modifies this
      ensures Valid()
      ensures state == Reduce(old(state), RemoveItem(RemoveFromCartPayload(productId, variantId)))
      ensures storedCartItems == Some(state.cartItems)
      ensures storedShippingAddress == old(storedShippingAddress) && storedPaymentMethod == old(storedPaymentMethod)
    {
      RemoveKeepsUniqueLines(state.cartItems, None, Some(variantId));
      state := Reduce(state, RemoveItem(RemoveFromCartPayload(productId, variantId)));
      storedCartItems := Some(state.cartItems);
    }

    /** `saveShippingAddress(data)`: the address is dispatched and stored unchanged. */
    method SaveShippingAddress(data: Address)
      modifies this
      ensures state == Reduce(old(state), CartReducer.SaveShippingAddress(data))
      ensures storedShippingAddress == Some(data)
      ensures storedCartItems == old(storedCartItems) && storedPaymentMethod == old(storedPaymentMethod)
    {
      state := Reduce(state, CartReducer.SaveShippingAddress(data));
      storedShippingAddress := Some(data);
    }

    /** `savePaymentMethod(data)`: the method is dispatched and stored unchanged. */
    method SavePaymentMethod(data: string)
      modifies this
      ensures state == Reduce(old(state), CartReducer.SavePaymentMethod(data))
      ensures storedPaymentMethod == Some(data)
      ensures storedCartItems == old(storedCartItems) && storedShippingAddress == old(storedShippingAddress)
    {
      state := Reduce(state, CartReducer.SavePaymentMethod(data));
      storedPaymentMethod := Some(data);
    }

    /** A reset dispatched after an order is placed; it writes no storage key. */
    method ResetCart()
      modifies this
      ensures Valid()
      ensures state == Reduce(old(state), CartReducer.Reset)
      ensures storedCartItems == old(storedCartItems) && storedShippingAddress == old(storedShippingAddress)
      ensures storedPaymentMethod == old(storedPaymentMethod)
    {
      state := Reduce(state, CartReducer.Reset);
    }
  }
}
