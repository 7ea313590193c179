/** The cart's state and the reducer that moves it from one state to the next. */
module CartReducer {
  import opened Js
  import opened Money
  import opened ProductModel

  /** One cart line: a configured product and how many of it. A line is identified by the
      product id together with the `variantId` of its configuration. */
  datatype CartItem = CartItem(
    id: string, name: string, image: Option<string>, price: Pence, countInStock: nat,
    variations: seq<Variation>, personalizations: seq<Personalization>,
    variantId: string, totalPrice: Pence, qty: nat)

  /** The shipping address as the cart keeps it; the initial address `{}` has no field at all. */
  datatype Address = Address(address: Option<string>, city: Option<string>, postalCode: Option<string>, country: Option<string>)

  const NoAddress := Address(None, None, None, None)

  datatype CartState = CartState(cartItems: seq<CartItem>, shippingAddress: Address, paymentMethod: Option<string>)

  /** The reducer's default state `{ cartItems: [], shippingAddress: {} }`. */
  const InitialState := CartState([], NoAddress, None)

  /** The payload of a remove action; the reducer reads only `_id` (here `id`) and `variantId`. */
  datatype RemovePayload = RemovePayload(id: Option<string>, productId: Option<string>, variantId: Option<string>)

  datatype Action =
    | AddItem(item: CartItem)
    | RemoveItem(payload: RemovePayload)
    | SaveShippingAddress(address: Address)
    | SavePaymentMethod(payment: string)
    | Reset
    | Other

  predicate SameLine(a: CartItem, b: CartItem)
  {
    a.id == b.id && a.variantId == b.variantId
  }

  /** Some line of `items` has the id and variantId of `item`: the reducer's `find`. */
  predicate HasLine(items: seq<CartItem>, item: CartItem)
  {
    exists i :: 0 <= i < |items| && SameLine(items[i], item)
  }

  /** At most one line per (product id, variantId). */
  predicate UniqueLines(items: seq<CartItem>)
  {
    forall i, j :: 0 <= i < j < |items| ==> !SameLine(items[i], items[j])
  }

  /** The `map` of an add whose line exists: each line with the new item's key takes its qty. */
  function ReplaceQty(items: seq<CartItem>, item: CartItem): (r: seq<CartItem>)
    ensures |r| == |items|
    ensures forall i :: 0 <= i < |items| ==> r[i] == if SameLine(items[i], item) then items[i].(qty := item.qty) else items[i]
  {
    seq(|items|, i requires 0 <= i < |items| =>
      if SameLine(items[i], item) then items[i].(qty := item.qty) else items[i])
  }

  /** The remove filter's test: a line survives when its id differs from `id` AND its
      variantId differs from `variantId`; an absent payload field differs from every line. */
  predicate Survives(item: CartItem, id: Option<string>, variantId: Option<string>)
  {
    Some(item.id) != id && Some(item.variantId) != variantId
  }

  function RemoveFilter(items: seq<CartItem>, id: Option<string>, variantId: Option<string>): (r: seq<CartItem>)
    ensures |r| <= |items|
    ensures forall x :: x in r <==> x in items && Survives(x, id, variantId)
  {
    if |items| == 0 then []
    else if Survives(items[0], id, variantId) then [items[0]] + RemoveFilter(items[1..], id, variantId)
    else RemoveFilter(items[1..], id, variantId)
  }

  /** The filter keeps the surviving lines in their order: it distributes over
      concatenation, and a single line stays exactly when it survives. */
  lemma {:induction false} RemoveFilterAppend(a: seq<CartItem>, b: seq<CartItem>, x: CartItem, id: Option<string>, variantId: Option<string>)
    ensures RemoveFilter(a + b, id, variantId) == RemoveFilter(a, id, variantId) + RemoveFilter(b, id, variantId)
    ensures RemoveFilter([x], id, variantId) == if Survives(x, id, variantId) then [x] else []
    decreases |a|
  {
    assert RemoveFilter([x][1..], id, variantId) == [] by { assert [x][1..] == []; }
    if |a| == 0 {
      assert a + b == b;
    } else {
      assert (a + b)[0] == a[0] && (a + b)[1..] == a[1..] + b;
      RemoveFilterAppend(a[1..], b, x, id, variantId);
    }
  }

  /** `cartReducer(state, action)`. */
  function Reduce(s: CartState, a: Action): CartState
  {
    match a
    case AddItem(item) =>
      if !HasLine(s.cartItems, item) then s.(cartItems := s.cartItems + [item])
      else s.(cartItems := ReplaceQty(s.cartItems, item))
    case RemoveItem(p) => s.(cartItems := RemoveFilter(s.cartItems, p.id, p.variantId))
    case SaveShippingAddress(address) => s.(shippingAddress := address)
    case SavePaymentMethod(payment) => s.(paymentMethod := Some(payment))
    case Reset => CartState([], s.shippingAddress, None)
    case Other => s
  }

  /** An item whose key is new is appended at the end; the lines before it and the rest of
      the state are unchanged. */
  lemma AddNewLine(s: CartState, item: CartItem)
    requires !HasLine(s.cartItems, item)
    ensures var r := Reduce(s, AddItem(item));
      |r.cartItems| == |s.cartItems| + 1 && r.cartItems[|s.cartItems|] == item
      && r.cartItems[..|s.cartItems|] == s.cartItems
      && r.shippingAddress == s.shippingAddress && r.paymentMethod == s.paymentMethod
  {
    assert (s.cartItems + [item])[..|s.cartItems|] == s.cartItems;
  }

  /** An item whose key is already in the cart keeps the cart's length and only replaces the
      qty of the matching line: the qty is not summed, and every other field of the line stays. */
  lemma AddExistingLine(s: CartState, item: CartItem, k: nat)
    requires UniqueLines(s.cartItems)
    requires k < |s.cartItems| && SameLine(s.cartItems[k], item)
    ensures var r := Reduce(s, AddItem(item));
      |r.cartItems| == |s.cartItems|
      && r.cartItems[k] == s.cartItems[k].(qty := item.qty)
      && (forall i :: 0 <= i < |s.cartItems| && i != k ==> r.cartItems[i] == s.cartItems[i])
      && r.shippingAddress == s.shippingAddress && r.paymentMethod == s.paymentMethod
  {
    forall i | 0 <= i < |s.cartItems| && i != k
      ensures !SameLine(s.cartItems[i], item)
    {
      if i < k { assert !SameLine(s.cartItems[i], s.cartItems[k]); }
      else { assert !SameLine(s.cartItems[k], s.cartItems[i]); }
    }
  }

  /** Adding keeps at most one line per (product id, variantId). */
  lemma AddKeepsUniqueLines(s: CartState, item: CartItem)
    requires UniqueLines(s.cartItems)
    ensures UniqueLines(Reduce(s, AddItem(item)).cartItems)
  {
    var r := Reduce(s, AddItem(item)).cartItems;
    if HasLine(s.cartItems, item) {
      forall i, j | 0 <= i < j < |r| ensures !SameLine(r[i], r[j]) {
        assert SameLine(r[i], r[j]) <==> SameLine(s.cartItems[i], s.cartItems[j]);
      }
    } else {
      forall i, j | 0 <= i < j < |r| ensures !SameLine(r[i], r[j]) {
        if j == |s.cartItems| {
          assert r[j] == item && r[i] == s.cartItems[i];
        } else {
          assert r[i] == s.cartItems[i] && r[j] == s.cartItems[j];
        }
      }
    }
  }

  /** Removing keeps at most one line per (product id, variantId). */
  lemma {:induction false} RemoveKeepsUniqueLines(items: seq<CartItem>, id: Option<string>, variantId: Option<string>)
    requires UniqueLines(items)
    ensures UniqueLines(RemoveFilter(items, id, variantId))
    decreases |items|
  {
    if |items| > 0 {
      assert UniqueLines(items[1..]) by {
        forall i, j | 0 <= i < j < |items[1..]| ensures !SameLine(items[1..][i], items[1..][j]) {
          assert items[1..][i] == items[i + 1] && items[1..][j] == items[j + 1];
        }
      }
      RemoveKeepsUniqueLines(items[1..], id, variantId);
      var rest := RemoveFilter(items[1..], id, variantId);
      if Survives(items[0], id, variantId) {
        var r := [items[0]] + rest;
        forall i, j | 0 <= i < j < |r| ensures !SameLine(r[i], r[j]) {
          if i == 0 {
            assert r[j] in rest;
            assert r[j] in items[1..];
            var m :| 0 <= m < |items[1..]| && items[1..][m] == r[j];
            assert items[m + 1] == r[j];
            assert !SameLine(items[0], items[m + 1]);
          } else {
            assert r[i] == rest[i - 1] && r[j] == rest[j - 1];
          }
        }
      }
    }
  }

  /** Saving an address or a payment method replaces that one field. */
  lemma SaveReplacesOneField(s: CartState, a: Address, m: string)
    ensures Reduce(s, SaveShippingAddress(a)) == CartState(s.cartItems, a, s.paymentMethod)
    ensures Reduce(s, SavePaymentMethod(m)) == CartState(s.cartItems, s.shippingAddress, Some(m))
  {
  }

  /** Reset empties the cart, keeps the address and forgets the payment method; an action the
      reducer does not know returns the state as it is. */
  lemma ResetAndOther(s: CartState)
    ensures Reduce(s, Reset).cartItems == [] && Reduce(s, Reset).shippingAddress == s.shippingAddress
    ensures Reduce(s, Reset).paymentMethod.None?
    ensures Reduce(s, Other) == s
  {
  }

  /** Adding the same line twice leaves the line once, with the qty of the second add. */
  lemma AddTwiceKeepsLastQty(s: CartState, item: CartItem, qty2: nat)
    requires UniqueLines(s.cartItems)
    ensures var s1 := Reduce(s, AddItem(item));
      var s2 := Reduce(s1, AddItem(item.(qty := qty2)));
      |s2.cartItems| == |s1.cartItems|
      && (exists k :: 0 <= k < |s2.cartItems| && s2.cartItems[k] == s1.cartItems[k].(qty := qty2) && SameLine(s2.cartItems[k], item))
  {
    var s1 := Reduce(s, AddItem(item));
    var k: nat;
    if HasLine(s.cartItems, item) {
      k :| 0 <= k < |s.cartItems| && SameLine(s.cartItems[k], item);
    } else {
      k := |s.cartItems|;
      assert s1.cartItems[k] == item;
    }
    assert SameLine(s1.cartItems[k], item);
    AddKeepsUniqueLines(s, item);
    AddExistingLine(s1, item.(qty := qty2), k);
  }

  lemma UniqueLinesTail(items: seq<CartItem>)
    requires |items| > 0 && UniqueLines(items)
    ensures UniqueLines(items[1..])
    ensures forall m :: 0 <= m < |items[1..]| ==> !SameLine(items[0], items[1..][m])
  {
    forall i, j | 0 <= i < j < |items[1..]| ensures !SameLine(items[1..][i], items[1..][j]) {
      assert items[1..][i] == items[i + 1] && items[1..][j] == items[j + 1];
    }
    forall m | 0 <= m < |items[1..]| ensures !SameLine(items[0], items[1..][m]) {
      assert items[1..][m] == items[m + 1];
    }
  }

  /** The line with product `id` and configuration `variantId`. */
  predicate IsLine(item: CartItem, id: string, variantId: string)
  {
    item.id == id && item.variantId == variantId
  }

  predicate HasKey(items: seq<CartItem>, id: string, variantId: string)
  {
    exists i :: 0 <= i < |items| && IsLine(items[i], id, variantId)
  }

  /** The removal the cart's remove button evidently intends: drop the one line whose product
      id and variantId both match, keep every other line in order. */
  function RemoveLine(items: seq<CartItem>, id: string, variantId: string): (r: seq<CartItem>)
    ensures |r| <= |items|
    ensures forall x :: x in r <==> x in items && !IsLine(x, id, variantId)
  {
    if |items| == 0 then []
    else if IsLine(items[0], id, variantId) then RemoveLine(items[1..], id, variantId)
    else [items[0]] + RemoveLine(items[1..], id, variantId)
  }

  /** The corrected removal also keeps the other lines in their order. */
  lemma {:induction false} RemoveLineAppend(a: seq<CartItem>, b: seq<CartItem>, x: CartItem, id: string, variantId: string)
    ensures RemoveLine(a + b, id, variantId) == RemoveLine(a, id, variantId) + RemoveLine(b, id, variantId)
    ensures RemoveLine([x], id, variantId) == if IsLine(x, id, variantId) then [] else [x]
    decreases |a|
  {
    assert RemoveLine([x][1..], id, variantId) == [] by { assert [x][1..] == []; }
    if |a| == 0 {
      assert a + b == b;
    } else {
      assert (a + b)[0] == a[0] && (a + b)[1..] == a[1..] + b;
      RemoveLineAppend(a[1..], b, x, id, variantId);
    }
  }

  lemma {:induction false} RemoveLineAbsent(items: seq<CartItem>, id: string, variantId: string)
    requires !HasKey(items, id, variantId)
    ensures RemoveLine(items, id, variantId) == items
    decreases |items|
  {
    if |items| > 0 {
      assert !IsLine(items[0], id, variantId);
      assert !HasKey(items[1..], id, variantId) by {
        forall m | 0 <= m < |items[1..]| ensures !IsLine(items[1..][m], id, variantId) {
          assert items[1..][m] == items[m + 1];
        }
      }
      RemoveLineAbsent(items[1..], id, variantId);
      assert [items[0]] + items[1..] == items;
    }
  }

  /** In a cart with one line per key, the corrected removal drops exactly one line when that
      line is present and nothing otherwise. */
  lemma {:induction false} RemoveLineDropsOne(items: seq<CartItem>, id: string, variantId: string)
    requires UniqueLines(items)
    ensures |RemoveLine(items, id, variantId)| == |items| - if HasKey(items, id, variantId) then 1 else 0
    decreases |items|
  {
    if |items| > 0 {
      UniqueLinesTail(items);
      var tailHas := HasKey(items[1..], id, variantId);
      if IsLine(items[0], id, variantId) {
        assert !tailHas by {
          forall m | 0 <= m < |items[1..]| ensures !IsLine(items[1..][m], id, variantId) {
            assert !SameLine(items[0], items[1..][m]);
          }
        }
        RemoveLineAbsent(items[1..], id, variantId);
      } else {
        RemoveLineDropsOne(items[1..], id, variantId);
        assert HasKey(items, id, variantId) == tailHas by {
          if tailHas {
            var m :| 0 <= m < |items[1..]| && IsLine(items[1..][m], id, variantId);
            assert items[m + 1] == items[1..][m];
          }
          if HasKey(items, id, variantId) {
            var m :| 0 <= m < |items| && IsLine(items[m], id, variantId);
            assert m > 0 && items[1..][m - 1] == items[m];
          }
        }
      }
    }
  }
}
