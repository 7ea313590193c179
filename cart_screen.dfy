/** The cart page: line prices, the item count, the subtotal, the quantity choices and the
    checkout button. */
module CartScreen {
  import opened Js
  import opened Money
  import opened CartReducer
  import opened CartActions

  /** The running sum of `reduce((acc, item) => acc + f(item), acc)` over the lines, left to right. */
  function FoldLines(acc: nat, items: seq<CartItem>, f: CartItem -> nat): nat
    decreases |items|
  {
    if |items| == 0 then acc else FoldLines(acc + f(items[0]), items[1..], f)
  }

  /** The plain sum of `f` over the lines. */
  function SumLines(items: seq<CartItem>, f: CartItem -> nat): nat
  {
    if |items| == 0 then 0 else SumLines(items[..|items| - 1], f) + f(items[|items| - 1])
  }

  lemma {:induction false} FoldLinesIsSum(acc: nat, items: seq<CartItem>, f: CartItem -> nat)
    ensures FoldLines(acc, items, f) == acc + SumLines(items, f)
    decreases |items|
  {
    if |items| > 0 {
      FoldLinesIsSum(acc + f(items[0]), items[1..], f);
      SumLinesCons(items[0], items[1..], f);
      assert [items[0]] + items[1..] == items;
    }
  }

  lemma {:induction false} SumLinesCons(x: CartItem, items: seq<CartItem>, f: CartItem -> nat)
    ensures SumLines([x] + items, f) == f(x) + SumLines(items, f)
    decreases |items|
  {
    if |items| > 0 {
      var all := [x] + items;
      assert all[..|all| - 1] == [x] + items[..|items| - 1];
      SumLinesCons(x, items[..|items| - 1], f);
    }
  }

  function Qty(item: CartItem): nat
  {
    item.qty
  }

  /** `qty * totalPrice` of a line, in pence. */
  function LineTotal(item: CartItem): nat
  {
    item.totalPrice * item.qty
  }

  /** The number next to "Subtotal": the sum of the quantities of all lines. */
  function ItemCount(items: seq<CartItem>): (n: nat)
    ensures n == SumLines(items, Qty)
  {
    FoldLinesIsSum(0, items, Qty);
    FoldLines(0, items, Qty)
  }

  /** The word after the count: plural exactly when more than one item is in the cart. */
  function CountLabel(items: seq<CartItem>): (word: string)
    ensures word == " items" <==> ItemCount(items) > 1
    ensures word == " item" <==> ItemCount(items) <= 1
  {
    if ItemCount(items) > 1 then " items" else " item"
  }

  /** The subtotal in pence: the line totals summed before anything is rounded. */
  function Subtotal(items: seq<CartItem>): (p: Pence)
    ensures p == SumLines(items, LineTotal)
  {
    FoldLinesIsSum(0, items, LineTotal);
    FoldLines(0, items, LineTotal)
  }

  /** The subtotal as the page prints it. */
  function SubtotalText(items: seq<CartItem>): (s: string)
    ensures ParseAmount(s) == Some(Subtotal(items))
  {
    ParseAddDecimals(Subtotal(items));
    AddDecimals(Subtotal(items))
  }

  /** A line's price as the page prints it, and the unit price shown under it. */
  function LineTotalText(item: CartItem): (s: string)
    ensures ParseAmount(s) == Some(item.totalPrice * item.qty)
  {
    ParseAddDecimals(LineTotal(item));
    AddDecimals(LineTotal(item))
  }

  /** The "(£x each)" note appears only for a line of more than one. */
  predicate ShowsEach(item: CartItem)
  {
    item.qty > 1
  }

  /** The page's sums are additive: one more line at the end adds its quantity to the count
      and its total to the subtotal. */
  lemma SumsAppend(items: seq<CartItem>, x: CartItem)
    ensures ItemCount(items + [x]) == ItemCount(items) + x.qty
    ensures Subtotal(items + [x]) == Subtotal(items) + x.totalPrice * x.qty
  {
    assert (items + [x])[..|items + [x]| - 1] == items;
  }

  /** The quantity select of a line: the values 1 to its stock. */
  function QtyChoices(countInStock: nat): (r: seq<nat>)
    ensures |r| == countInStock
    ensures forall x :: 0 <= x < |r| ==> r[x] == x + 1
  {
    seq(countInStock, x requires 0 <= x < countInStock => x + 1)
  }

  /** The choices are exactly the quantities from 1 to the stock, in increasing order. */
  lemma QtyChoicesRange(countInStock: nat, v: nat)
    ensures v in QtyChoices(countInStock) <==> 1 <= v <= countInStock
  {
    var r := QtyChoices(countInStock);
    if 1 <= v <= countInStock {
      assert r[v - 1] == v;
    }
  }

  /** A line's own fields handed back to `addToCart`, as the quantity select does. */
  function ItemAsProduct(item: CartItem): (p: AddedProduct)
    ensures AddToCartPayload(p, item.qty) == item
  {
    AddedProduct(item.id, item.name, item.image, item.price, item.countInStock, item.variations,
                 item.personalizations, item.variantId, item.totalPrice)
  }

  /** Choosing a new quantity for line `k` re-adds that line: only its qty changes. */
  lemma ChangeQty(s: CartState, k: nat, n: nat)
    requires UniqueLines(s.cartItems) && k < |s.cartItems|
    ensures var r := Reduce(s, AddItem(AddToCartPayload(ItemAsProduct(s.cartItems[k]), n))).cartItems;
      |r| == |s.cartItems| && r[k] == s.cartItems[k].(qty := n)
      && forall i :: 0 <= i < |r| && i != k ==> r[i] == s.cartItems[i]
  {
    var item := AddToCartPayload(ItemAsProduct(s.cartItems[k]), n);
    assert item == s.cartItems[k].(qty := n);
    AddExistingLine(s, item, k);
  }

  /** Checkout is disabled exactly when the cart has no line. */
  predicate CheckoutDisabled(items: seq<CartItem>)
  {
    |items| == 0
  }

  /** Since every quantity chosen is at least 1, checkout is disabled exactly when the count
      is 0. */
  lemma {:induction false} CheckoutDisabledIffNoItems(items: seq<CartItem>)
    requires forall i :: 0 <= i < |items| ==> items[i].qty >= 1
    ensures CheckoutDisabled(items) <==> ItemCount(items) == 0
    ensures ItemCount(items) >= |items|
    decreases |items|
  {
    if |items| > 0 {
      var init := items[..|items| - 1];
      assert forall i :: 0 <= i < |init| ==> init[i] == items[i];
      CheckoutDisabledIffNoItems(init);
      SumsAppend(init, items[|items| - 1]);
      assert init + [items[|items| - 1]] == items;
    }
  }
}
