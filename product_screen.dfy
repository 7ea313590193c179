/** The product page: the buyer's working selection of variations and personalizations,
    the unit price it costs, and the `variantId` that tells cart lines apart. */
module ProductScreen {
  import opened Js
  import opened Strings
  import opened Decimal
  import opened Money
  import opened ProductModel
  import opened CartReducer
  import opened CartActions

  /** An entry counts when it is mandatory, or optional and selected. */
  predicate Active(isOptional: bool, isSelected: bool)
  {
    !isOptional || (isOptional && isSelected)
  }

  predicate VariationActive(v: Variation)
  {
    Active(v.isOptional, v.isSelected)
  }

  predicate PersonalizationActive(p: Personalization)
  {
    Active(p.isOptional, p.isSelected)
  }

  /** The selected index of a counted variation names one of its options. */
  predicate InRange(v: Variation)
  {
    VariationActive(v) ==> 0 <= v.selectedOption < |v.options|
  }

  /** Every counted variation can be priced; otherwise looking up its option fails. */
  predicate Priceable(vs: seq<Variation>)
  {
    forall i :: 0 <= i < |vs| ==> InRange(vs[i])
  }

  // ---------------------------------------------------------------------------------------
  // The price, as `getTotalPrice` computes it: map each entry to its surcharge or `null`,
  // then `reduce((acc, value) => acc + value, 0)`, where adding `null` adds nothing.

  function VariationCost(v: Variation): Option<Pence>
    requires InRange(v)
  {
    if VariationActive(v) then Some(v.options[v.selectedOption].additionalPrice) else None
  }

  function PersonalizationCost(p: Personalization): Option<Pence>
  {
    if PersonalizationActive(p) then Some(p.additionalPrice) else None
  }

  function VariationCosts(vs: seq<Variation>): seq<Option<Pence>>
    requires Priceable(vs)
  {
    seq(|vs|, i requires 0 <= i < |vs| && Priceable(vs) => VariationCost(vs[i]))
  }

  function PersonalizationCosts(ps: seq<Personalization>): seq<Option<Pence>>
  {
    seq(|ps|, i requires 0 <= i < |ps| => PersonalizationCost(ps[i]))
  }

  /** The running sum of a `reduce` from `acc`, left to right; `null` counts as 0. */
  function AddUp(acc: Pence, costs: seq<Option<Pence>>): Pence
    decreases |costs|
  {
    if |costs| == 0 then acc
    else AddUp(acc + (if costs[0].Some? then costs[0].value else 0), costs[1..])
  }

  /** The unit price in pence: the base price plus both reduced sums. `None` is the failure
      of a counted variation whose selected index names no option. */
  function UnitPrice(price: Pence, vs: seq<Variation>, ps: seq<Personalization>): (r: Option<Pence>)
    ensures r.Some? <==> Priceable(vs)
    ensures r.Some? ==> r.value >= price
  {
    if Priceable(vs) then Some(price + AddUp(0, VariationCosts(vs)) + AddUp(0, PersonalizationCosts(ps))) else None
  }

  /** `getTotalPrice()`: the unit price rounded to pence and printed with two decimals. */
  function TotalPriceText(price: Pence, vs: seq<Variation>, ps: seq<Personalization>): (r: Option<string>)
    ensures r.Some? <==> Priceable(vs)
  {
    match UnitPrice(price, vs, ps)
    case Some(p) => Some(AddDecimals(p))
    case None => None
  }

  // ---------------------------------------------------------------------------------------
  // The reference price: the sum, over the counted entries only, of their surcharges.

  function Surcharge(v: Variation): Pence
    requires InRange(v)
  {
    if VariationActive(v) then v.options[v.selectedOption].additionalPrice else 0
  }

  function VariationSurcharges(vs: seq<Variation>): Pence
    requires Priceable(vs)
  {
    if |vs| == 0 then 0 else Surcharge(vs[0]) + VariationSurcharges(vs[1..])
  }

  function PersonalizationSurcharge(p: Personalization): Pence
  {
    if PersonalizationActive(p) then p.additionalPrice else 0
  }

  function PersonalizationSurcharges(ps: seq<Personalization>): Pence
  {
    if |ps| == 0 then 0 else PersonalizationSurcharge(ps[0]) + PersonalizationSurcharges(ps[1..])
  }

  lemma {:induction false} AddUpVariations(acc: Pence, vs: seq<Variation>)
    requires Priceable(vs)
    ensures AddUp(acc, VariationCosts(vs)) == acc + VariationSurcharges(vs)
    decreases |vs|
  {
    if |vs| > 0 {
      assert Priceable(vs[1..]) by {
        forall i | 0 <= i < |vs[1..]| ensures InRange(vs[1..][i]) { assert vs[1..][i] == vs[i + 1]; }
      }
      assert VariationCosts(vs)[1..] == VariationCosts(vs[1..]);
      assert VariationCosts(vs)[0] == VariationCost(vs[0]);
      AddUpVariations(acc + Surcharge(vs[0]), vs[1..]);
    }
  }

  lemma {:induction false} AddUpPersonalizations(acc: Pence, ps: seq<Personalization>)
    ensures AddUp(acc, PersonalizationCosts(ps)) == acc + PersonalizationSurcharges(ps)
    decreases |ps|
  {
    if |ps| > 0 {
      assert PersonalizationCosts(ps)[1..] == PersonalizationCosts(ps[1..]);
      assert PersonalizationCosts(ps)[0] == PersonalizationCost(ps[0]);
      AddUpPersonalizations(acc + PersonalizationSurcharge(ps[0]), ps[1..]);
    }
  }

  /** The unit price is the base price plus the surcharge of the selected option of every
      counted variation plus the surcharge of every counted personalization. */
  lemma UnitPriceIsSurchargeSum(price: Pence, vs: seq<Variation>, ps: seq<Personalization>)
    requires Priceable(vs)
    ensures UnitPrice(price, vs, ps) == Some(price + VariationSurcharges(vs) + PersonalizationSurcharges(ps))
  {
    AddUpVariations(0, vs);
    AddUpPersonalizations(0, ps);
  }

  /** With no counted entry the unit price is the base price. */
  lemma {:induction false} NothingCountedIsBasePrice(price: Pence, vs: seq<Variation>, ps: seq<Personalization>)
    requires forall i :: 0 <= i < |vs| ==> !VariationActive(vs[i])
    requires forall i :: 0 <= i < |ps| ==> !PersonalizationActive(ps[i])
    ensures UnitPrice(price, vs, ps) == Some(price)
  {
    NoVariationSurcharge(vs);
    NoPersonalizationSurcharge(ps);
    UnitPriceIsSurchargeSum(price, vs, ps);
  }

  lemma {:induction false} NoVariationSurcharge(vs: seq<Variation>)
    requires forall i :: 0 <= i < |vs| ==> !VariationActive(vs[i])
    ensures Priceable(vs) && VariationSurcharges(vs) == 0
    decreases |vs|
  {
    if |vs| > 0 {
      assert forall i :: 0 <= i < |vs[1..]| ==> vs[1..][i] == vs[i + 1];
      NoVariationSurcharge(vs[1..]);
    }
  }

  lemma {:induction false} NoPersonalizationSurcharge(ps: seq<Personalization>)
    requires forall i :: 0 <= i < |ps| ==> !PersonalizationActive(ps[i])
    ensures PersonalizationSurcharges(ps) == 0
    decreases |ps|
  {
    if |ps| > 0 {
      assert forall i :: 0 <= i < |ps[1..]| ==> ps[1..][i] == ps[i + 1];
      NoPersonalizationSurcharge(ps[1..]);
    }
  }

  /** The printed price reads back as the unit price: `Math.round(x * 100) / 100` keeps an
      amount of whole pence as it is. */
  lemma TotalPriceTextReadsBack(price: Pence, vs: seq<Variation>, ps: seq<Personalization>)
    requires Priceable(vs)
    ensures ParseAmount(TotalPriceText(price, vs, ps).value) == UnitPrice(price, vs, ps)
    ensures Round2(UnitPrice(price, vs, ps).value as real / 100.0) == UnitPrice(price, vs, ps).value as real / 100.0
  {
    ParseAddDecimals(UnitPrice(price, vs, ps).value);
    Round2OfPence(UnitPrice(price, vs, ps).value);
  }

  lemma {:induction false} VariationSurchargesUpdate(vs: seq<Variation>, k: nat, w: Variation)
    requires k < |vs| && Priceable(vs) && InRange(w)
    ensures Priceable(vs[k := w])
    ensures VariationSurcharges(vs[k := w]) + Surcharge(vs[k]) == VariationSurcharges(vs) + Surcharge(w)
    decreases k
  {
    var vs' := vs[k := w];
    assert Priceable(vs') by {
      forall i | 0 <= i < |vs'| ensures InRange(vs'[i]) { if i != k { assert vs'[i] == vs[i]; } }
    }
    assert Priceable(vs[1..]) by {
      forall i | 0 <= i < |vs[1..]| ensures InRange(vs[1..][i]) { assert vs[1..][i] == vs[i + 1]; }
    }
    if k == 0 {
      assert vs'[1..] == vs[1..];
    } else {
      assert vs'[1..] == vs[1..][k - 1 := w];
      VariationSurchargesUpdate(vs[1..], k - 1, w);
    }
  }

  lemma {:induction false} PersonalizationSurchargesUpdate(ps: seq<Personalization>, k: nat, w: Personalization)
    requires k < |ps|
    ensures PersonalizationSurcharges(ps[k := w]) + PersonalizationSurcharge(ps[k]) == PersonalizationSurcharges(ps) + PersonalizationSurcharge(w)
    decreases k
  {
    var ps' := ps[k := w];
    if k == 0 {
      assert ps'[1..] == ps[1..];
    } else {
      assert ps'[1..] == ps[1..][k - 1 := w];
      PersonalizationSurchargesUpdate(ps[1..], k - 1, w);
    }
  }

  function FlipVariation(v: Variation): Variation
  {
    v.(isSelected := !v.isSelected)
  }

  function FlipPersonalization(p: Personalization): Personalization
  {
    p.(isSelected := !p.isSelected)
  }

  /** Flipping a mandatory variation's flag leaves the price as it is; switching an optional
      one on adds exactly the surcharge of its selected option, switching it off removes it. */
  lemma VariationTogglePrice(price: Pence, vs: seq<Variation>, ps: seq<Personalization>, k: nat)
    requires k < |vs| && Priceable(vs) && 0 <= vs[k].selectedOption < |vs[k].options|
    ensures var after := UnitPrice(price, vs[k := FlipVariation(vs[k])], ps).value;
      var before := UnitPrice(price, vs, ps).value;
      var surcharge := vs[k].options[vs[k].selectedOption].additionalPrice;
      (!vs[k].isOptional ==> after == before)
      && (vs[k].isOptional && !vs[k].isSelected ==> after == before + surcharge)
      && (vs[k].isOptional && vs[k].isSelected ==> after + surcharge == before)
  {
    VariationSurchargesUpdate(vs, k, FlipVariation(vs[k]));
    UnitPriceIsSurchargeSum(price, vs, ps);
    UnitPriceIsSurchargeSum(price, vs[k := FlipVariation(vs[k])], ps);
  }

  /** The same for a personalization: only an optional one changes the price, by its surcharge. */
  lemma PersonalizationTogglePrice(price: Pence, vs: seq<Variation>, ps: seq<Personalization>, k: nat)
    requires k < |ps| && Priceable(vs)
    ensures var after := UnitPrice(price, vs, ps[k := FlipPersonalization(ps[k])]).value;
      var before := UnitPrice(price, vs, ps).value;
      (!ps[k].isOptional ==> after == before)
      && (ps[k].isOptional && !ps[k].isSelected ==> after == before + ps[k].additionalPrice)
      && (ps[k].isOptional && ps[k].isSelected ==> after + ps[k].additionalPrice == before)
  {
    PersonalizationSurchargesUpdate(ps, k, FlipPersonalization(ps[k]));
    UnitPriceIsSurchargeSum(price, vs, ps);
    UnitPriceIsSurchargeSum(price, vs, ps[k := FlipPersonalization(ps[k])]);
  }

  // ---------------------------------------------------------------------------------------
  // The variantId.

  /** `String(n)` for an index. */
  function IntText(n: int): string
  {
    if n < 0 then "-" + NatToString(-n) else NatToString(n)
  }

  lemma IntTextReadsBack(n: int)
    ensures JsInteger(IntText(n)) == Some(n)
  {
    ParseNatToString(if n < 0 then -n else n);
    if n < 0 {
      assert IntText(n)[1..] == NatToString(-n);
    } else {
      assert IntText(n)[0] != '-';
    }
  }

  function VariationToken(v: Variation): Option<string>
  {
    if VariationActive(v) then Some(IntText(v.selectedOption)) else None
  }

  function PersonalizationToken(p: Personalization): Option<string>
  {
    if PersonalizationActive(p) then Some(p.value) else None
  }

  /** The mapped variations followed by the mapped personalizations: one token per entry,
      `null` for an entry that does not count. */
  function VariantTokens(vs: seq<Variation>, ps: seq<Personalization>): (ts: seq<Option<string>>)
    ensures |ts| == |vs| + |ps|
    ensures forall i :: 0 <= i < |vs| ==> ts[i] == VariationToken(vs[i])
    ensures forall i :: 0 <= i < |ps| ==> ts[|vs| + i] == PersonalizationToken(ps[i])
  {
    seq(|vs|, i requires 0 <= i < |vs| => VariationToken(vs[i]))
      + seq(|ps|, i requires 0 <= i < |ps| => PersonalizationToken(ps[i]))
  }

  /** `join` prints `null` as the empty string. */
  function TokenText(t: Option<string>): string
  {
    if t.Some? then t.value else ""
  }

  function TokenTexts(ts: seq<Option<string>>): (r: seq<string>)
    ensures |r| == |ts| && forall i :: 0 <= i < |ts| ==> r[i] == TokenText(ts[i])
  {
    seq(|ts|, i requires 0 <= i < |ts| => TokenText(ts[i]))
  }

  /** `variantIdArray.join('-')`. */
  function VariantId(vs: seq<Variation>, ps: seq<Personalization>): string
  {
    Join(TokenTexts(VariantTokens(vs, ps)), '-')
  }

  /** When no counted value contains '-', the variantId splits back into one token per entry,
      variations first, with the empty token for an entry that does not count. */
  lemma VariantIdSplits(vs: seq<Variation>, ps: seq<Personalization>)
    requires |vs| + |ps| >= 1
    requires forall i :: 0 <= i < |vs| && VariationActive(vs[i]) ==> vs[i].selectedOption >= 0
    requires forall i :: 0 <= i < |ps| && PersonalizationActive(ps[i]) ==> '-' !in ps[i].value
    ensures var parts := Split(VariantId(vs, ps), '-');
      |parts| == |vs| + |ps|
      && (forall i :: 0 <= i < |vs| ==> parts[i] == if VariationActive(vs[i]) then NatToString(vs[i].selectedOption) else "")
      && (forall i :: 0 <= i < |ps| ==> parts[|vs| + i] == if PersonalizationActive(ps[i]) then ps[i].value else "")
  {
    var texts := TokenTexts(VariantTokens(vs, ps));
    forall i | 0 <= i < |texts| ensures '-' !in texts[i] {
      if i < |vs| {
        if VariationActive(vs[i]) {
          assert texts[i] == NatToString(vs[i].selectedOption);
          forall k | 0 <= k < |texts[i]| ensures texts[i][k] != '-' { assert IsDigit(texts[i][k]); }
        }
      } else {
        assert texts[i] == TokenText(PersonalizationToken(ps[i - |vs|]));
      }
    }
    SplitJoin(texts, '-');
  }

  /** Two selections of one product's entries make the same choice: the same entries count,
      and the counted variations select the same option of the same options. */
  predicate SameVariationChoice(a: Variation, b: Variation)
  {
    a.options == b.options && VariationActive(a) == VariationActive(b)
    && (VariationActive(a) ==> a.selectedOption == b.selectedOption)
  }

  predicate SamePersonalizationChoice(a: Personalization, b: Personalization)
  {
    a.additionalPrice == b.additionalPrice && PersonalizationActive(a) == PersonalizationActive(b)
    && (PersonalizationActive(a) ==> a.value == b.value)
  }

  predicate SameChoices(vs1: seq<Variation>, ps1: seq<Personalization>, vs2: seq<Variation>, ps2: seq<Personalization>)
  {
    |vs1| == |vs2| && |ps1| == |ps2|
    && (forall i :: 0 <= i < |vs1| ==> SameVariationChoice(vs1[i], vs2[i]))
    && (forall i :: 0 <= i < |ps1| ==> SamePersonalizationChoice(ps1[i], ps2[i]))
  }

  lemma {:induction false} SameVariationSurcharges(vs1: seq<Variation>, vs2: seq<Variation>)
    requires |vs1| == |vs2| && forall i :: 0 <= i < |vs1| ==> SameVariationChoice(vs1[i], vs2[i])
    requires Priceable(vs1)
    ensures Priceable(vs2) && VariationSurcharges(vs1) == VariationSurcharges(vs2)
    decreases |vs1|
  {
    assert Priceable(vs2) by {
      forall i | 0 <= i < |vs2| ensures InRange(vs2[i]) { assert SameVariationChoice(vs1[i], vs2[i]); assert InRange(vs1[i]); }
    }
    if |vs1| > 0 {
      assert forall i :: 0 <= i < |vs1[1..]| ==> vs1[1..][i] == vs1[i + 1] && vs2[1..][i] == vs2[i + 1];
      SameVariationSurcharges(vs1[1..], vs2[1..]);
      assert SameVariationChoice(vs1[0], vs2[0]);
    }
  }

  lemma {:induction false} SamePersonalizationSurcharges(ps1: seq<Personalization>, ps2: seq<Personalization>)
    requires |ps1| == |ps2| && forall i :: 0 <= i < |ps1| ==> SamePersonalizationChoice(ps1[i], ps2[i])
    ensures PersonalizationSurcharges(ps1) == PersonalizationSurcharges(ps2)
    decreases |ps1|
  {
    if |ps1| > 0 {
      assert forall i :: 0 <= i < |ps1[1..]| ==> ps1[1..][i] == ps1[i + 1] && ps2[1..][i] == ps2[i + 1];
      SamePersonalizationSurcharges(ps1[1..], ps2[1..]);
      assert SamePersonalizationChoice(ps1[0], ps2[0]);
    }
  }

  /** Whatever stale index or text an entry that does not count still holds, selections that
      make the same choices have the same variantId and the same unit price. */
  lemma SameChoicesSameIdAndPrice(price: Pence, vs1: seq<Variation>, ps1: seq<Personalization>, vs2: seq<Variation>, ps2: seq<Personalization>)
    requires SameChoices(vs1, ps1, vs2, ps2)
    ensures VariantTokens(vs1, ps1) == VariantTokens(vs2, ps2)
    ensures VariantId(vs1, ps1) == VariantId(vs2, ps2)
    ensures UnitPrice(price, vs1, ps1) == UnitPrice(price, vs2, ps2)
  {
    var t1 := VariantTokens(vs1, ps1);
    var t2 := VariantTokens(vs2, ps2);
    forall i | 0 <= i < |t1| ensures t1[i] == t2[i] {
      if i < |vs1| { assert SameVariationChoice(vs1[i], vs2[i]); }
      else { assert SamePersonalizationChoice(ps1[i - |vs1|], ps2[i - |vs1|]); }
    }
    if Priceable(vs1) {
      SameVariationSurcharges(vs1, vs2);
      SamePersonalizationSurcharges(ps1, ps2);
      UnitPriceIsSurchargeSum(price, vs1, ps1);
      UnitPriceIsSurchargeSum(price, vs2, ps2);
    } else if Priceable(vs2) {
      forall i | 0 <= i < |vs1| ensures SameVariationChoice(vs2[i], vs1[i]) { assert SameVariationChoice(vs1[i], vs2[i]); }
      SameVariationSurcharges(vs2, vs1);
    }
  }

  /** An optional personalization that is selected with an empty text prints the same empty
      token as one that is not selected, so the two selections share a variantId although
      the first costs the personalization's surcharge more. */
  lemma EmptyTextCollides(price: Pence, vs: seq<Variation>, ps: seq<Personalization>, k: nat)
    requires Priceable(vs) && k < |ps| && ps[k].isOptional && ps[k].isSelected && ps[k].value == ""
    ensures VariantId(vs, ps[k := FlipPersonalization(ps[k])]) == VariantId(vs, ps)
    ensures UnitPrice(price, vs, ps[k := FlipPersonalization(ps[k])]).value + ps[k].additionalPrice == UnitPrice(price, vs, ps).value
  {
    var ps' := ps[k := FlipPersonalization(ps[k])];
    assert TokenTexts(VariantTokens(vs, ps')) == TokenTexts(VariantTokens(vs, ps)) by {
      var t1 := TokenTexts(VariantTokens(vs, ps'));
      var t2 := TokenTexts(VariantTokens(vs, ps));
      forall i | 0 <= i < |t1| ensures t1[i] == t2[i] {
        if i >= |vs| && i - |vs| != k { assert ps'[i - |vs|] == ps[i - |vs|]; }
      }
    }
    PersonalizationTogglePrice(price, vs, ps, k);
  }

  // ---------------------------------------------------------------------------------------
  // The event keys of the collapsible entries, `variation-3` and `personalization-0`.

  function EventKey(kind: string, index: nat): string
  {
    kind + "-" + NatToString(index)
  }

  /** `eventKey.split('-')[0]` and the entry index that `eventKey.split('-')[1]` names. */
  function ParseEventKey(key: string): (string, Option<nat>)
  {
    var parts := Split(key, '-');
    (parts[0], if |parts| >= 2 then ParseNat(parts[1]) else None)
  }

  lemma EventKeyReadsBack(kind: string, index: nat)
    requires '-' !in kind
    ensures ParseEventKey(EventKey(kind, index)) == (kind, Some(index))
  {
    var digits := NatToString(index);
    assert '-' !in digits by {
      forall k | 0 <= k < |digits| ensures digits[k] != '-' { assert IsDigit(digits[k]); }
    }
    assert EventKey(kind, index) == kind + ['-'] + digits;
    SplitPrefix(kind, digits, '-');
    SplitNoSep(digits, '-');
    ParseNatToString(index);
  }

  // ---------------------------------------------------------------------------------------
  // The line the page puts in the cart.

  /** The copy of the product the add button sends: it carries the working selection, the
      unit price, the first image (if any) and the variantId. */
  function CartLine(product: Product, vs: seq<Variation>, ps: seq<Personalization>): (line: AddedProduct)
    requires Priceable(vs)
    ensures line.id == product.id && line.name == product.name && line.price == product.price
    ensures line.countInStock == product.countInStock
    ensures line.variations == vs && line.personalizations == ps
    ensures Some(line.totalPrice) == UnitPrice(product.price, vs, ps)
    ensures line.image == if |product.images| > 0 then Some(product.images[0]) else None
    ensures line.variantId == VariantId(vs, ps)
  {
    AddedProduct(product.id, product.name, if |product.images| > 0 then Some(product.images[0]) else None,
                 product.price, product.countInStock, vs, ps, VariantId(vs, ps),
                 UnitPrice(product.price, vs, ps).value)
  }

  /** The page's working state once the product has loaded. The product itself is never
      changed: the page edits its own copies of the variations and personalizations. */
  class ProductPage {
    const product: Product
    var selectedVariations: seq<Variation>
    var selectedPersonalizations: seq<Personalization>
    var imageIndex: int
    var qty: nat

    /** The state after the product has loaded: deep copies of its entries, the first
        image and a quantity of 1. */
    constructor(p: Product)
      ensures product == p && selectedVariations == p.variations && selectedPersonalizations == p.personalizations
      ensures imageIndex == 0 && qty == 1
    {
      product := p;
      selectedVariations := p.variations;
      selectedPersonalizations := p.personalizations;
      imageIndex := 0;
      qty := 1;
    }

    /** `handleSelect(selectedIndex)`: the carousel moves only to a non-negative index. */
    method HandleSelect(selectedIndex: int)
      modifies this
      ensures imageIndex == if selectedIndex >= 0 then selectedIndex else old(imageIndex)
      ensures selectedVariations == old(selectedVariations) && selectedPersonalizations == old(selectedPersonalizations)
      ensures qty == old(qty)
    {
      if selectedIndex >= 0 {
        imageIndex := selectedIndex;
      }
    }

    /** The toggle of variation `i`: its flag flips, and nothing else changes. */
    method ToggleVariation(i: nat)
      requires i < |selectedVariations|
      modifies this
      ensures selectedVariations == old(selectedVariations)[i := FlipVariation(old(selectedVariations)[i])]
      ensures selectedPersonalizations == old(selectedPersonalizations)
      ensures imageIndex == old(imageIndex) && qty == old(qty)
    {
      selectedVariations := selectedVariations[i := FlipVariation(selectedVariations[i])];
    }

    /** The toggle of personalization `i`: switching it on shows its linked image when it
        has one, and its flag flips. */
    method TogglePersonalization(i: nat)
      requires i < |selectedPersonalizations|
      modifies this
      ensures selectedPersonalizations == old(selectedPersonalizations)[i := FlipPersonalization(old(selectedPersonalizations)[i])]
      ensures selectedVariations == old(selectedVariations)
      ensures var p := old(selectedPersonalizations)[i];
        imageIndex == if !p.isSelected && p.linkedImage.Some? && p.linkedImage.value >= 0 then p.linkedImage.value else old(imageIndex)
      ensures qty == old(qty)
    {
      var p := selectedPersonalizations[i];
      if !p.isSelected && p.linkedImage.Some? {
        HandleSelect(p.linkedImage.value);
      }
      selectedPersonalizations := selectedPersonalizations[i := FlipPersonalization(p)];
    }

    /** An event key whose entry exists, for the two kinds the toggle knows. */
    predicate KeyInRange(key: string)
      reads this
    {
      var (kind, index) := ParseEventKey(key);
      (kind == "variation" ==> index.Some? && index.value < |selectedVariations|)
      && (kind == "personalization" ==> index.Some? && index.value < |selectedPersonalizations|)
    }

    /** The toggle handler for an event key: the kind picks the list, the number the entry;
        a key of any other kind changes nothing. */
    method Toggle(key: string)
      requires KeyInRange(key)
      modifies this
      ensures var (kind, index) := ParseEventKey(key);
        (kind == "variation" ==>
          selectedVariations == old(selectedVariations)[index.value := FlipVariation(old(selectedVariations)[index.value])]
          && selectedPersonalizations == old(selectedPersonalizations) && imageIndex == old(imageIndex))
        && (kind == "personalization" ==>
          selectedPersonalizations == old(selectedPersonalizations)[index.value := FlipPersonalization(old(selectedPersonalizations)[index.value])]
          && selectedVariations == old(selectedVariations)
          && var p := old(selectedPersonalizations)[index.value];
             imageIndex == if !p.isSelected && p.linkedImage.Some? && p.linkedImage.value >= 0 then p.linkedImage.value else old(imageIndex))
        && (kind != "variation" && kind != "personalization" ==>
          selectedVariations == old(selectedVariations) && selectedPersonalizations == old(selectedPersonalizations)
          && imageIndex == old(imageIndex))
      ensures qty == old(qty)
    {
      var (kind, index) := ParseEventKey(key);
      if kind == "variation" {
        ToggleVariation(index.value);
      }
      if kind == "personalization" {
        TogglePersonalization(index.value);
      }
    }

    /** The option select of variation `i`: option `j` becomes the selected one, and the
        carousel shows its linked image when it has one. */
    method SelectOption(i: nat, j: nat)
      requires i < |selectedVariations| && j < |selectedVariations[i].options|
      modifies this
      ensures selectedVariations == old(selectedVariations)[i := old(selectedVariations)[i].(selectedOption := j)]
      ensures selectedPersonalizations == old(selectedPersonalizations)
      ensures var o := old(selectedVariations)[i].options[j];
        imageIndex == if o.linkedImage.Some? && o.linkedImage.value >= 0 then o.linkedImage.value else old(imageIndex)
      ensures qty == old(qty)
    {
      var o := selectedVariations[i].options[j];
      if o.linkedImage.Some? {
        HandleSelect(o.linkedImage.value);
      }
      selectedVariations := selectedVariations[i := selectedVariations[i].(selectedOption := j)];
    }

    /** The text field of personalization `i`. */
    method SetPersonalizationValue(i: nat, value: string)
      requires i < |selectedPersonalizations|
      modifies this
      ensures selectedPersonalizations == old(selectedPersonalizations)[i := old(selectedPersonalizations)[i].(value := value)]
      ensures selectedVariations == old(selectedVariations) && imageIndex == old(imageIndex) && qty == old(qty)
    {
      selectedPersonalizations := selectedPersonalizations[i := selectedPersonalizations[i].(value := value)];
    }

    /** The quantity select. */
    method SetQty(n: nat)
      modifies this
      ensures qty == n
      ensures selectedVariations == old(selectedVariations) && selectedPersonalizations == old(selectedPersonalizations)
      ensures imageIndex == old(imageIndex)
    {
      qty := n;
    }

    /** `addToCartHandler`: the page's configured line goes to the cart with the chosen
        quantity. The page prices its selection on every render, so a selection that
        cannot be priced never reaches the button. */
    method AddToCartHandler(store: CartStore)
      requires store.Valid() && Priceable(selectedVariations)
      modifies store
      ensures store.Valid()
      ensures store.state == Reduce(old(store.state),
        AddItem(AddToCartPayload(CartLine(product, selectedVariations, selectedPersonalizations), qty)))
    {
      store.AddToCart(CartLine(product, selectedVariations, selectedPersonalizations), qty);
    }
  }
}
