/** The two products of the seed catalogue, as the product page first shows them, with the
    unit price and the variantId the page computes for them. */
module Fixtures {
  import opened Js
  import opened Strings
  import opened Decimal
  import opened Money
  import opened ProductModel
  import opened ProductScreen

  // ---------------------------------------------------------------------------------------
  // The birthday card: 3.25, two mandatory variations, one optional personalization.

  const CardSize := Variation("Size", false, false, 0,
    [VariationOption("A6", 0, Some(0)), VariationOption("Square", 25, Some(1))])
  const CardText := Variation("Text", false, false, 0,
    [VariationOption("Have a Wild Birthday", 0, None), VariationOption("No Text", 0, None),
     VariationOption("Happy Birthday", 0, None)])
  const CardName := Personalization("Add a name to the front of the card?", true, false,
    "For example \"Happy Birthday Emma\" or \" Have a wild birthday Emma\" ", 0, None)

  // ---------------------------------------------------------------------------------------
  // The phone: 599.99, an optional and a mandatory variation, an optional and a mandatory
  // personalization.

  const Greeting := "Welcome to your phone"
  const PhoneMemory := Variation("Additional Memory", true, false, 0,
    [VariationOption("512GB", 9000, None), VariationOption("1024GB", 20000, None)])
  const PhoneRam := Variation("Ram Size", false, false, 0,
    [VariationOption("3GB", 0, None), VariationOption("4GB", 5000, None)])
  const PhoneEngraving := Personalization("Engraving", true, false, "<your engraving text>", 6500, None)
  const PhoneGreeting := Personalization("Greeting Message", false, false, Greeting, 0, None)

  /** The card as first shown: the default size and text count, the name does not, so the
      price is the base price and the id holds the two option indexes and an empty token. */
  lemma CardDefaults()
    ensures UnitPrice(325, [CardSize, CardText], [CardName]) == Some(325)
    ensures VariantTokens([CardSize, CardText], [CardName]) == [Some("0"), Some("0"), None]
    ensures VariantId([CardSize, CardText], [CardName]) == "0-0-"
  {
    var vs := [CardSize, CardText];
    var ps := [CardName];
    UnitPriceIsSurchargeSum(325, vs, ps);
    assert VariationSurcharges(vs[1..]) == 0 by { assert vs[1..][1..] == []; }
    var ts := VariantTokens(vs, ps);
    assert NatToString(0) == "0";
    assert ts == [Some("0"), Some("0"), None];
    var texts := TokenTexts(ts);
    assert texts == ["0", "0", ""];
    JoinCons("0", ["0", ""], '-');
    JoinCons("0", [""], '-');
    assert ["0", "0", ""] == ["0"] + ["0", ""] && ["0", ""] == ["0"] + [""];
  }

  /** The square card costs its 25p surcharge more. */
  lemma SquareCardPrice()
    ensures UnitPrice(325, [CardSize.(selectedOption := 1), CardText], [CardName]) == Some(350)
  {
    var vs := [CardSize.(selectedOption := 1), CardText];
    UnitPriceIsSurchargeSum(325, vs, [CardName]);
    assert VariationSurcharges(vs[1..]) == 0 by { assert vs[1..][1..] == []; }
  }

  /** The phone as first shown: only the mandatory RAM size and greeting count. Its id has
      empty tokens for the optional memory and engraving. */
  lemma PhoneDefaults()
    ensures UnitPrice(59999, [PhoneMemory, PhoneRam], [PhoneEngraving, PhoneGreeting]) == Some(59999)
    ensures VariantTokens([PhoneMemory, PhoneRam], [PhoneEngraving, PhoneGreeting]) == [None, Some("0"), None, Some(Greeting)]
    ensures VariantId([PhoneMemory, PhoneRam], [PhoneEngraving, PhoneGreeting]) == "-0--" + Greeting
  {
    var vs := [PhoneMemory, PhoneRam];
    var ps := [PhoneEngraving, PhoneGreeting];
    UnitPriceIsSurchargeSum(59999, vs, ps);
    assert VariationSurcharges(vs[1..]) == 0 by { assert vs[1..][1..] == []; }
    assert PersonalizationSurcharges(ps[1..]) == 0 by { assert ps[1..][1..] == []; }
    var ts := VariantTokens(vs, ps);
    assert NatToString(0) == "0";
    assert ts == [None, Some("0"), None, Some(Greeting)];
    var texts := TokenTexts(ts);
    assert texts == ["", "0", "", Greeting];
    JoinCons("", ["0", "", Greeting], '-');
    JoinCons("0", ["", Greeting], '-');
    JoinCons("", [Greeting], '-');
    assert ["", "0", "", Greeting] == [""] + ["0", "", Greeting];
    assert ["0", "", Greeting] == ["0"] + ["", Greeting];
    assert ["", Greeting] == [""] + [Greeting];
  }

  /** The phone with 4GB of RAM and an engraving: 599.99 + 50.00 + 65.00. */
  lemma PhoneUpgraded()
    ensures UnitPrice(59999, [PhoneMemory, PhoneRam.(selectedOption := 1)],
                      [PhoneEngraving.(isSelected := true), PhoneGreeting]) == Some(71499)
    ensures TotalPriceText(59999, [PhoneMemory, PhoneRam.(selectedOption := 1)],
                           [PhoneEngraving.(isSelected := true), PhoneGreeting]) == Some(AddDecimals(71499))
  {
    var vs := [PhoneMemory, PhoneRam.(selectedOption := 1)];
    var ps := [PhoneEngraving.(isSelected := true), PhoneGreeting];
    UnitPriceIsSurchargeSum(59999, vs, ps);
    assert VariationSurcharges(vs[1..]) == 5000 by { assert vs[1..][1..] == []; }
    assert PersonalizationSurcharges(ps[1..]) == 0 by { assert ps[1..][1..] == []; }
  }
}
