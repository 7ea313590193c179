/** A cart-line key that, unlike the `-`-joined variantId, tells every configuration apart.

    Each token is written on its own: an entry that does not count as a lone `-`, a counted
    value as a quote, its characters with `-` and `\` escaped by `\`, and a closing `-`. */
module VariantKey {
  import opened Js
  import opened Money
  import opened ProductModel
  import opened ProductScreen

  function EscapeChar(c: char): string
  {
    if c == '-' || c == '\\' then ['\\', c] else [c]
  }

  function Escape(s: string): string
  {
    if |s| == 0 then "" else EscapeChar(s[0]) + Escape(s[1..])
  }

  function EncodeToken(t: Option<string>): string
  {
    match t
    case None => "-"
    case Some(s) => "'" + Escape(s) + "-"
  }

  function Encode(ts: seq<Option<string>>): string
  {
    if |ts| == 0 then "" else EncodeToken(ts[0]) + Encode(ts[1..])
  }

  /** Reads an escaped text up to its closing `-`; returns the text and what follows. */
  function ReadBody(s: string): Option<(string, string)>
    decreases |s|
  {
    if |s| == 0 then None
    else if s[0] == '-' then Some(("", s[1..]))
    else if s[0] == '\\' then
      if |s| < 2 then None
      else match ReadBody(s[2..])
        case Some((body, rest)) => Some(([s[1]] + body, rest))
        case None => None
    else match ReadBody(s[1..])
      case Some((body, rest)) => Some(([s[0]] + body, rest))
      case None => None
  }

  function Decode(s: string): Option<seq<Option<string>>>
    decreases |s|
  {
    if |s| == 0 then Some([])
    else if s[0] == '-' then
      match Decode(s[1..])
      case Some(ts) => Some([None] + ts)
      case None => None
    else if s[0] == '\'' then
      match ReadBody(s[1..])
      case Some((body, rest)) =>
        if |rest| < |s| then
          match Decode(rest)
          case Some(ts) => Some([Some(body)] + ts)
          case None => None
        else None
      case None => None
    else None
  }

  lemma {:induction false} ReadBodyEscape(body: string, rest: string)
    ensures ReadBody(Escape(body) + "-" + rest) == Some((body, rest))
    decreases |body|
  {
    var s := Escape(body) + "-" + rest;
    if |body| == 0 {
      assert s == "-" + rest && s[1..] == rest;
    } else {
      ReadBodyEscape(body[1..], rest);
      var tail := Escape(body[1..]) + "-" + rest;
      assert s == EscapeChar(body[0]) + tail;
      if body[0] == '-' || body[0] == '\\' {
        assert s[0] == '\\' && s[1] == body[0] && s[2..] == tail;
      } else {
        assert s[0] == body[0] && s[1..] == tail;
      }
      assert [body[0]] + body[1..] == body;
    }
  }

  /** One token is read off the front of a key, and the rest is decoded as it would be alone. */
  lemma DecodeToken(t: Option<string>, rest: string)
    ensures Decode(EncodeToken(t) + rest) ==
      match Decode(rest)
      case Some(ts) => Some([t] + ts)
      case None => None
  {
    var s := EncodeToken(t) + rest;
    if t.None? {
      assert s == "-" + rest && s[1..] == rest;
    } else {
      var body := t.value;
      assert s == "'" + (Escape(body) + "-" + rest);
      assert s[1..] == Escape(body) + "-" + rest;
      ReadBodyEscape(body, rest);
      assert |rest| < |s|;
    }
  }

  /** Every sequence of tokens is read back from its key. */
  lemma {:induction false} DecodeEncode(ts: seq<Option<string>>)
    ensures Decode(Encode(ts)) == Some(ts)
    decreases |ts|
  {
    if |ts| > 0 {
      DecodeEncode(ts[1..]);
      DecodeToken(ts[0], Encode(ts[1..]));
      assert [ts[0]] + ts[1..] == ts;
    }
  }

  /** Different token sequences never share a key. */
  lemma EncodeInjective(ts1: seq<Option<string>>, ts2: seq<Option<string>>)
    requires Encode(ts1) == Encode(ts2)
    ensures ts1 == ts2
  {
    DecodeEncode(ts1);
    DecodeEncode(ts2);
  }

  /** The corrected line key of a selection. */
  function LineKey(vs: seq<Variation>, ps: seq<Personalization>): string
  {
    Encode(VariantTokens(vs, ps))
  }

  /** Two selections of the same product's entries. */
  predicate SameEntries(vs1: seq<Variation>, ps1: seq<Personalization>, vs2: seq<Variation>, ps2: seq<Personalization>)
  {
    |vs1| == |vs2| && |ps1| == |ps2|
    && (forall i :: 0 <= i < |vs1| ==> vs1[i].isOptional == vs2[i].isOptional && vs1[i].options == vs2[i].options)
    && (forall i :: 0 <= i < |ps1| ==> ps1[i].isOptional == ps2[i].isOptional && ps1[i].additionalPrice == ps2[i].additionalPrice)
  }

  lemma IntTextInjective(a: int, b: int)
    requires IntText(a) == IntText(b)
    ensures a == b
  {
    IntTextReadsBack(a);
    IntTextReadsBack(b);
  }

  lemma SameTokensSameChoices(vs1: seq<Variation>, ps1: seq<Personalization>, vs2: seq<Variation>, ps2: seq<Personalization>)
    requires SameEntries(vs1, ps1, vs2, ps2)
    requires VariantTokens(vs1, ps1) == VariantTokens(vs2, ps2)
    ensures SameChoices(vs1, ps1, vs2, ps2)
  {
    var t1 := VariantTokens(vs1, ps1);
    forall i | 0 <= i < |vs1| ensures SameVariationChoice(vs1[i], vs2[i]) {
      assert VariationToken(vs1[i]) == t1[i] == VariationToken(vs2[i]);
      if VariationActive(vs1[i]) {
        IntTextInjective(vs1[i].selectedOption, vs2[i].selectedOption);
      }
    }
    forall i | 0 <= i < |ps1| ensures SamePersonalizationChoice(ps1[i], ps2[i]) {
      assert PersonalizationToken(ps1[i]) == t1[|vs1| + i] == PersonalizationToken(ps2[i]);
    }
  }

  /** Selections of one product that share a key make the same choices, so they cost the
      same: a cart line keyed on it always holds one price. */
  lemma SameKeySameChoices(price: Pence, vs1: seq<Variation>, ps1: seq<Personalization>, vs2: seq<Variation>, ps2: seq<Personalization>)
    requires SameEntries(vs1, ps1, vs2, ps2)
    requires LineKey(vs1, ps1) == LineKey(vs2, ps2)
    ensures SameChoices(vs1, ps1, vs2, ps2)
    ensures UnitPrice(price, vs1, ps1) == UnitPrice(price, vs2, ps2)
  {
    EncodeInjective(VariantTokens(vs1, ps1), VariantTokens(vs2, ps2));
    SameTokensSameChoices(vs1, ps1, vs2, ps2);
    SameChoicesSameIdAndPrice(price, vs1, ps1, vs2, ps2);
  }
}
