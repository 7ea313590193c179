/** The shop page: the category names it shows, capitalized, and its title. */
module ShopScreen {
  import opened Js
  import opened Strings
  import opened RouteParams
  import opened ProductController

  /** `word.charAt(0).toUpperCase() + word.slice(1)`. */
  function CapitalizeWord(w: string): string
  {
    if w == "" then "" else [Upper(w[0])] + w[1..]
  }

  function CapitalizeWords(words: seq<string>): (r: seq<string>)
    ensures |r| == |words| && forall i :: 0 <= i < |words| ==> r[i] == CapitalizeWord(words[i])
  {
    seq(|words|, i requires 0 <= i < |words| => CapitalizeWord(words[i]))
  }

  /** `capitalize(s)`: '' for anything that is not a string; otherwise the words between
      single spaces each get an upper-case first letter. */
  function Capitalize(s: Option<string>): (r: string)
    ensures s.None? ==> r == ""
  {
    if s.None? then "" else Join(CapitalizeWords(Split(s.value, ' ')), ' ')
  }

  /** The same result written character by character: a character is upper-cased exactly
      when it starts the text or follows a space. */
  function Caps(s: string, atStart: bool): (r: string)
    ensures |r| == |s|
  {
    if |s| == 0 then ""
    else [if atStart then Upper(s[0]) else s[0]] + Caps(s[1..], s[0] == ' ')
  }

  lemma {:induction false} CapsNoSpace(v: string)
    requires ' ' !in v
    ensures Caps(v, false) == v
    decreases |v|
  {
    if |v| > 0 {
      assert v[0] in v;
      assert ' ' !in v[1..] by {
        forall k | 0 <= k < |v| - 1 ensures v[1..][k] != ' ' { assert v[1..][k] == v[k + 1]; }
      }
      CapsNoSpace(v[1..]);
      assert v == [v[0]] + v[1..];
    }
  }

  lemma {:induction false} CapsAppend(a: string, b: string, atStart: bool)
    requires ' ' !in a
    ensures Caps(a + [' '] + b, atStart) == Caps(a, atStart) + [' '] + Caps(b, true)
    decreases |a|
  {
    var s := a + [' '] + b;
    if |a| == 0 {
      assert s[1..] == b;
    } else {
      assert a[0] in a;
      assert s[1..] == a[1..] + [' '] + b;
      assert ' ' !in a[1..] by {
        forall k | 0 <= k < |a| - 1 ensures a[1..][k] != ' ' { assert a[1..][k] == a[k + 1]; }
      }
      CapsAppend(a[1..], b, a[0] == ' ');
    }
  }

  lemma {:induction false} CapsJoin(words: seq<string>)
    requires |words| >= 1 && forall i :: 0 <= i < |words| ==> ' ' !in words[i]
    ensures Caps(Join(words, ' '), true) == Join(CapitalizeWords(words), ' ')
    decreases |words|
  {
    var w := words[0];
    if |w| > 0 {
      assert w[0] in w;
      assert ' ' !in w[1..] by {
        forall k | 0 <= k < |w| - 1 ensures w[1..][k] != ' ' { assert w[1..][k] == w[k + 1]; }
      }
      CapsNoSpace(w[1..]);
    }
    assert Caps(w, true) == CapitalizeWord(w);
    if |words| > 1 {
      CapsJoin(words[1..]);
      CapsAppend(w, Join(words[1..], ' '), true);
      assert CapitalizeWords(words)[1..] == CapitalizeWords(words[1..]);
    }
  }

  lemma CapitalizeIsCaps(s: string)
    ensures Capitalize(Some(s)) == Caps(s, true)
  {
    JoinSplit(s, ' ');
    CapsJoin(Split(s, ' '));
  }

  lemma {:induction false} CapsAt(s: string, atStart: bool, i: nat)
    requires i < |s|
    ensures Caps(s, atStart)[i] == if (if i == 0 then atStart else s[i - 1] == ' ') then Upper(s[i]) else s[i]
    decreases i
  {
    if i > 0 {
      CapsAt(s[1..], s[0] == ' ', i - 1);
    }
  }

  /** Capitalizing keeps the length and the spaces, and upper-cases exactly the first
      character and every character after a space. */
  lemma CapitalizeShape(s: string)
    ensures |Capitalize(Some(s))| == |s|
    ensures forall i :: 0 <= i < |s| ==>
              Capitalize(Some(s))[i] == if i == 0 || s[i - 1] == ' ' then Upper(s[i]) else s[i]
    ensures forall i :: 0 <= i < |s| ==> (Capitalize(Some(s))[i] == ' ' <==> s[i] == ' ')
  {
    CapitalizeIsCaps(s);
    forall i | 0 <= i < |s|
      ensures Capitalize(Some(s))[i] == if i == 0 || s[i - 1] == ' ' then Upper(s[i]) else s[i]
      ensures Capitalize(Some(s))[i] == ' ' <==> s[i] == ' '
    {
      CapsAt(s, true, i);
      assert Upper(s[i]) == ' ' <==> s[i] == ' ';
    }
  }

  lemma {:induction false} CapsIdempotent(s: string, atStart: bool)
    ensures Caps(Caps(s, atStart), atStart) == Caps(s, atStart)
    decreases |s|
  {
    if |s| > 0 {
      CapsIdempotent(s[1..], s[0] == ' ');
      var c := Caps(s, atStart);
      assert c[1..] == Caps(s[1..], s[0] == ' ');
      assert (c[0] == ' ') == (s[0] == ' ');
    }
  }

  /** Capitalizing a capitalized text changes nothing. */
  lemma CapitalizeIdempotent(s: string)
    ensures Capitalize(Some(Capitalize(Some(s)))) == Capitalize(Some(s))
  {
    CapitalizeIsCaps(s);
    CapitalizeIsCaps(Capitalize(Some(s)));
    CapsIdempotent(s, true);
  }

  /** The page title: "Category - Sub" with a sub-category, "Category" with only a category,
      and "Shop" otherwise. */
  function ShopTitle(category: string, subCategory: string): (title: string)
    ensures |title| > 0
    ensures subCategory != "" ==> title == Capitalize(Some(category)) + " - " + Capitalize(Some(subCategory))
    ensures subCategory == "" && category != "" ==> title == Capitalize(Some(category))
    ensures subCategory == "" && category == "" ==> title == "Shop"
  {
    CapitalizeShape(category);
    CapitalizeShape(subCategory);
    if subCategory != "" then Capitalize(Some(category)) + " - " + Capitalize(Some(subCategory))
    else if category != "" then Capitalize(Some(category))
    else "Shop"
  }

  /** Two words: each is capitalized on its own. */
  lemma CapitalizeTwoWords(a: string, b: string)
    requires ' ' !in a && ' ' !in b
    ensures Capitalize(Some(a + " " + b)) == CapitalizeWord(a) + " " + CapitalizeWord(b)
  {
    SplitPrefix(a, b, ' ');
    SplitNoSep(b, ' ');
    assert a + " " + b == a + [' '] + b;
    assert Split(a + " " + b, ' ') == [a, b];
    var words := CapitalizeWords([a, b]);
    assert words == [CapitalizeWord(a), CapitalizeWord(b)];
    JoinCons(CapitalizeWord(a), [CapitalizeWord(b)], ' ');
    assert [CapitalizeWord(a)] + [CapitalizeWord(b)] == words;
  }

  /** A two-word category route such as `/shop/greeting-cards` is titled "Greeting Cards". */
  lemma TwoWordCategoryTitle(a: string, b: string)
    requires ' ' !in a && ' ' !in b && '-' !in a && '-' !in b
    ensures ShopTitle(ParamName(Some(a + "-" + b)), ParamName(None)) == CapitalizeWord(a) + " " + CapitalizeWord(b)
  {
    var name := ParamName(Some(a + "-" + b));
    assert name == a + " " + b by {
      forall i | 0 <= i < |name| ensures name[i] == (a + " " + b)[i] {
        if i < |a| {
          assert (a + "-" + b)[i] == a[i];
        } else if i > |a| {
          assert (a + "-" + b)[i] == b[i - |a| - 1];
        }
      }
    }
    CapitalizeTwoWords(a, b);
  }

  /** A list page opened without any query asks for page "1", which the API reads as page 1. */
  lemma DefaultQueryIsFirstPage(category: Option<string>, subCategory: Option<string>)
    ensures var r := ReadListQuery(category, subCategory, None, None, None);
      r.keyword == "" && r.sort == "" && r.pageNumber == "1" && PageNumber(Some(r.pageNumber)) == 1
  {
    PageNumberOfDigits(1);
  }

  /** Choosing a sort on the shop page leaves the search and the page behind: the link holds
      only the sort, and a query whose only parameter is that sort reads no keyword and page 1. */
  lemma SortSelectResets(category: Option<string>, subCategory: Option<string>, value: string)
    requires value != ""
    ensures SortSelectLink("/shop", value) == "/shop?sort=" + value
    ensures var r := ReadListQuery(category, subCategory, None, None, Some(value));
      r.keyword == "" && r.pageNumber == "1" && r.sort == value
  {
  }
}
