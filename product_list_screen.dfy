/** The admin's product list: the kebab-case links of its category menu and its query. */
module ProductListScreen {
  import opened Js
  import opened Strings
  import opened RouteParams

  /** `kebabCase(s)`: every space becomes `-`, then the text is lower-cased. */
  function KebabCase(s: string): (r: string)
    ensures |r| == |s| && ' ' !in r
    ensures forall i :: 0 <= i < |s| ==> r[i] == if s[i] == ' ' then '-' else Lower(s[i])
  {
    var r := ToLower(ReplaceAll(s, ' ', '-'));
    assert forall i :: 0 <= i < |r| ==> r[i] != ' ';
    r
  }

  /** A name without dashes survives the trip through a route segment: the page reading the
      segment gets the name back, lower-cased. */
  lemma KebabRoundTrip(s: string)
    requires '-' !in s
    ensures ReplaceAll(KebabCase(s), '-', ' ') == ToLower(s)
    ensures s != "" ==> ParamName(Some(KebabCase(s))) == ToLower(s)
  {
    var k := KebabCase(s);
    forall i | 0 <= i < |s| ensures ReplaceAll(k, '-', ' ')[i] == ToLower(s)[i] {
      assert s[i] != '-' by { assert s[i] in s; }
    }
  }

  /** A name that already holds a dash does not come back: the dash returns as a space. */
  lemma KebabLosesDashes()
    ensures ReplaceAll(KebabCase("a-b"), '-', ' ') != ToLower("a-b")
  {
    assert ReplaceAll(KebabCase("a-b"), '-', ' ')[1] == ' ';
    assert ToLower("a-b")[1] == '-';
  }

  /** The list page's own query has the same defaults as the shop's. */
  lemma ListDefaults(category: Option<string>, subCategory: Option<string>)
    ensures ReadListQuery(category, subCategory, None, None, None) == ListQuery("", "1", ParamName(category), ParamName(subCategory), "")
  {
  }

  /** Choosing a sort keeps the path and replaces the whole query by the sort alone. */
  lemma SortSelectDropsQuery(pathname: string, value: string)
    ensures SortSelectLink(pathname, value)[..|pathname|] == pathname
    ensures SortSelectLink(pathname, value)[|pathname|..] == "?sort=" + value
  {
  }
}
