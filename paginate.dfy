/** The pager under product lists: one link per page, each keeping the search and the sort. */
module Paginate {
  import opened Js
  import opened Decimal

  /** The link of the page at index `x` (page `x + 1`) before its page number: the page's own
      path, then `sort` and `q` when they are non-empty, in that order. */
  function LinkPrefix(pathname: string, keyword: string, sort: string): string
  {
    if keyword == "" && sort == "" then pathname + "?"
    else if keyword == "" then pathname + "?sort=" + sort + "&"
    else if sort == "" then pathname + "?q=" + keyword + "&"
    else pathname + "?sort=" + sort + "&q=" + keyword + "&"
  }

  /** `generateLink(x)`: the page parameter comes last and is `x + 1`. */
  function GenerateLink(pathname: string, keyword: string, sort: string, x: nat): (link: string)
    ensures keyword == "" && sort == "" ==> link == pathname + "?page=" + NatToString(x + 1)
    ensures keyword == "" && sort != "" ==> link == pathname + "?sort=" + sort + "&page=" + NatToString(x + 1)
    ensures keyword != "" && sort == "" ==> link == pathname + "?q=" + keyword + "&page=" + NatToString(x + 1)
    ensures keyword != "" && sort != "" ==>
              link == pathname + "?sort=" + sort + "&q=" + keyword + "&page=" + NatToString(x + 1)
  {
    LinkPrefix(pathname, keyword, sort) + "page=" + NatToString(x + 1)
  }

  /** The page number reads back from the end of the link, so different pages get different links. */
  lemma LinkNamesItsPage(pathname: string, keyword: string, sort: string, x: nat, y: nat)
    ensures var link := GenerateLink(pathname, keyword, sort, x);
      var n := |NatToString(x + 1)|;
      ParseNat(link[|link| - n..]) == Some(x + 1)
    ensures GenerateLink(pathname, keyword, sort, x) == GenerateLink(pathname, keyword, sort, y) ==> x == y
  {
    var link := GenerateLink(pathname, keyword, sort, x);
    var n := |NatToString(x + 1)|;
    assert link[|link| - n..] == NatToString(x + 1);
    ParseNatToString(x + 1);
    if GenerateLink(pathname, keyword, sort, x) == GenerateLink(pathname, keyword, sort, y) {
      var p := LinkPrefix(pathname, keyword, sort) + "page=";
      assert NatToString(x + 1) == link[|p|..];
      assert NatToString(y + 1) == GenerateLink(pathname, keyword, sort, y)[|p|..];
      ParseNatToString(y + 1);
    }
  }

  /** One item of the pager. */
  datatype PageLink = PageLink(number: nat, target: string, active: bool)

  /** The rendered pager: nothing unless there are at least two pages, otherwise the pages
      1 to `pages` in order, the item for `page` marked active. */
  function PageLinks(pages: nat, page: int, pathname: string, keyword: string, sort: string): (r: seq<PageLink>)
    ensures pages <= 1 ==> r == []
    ensures pages > 1 ==> |r| == pages
    ensures forall x :: 0 <= x < |r| ==>
              r[x].number == x + 1 && r[x].target == GenerateLink(pathname, keyword, sort, x) && (r[x].active <==> x + 1 == page)
  {
    if pages <= 1 then []
    else seq(pages, x requires 0 <= x < pages => PageLink(x + 1, GenerateLink(pathname, keyword, sort, x), x + 1 == page))
  }

  /** Exactly one item is active when the current page is one of the pages, and none otherwise. */
  lemma OneActivePage(pages: nat, page: int, pathname: string, keyword: string, sort: string)
    requires pages > 1
    ensures var r := PageLinks(pages, page, pathname, keyword, sort);
      (1 <= page <= pages ==> r[page - 1].active)
      && (forall x, y :: 0 <= x < |r| && 0 <= y < |r| && r[x].active && r[y].active ==> x == y)
      && (page < 1 || page > pages ==> forall x :: 0 <= x < |r| ==> !r[x].active)
  {
  }
}
