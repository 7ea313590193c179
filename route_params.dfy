/** The route and query parameters the two product-list pages read, and the link their sort
    menu follows. */
module RouteParams {
  import opened Js
  import opened Strings
  import opened Decimal

  /** A `:category` or `:subCategory` route segment: every `-` becomes a space, and an absent
      or empty segment is the empty name. */
  function ParamName(param: Option<string>): (name: string)
    ensures '-' !in name
    ensures param.None? || param.value == "" ==> name == ""
    ensures param.Some? ==> |name| == |param.value|
    ensures param.Some? ==> forall i :: 0 <= i < |name| ==> name[i] == if param.value[i] == '-' then ' ' else param.value[i]
  {
    if param.Some? && param.value != "" then ReplaceAll(param.value, '-', ' ') else ""
  }

  /** What a list page asks the API for. */
  datatype ListQuery = ListQuery(keyword: string, pageNumber: string, category: string, subCategory: string, sort: string)

  /** The query of a list page: `q` and `sort` default to '', and the page number, sent as
      text, to 1. */
  function ReadListQuery(category: Option<string>, subCategory: Option<string>,
                         q: Option<string>, page: Option<string>, sort: Option<string>): (r: ListQuery)
    ensures r.category == ParamName(category) && r.subCategory == ParamName(subCategory)
    ensures r.keyword == OrString(q, "") && r.sort == OrString(sort, "")
    ensures r.pageNumber == (if page.Some? && page.value != "" then page.value else "1")
  {
    ListQuery(OrString(q, ""), if page.Some? && page.value != "" then page.value else NatToString(1),
              ParamName(category), ParamName(subCategory), OrString(sort, ""))
  }

  /** `sortSelectHandler(value)`: the page's path with only the chosen sort. */
  function SortSelectLink(pathname: string, value: string): string
  {
    pathname + "?sort=" + value
  }
}
