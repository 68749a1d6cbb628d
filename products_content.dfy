/**
 * components/products/products-content.tsx: the product list's filter state
 * (category, sort, page), read from the URL's query on first render and
 * written back to the URL by every change handler.
 */
module ProductsContent {
  import opened Types
  import Numbers

  /** `URLSearchParams`: the name/value pairs in order. */
  type Params = seq<(string, string)>

  /** `params.get(key)`: the value of the first pair with that name. */
  function Get(ps: Params, key: string): (r: Option<string>)
    ensures r.None? <==> forall i :: 0 <= i < |ps| ==> ps[i].0 != key
    decreases |ps|
  {
    if ps == [] then None
    else if ps[0].0 == key then Some(ps[0].1)
    else Get(ps[1..], key)
  }

  /** The names of the pairs, in order. */
  function Names(ps: Params): (names: seq<string>)
    ensures |names| == |ps| && forall i :: 0 <= i < |ps| ==> names[i] == ps[i].0
  {
    seq(|ps|, i requires 0 <= i < |ps| => ps[i].0)
  }

  /** The pairs without any of the given name. */
  function Drop(ps: Params, key: string): Params
    decreases |ps|
  {
    if ps == [] then []
    else if ps[0].0 == key then Drop(ps[1..], key)
    else [ps[0]] + Drop(ps[1..], key)
  }

  /** The first pair of the given name gets the new value and the later ones go. */
  function ReplaceFirst(ps: Params, key: string, value: string): Params
    decreases |ps|
  {
    if ps == [] then []
    else if ps[0].0 == key then [(key, value)] + Drop(ps[1..], key)
    else [ps[0]] + ReplaceFirst(ps[1..], key, value)
  }

  lemma {:induction false} GetDrop(ps: Params, key: string, k: string)
    ensures Get(Drop(ps, key), k) == if k == key then None else Get(ps, k)
    decreases |ps|
  {
    if ps != [] {
      GetDrop(ps[1..], key, k);
      if ps[0].0 != key {
        assert ([ps[0]] + Drop(ps[1..], key))[1..] == Drop(ps[1..], key);
      }
    }
  }

  lemma {:induction false} GetReplaceFirst(ps: Params, key: string, value: string, k: string)
    requires Get(ps, key).Some?
    ensures Get(ReplaceFirst(ps, key, value), k) == if k == key then Some(value) else Get(ps, k)
    decreases |ps|
  {
    if ps[0].0 == key {
      assert ([(key, value)] + Drop(ps[1..], key))[1..] == Drop(ps[1..], key);
      GetDrop(ps[1..], key, k);
    } else {
      assert ([ps[0]] + ReplaceFirst(ps[1..], key, value))[1..] == ReplaceFirst(ps[1..], key, value);
      GetReplaceFirst(ps[1..], key, value, k);
    }
  }

  lemma {:induction false} GetAppend(ps: Params, key: string, value: string, k: string)
    requires Get(ps, key).None?
    ensures Get(ps + [(key, value)], k) == if k == key then Some(value) else Get(ps, k)
    decreases |ps|
  {
    if ps == [] {
    } else {
      assert (ps + [(key, value)])[1..] == ps[1..] + [(key, value)];
      GetAppend(ps[1..], key, value, k);
    }
  }

  lemma {:induction false} SetParamGets(ps: Params, key: string, value: string)
    ensures forall k :: Get(SetParamPairs(ps, key, value), k) == if k == key then Some(value) else Get(ps, k)
  {
    forall k
      ensures Get(SetParamPairs(ps, key, value), k) == if k == key then Some(value) else Get(ps, k)
    {
      if Get(ps, key).Some? {
        GetReplaceFirst(ps, key, value, k);
      } else {
        GetAppend(ps, key, value, k);
      }
    }
  }

  function SetParamPairs(ps: Params, key: string, value: string): Params {
    if Get(ps, key).Some? then ReplaceFirst(ps, key, value) else ps + [(key, value)]
  }

  /**
   * `params.set(key, value)`: afterwards `key` reads as `value` and every
   * other name reads as before; a new name goes at the end.
   */
  function SetParam(ps: Params, key: string, value: string): (r: Params)
    ensures Get(r, key) == Some(value)
    ensures forall k :: k != key ==> Get(r, k) == Get(ps, k)
    ensures Get(ps, key).None? ==> r == ps + [(key, value)]
  {
    SetParamGets(ps, key, value);
    SetParamPairs(ps, key, value)
  }

  /** The optional parameters in the order updateURL sets them. */
  function ExpectedNames(category: string, sort: string, page: int): seq<string> {
    (if category != "all" then ["category"] else [])
      + (if sort != "latest" then ["sort"] else [])
      + (if page != 1 then ["page"] else [])
  }

  /**
   * The parameters updateURL builds: each one only when it differs from its
   * default, in the order category, sort, page.
   */
  function QueryParams(category: string, sort: string, page: int): (ps: Params)
    ensures Get(ps, "category") == if category != "all" then Some(category) else None
    ensures Get(ps, "sort") == if sort != "latest" then Some(sort) else None
    ensures Get(ps, "page") == if page != 1 then Some(Numbers.IntToString(page)) else None
    ensures Names(ps) == ExpectedNames(category, sort, page)
  {
    var p0: Params := [];
    var p1 := if category != "all" then SetParam(p0, "category", category) else p0;
    var p2 := if sort != "latest" then SetParam(p1, "sort", sort) else p1;
    if page != 1 then SetParam(p2, "page", Numbers.IntToString(page)) else p2
  }

  function Pair(kv: (string, string)): string {
    kv.0 + "=" + kv.1
  }

  /** `params.toString()`: the pairs as `name=value`, joined by `&`. */
  function Serialize(ps: Params): (q: string)
    ensures q == [] <==> ps == []
    decreases |ps|
  {
    if ps == [] then []
    else if |ps| == 1 then Pair(ps[0])
    else Pair(ps[0]) + "&" + Serialize(ps[1..])
  }

  const ListPath: string := "/products"

  /** The URL pushed: the bare path when the query is empty. */
  function Href(ps: Params): (url: string)
    ensures ps == [] ==> url == ListPath
    ensures ps != [] ==> url == ListPath + "?" + Serialize(ps)
  {
    var q := Serialize(ps);
    if q == [] then ListPath else ListPath + "?" + q
  }

  /** The URL has no query exactly when all three selections are at their defaults. */
  lemma {:induction false} BareUrlExactlyForDefaults(category: string, sort: string, page: int)
    ensures Href(QueryParams(category, sort, page)) == ListPath <==> category == "all" && sort == "latest" && page == 1
  {
    var ps := QueryParams(category, sort, page);
    assert |Names(ps)| == |ExpectedNames(category, sort, page)|;
    if ps != [] {
      assert |Href(ps)| > |ListPath|;
    }
  }

  /** `searchParams.get("category") || "all"`. */
  function InitialCategory(v: Option<string>): (c: string)
    ensures c != ""
  {
    if v.None? || v.value == "" then "all" else v.value
  }

  /** `searchParams.get("sort") || "latest"`. */
  function InitialSort(v: Option<string>): (s: string)
    ensures s != ""
  {
    if v.None? || v.value == "" then "latest" else v.value
  }

  /** `Number(searchParams.get("page")) || 1`: a missing, empty, zero or non-numeric page is 1. */
  function InitialPage(v: Option<string>): (p: int)
    ensures p != 0
  {
    var n := if v.None? then Some(0) else Numbers.ParseNumber(v.value);
    if n.None? || n.value == 0 then 1 else n.value
  }

  /** The (category, sort, page) the component starts with, given the URL's parameters. */
  function ReadBack(ps: Params): (string, string, int) {
    (InitialCategory(Get(ps, "category")), InitialSort(Get(ps, "sort")), InitialPage(Get(ps, "page")))
  }

  /**
   * Reloading the URL that updateURL wrote restores the same selection,
   * exactly when no selection is a value the initialisers treat as missing
   * (an empty category or sort, page 0).
   */
  lemma {:induction false} ReadBackRoundTrip(category: string, sort: string, page: int)
    ensures ReadBack(QueryParams(category, sort, page)) == (category, sort, page) <==>
      category != "" && sort != "" && page != 0
  {
    if page != 1 {
      Numbers.ParseNumberOfIntToString(page);
    }
  }

  class ProductsView {
    var selectedCategory: string
    var selectedSort: string
    var currentPage: int
    /** The URLs handed to `router.push`, oldest first. */
    var pushed: seq<string>

    /** The initial state, read from the URL's parameters. */
    constructor (searchParams: Params)
      ensures (selectedCategory, selectedSort, currentPage) == ReadBack(searchParams)
      ensures pushed == []
    {
      selectedCategory := InitialCategory(Get(searchParams, "category"));
      selectedSort := InitialSort(Get(searchParams, "sort"));
      currentPage := InitialPage(Get(searchParams, "page"));
      pushed := [];
    }

    /** updateURL: push the URL of the given selection. */
    method UpdateUrl(category: string, sort: string, page: int)
      modifies this
      ensures pushed == old(pushed) + [Href(QueryParams(category, sort, page))]
      ensures selectedCategory == old(selectedCategory) && selectedSort == old(selectedSort)
      ensures currentPage == old(currentPage)
    {
      pushed := pushed + [Href(QueryParams(category, sort, page))];
    }

    /** handleCategoryChange: the new category, the page back to 1, the sort kept. */
    method HandleCategoryChange(category: string)
      modifies this
      ensures selectedCategory == category && selectedSort == old(selectedSort) && currentPage == 1
      ensures pushed == old(pushed) + [Href(QueryParams(category, old(selectedSort), 1))]
    {
      selectedCategory := category;
      currentPage := 1;
      UpdateUrl(category, selectedSort, 1);
    }

    /** handleSortChange: the new sort, the page back to 1, the category kept. */
    method HandleSortChange(sort: string)
      modifies this
      ensures selectedSort == sort && selectedCategory == old(selectedCategory) && currentPage == 1
      ensures pushed == old(pushed) + [Href(QueryParams(old(selectedCategory), sort, 1))]
    {
      selectedSort := sort;
      currentPage := 1;
      UpdateUrl(selectedCategory, sort, 1);
    }

    /** handlePageChange: the new page, category and sort kept. */
    method HandlePageChange(page: int)
      modifies this
      ensures currentPage == page
      ensures selectedCategory == old(selectedCategory) && selectedSort == old(selectedSort)
      ensures pushed == old(pushed) + [Href(QueryParams(old(selectedCategory), old(selectedSort), page))]
    {
      currentPage := page;
      UpdateUrl(selectedCategory, selectedSort, page);
    }
  }

  /** A category or sort change emits a URL without a page parameter and keeps the other selection. */
  lemma {:induction false} ResetUrlHasNoPage(category: string, sort: string)
    ensures Get(QueryParams(category, sort, 1), "page").None?
    ensures Get(QueryParams(category, sort, 1), "sort") == Get(QueryParams("all", sort, 1), "sort")
    ensures Get(QueryParams(category, sort, 1), "category") == Get(QueryParams(category, "latest", 1), "category")
  {
  }
}
