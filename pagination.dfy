/** The pagination bar: the query string it carries from page to page, the
    page links it pushes, and when its Previous and Next buttons are
    disabled. */
module Pagination {
  import opened Js
  import opened UrlParams

  /** The filters the bar is given (`filters`); absent values are "". */
  datatype LinkFilters = LinkFilters(mediaType: string, year: string, month: string,
                                     genre: string, country: string)

  /** The pair for a filter that is set, nothing for one that is not. */
  function Opt(name: string, value: string): seq<Pair>
  {
    if value != "" then [(name, value)] else []
  }

  /** The pairs a page link carries besides the page: each of the five
      filters that is set, in the order type, year, month, genre, country. */
  function Carried(f: LinkFilters): (r: seq<Pair>)
    ensures |r| <= 5
    ensures forall i :: 0 <= i < |r| ==> r[i].0 in LinkNames && r[i].1 != ""
  {
    Opt("type", f.mediaType) + Opt("year", f.year) + Opt("month", f.month)
      + Opt("genre", f.genre) + Opt("country", f.country)
  }

  const LinkNames: set<string> := {"type", "year", "month", "genre", "country"}

  /** `if (value) searchParams.set(name, value)`. */
  function SetIfPresent(es: seq<Pair>, name: string, value: string): (r: seq<Pair>)
    ensures value == "" ==> r == es
    ensures value != "" ==> Get(r, name) == Some(value)
    ensures forall other :: other != name ==> Get(r, other) == Get(es, other)
  {
    if value != "" then
      SetPairGet(es, name, value);
      SetPair(es, name, value)
    else es
  }

  lemma SetIfPresentFresh(es: seq<Pair>, used: set<string>, name: string, value: string)
    requires forall i :: 0 <= i < |es| ==> es[i].0 in used
    requires name !in used
    ensures SetIfPresent(es, name, value) == es + Opt(name, value)
    ensures forall i :: 0 <= i < |es + Opt(name, value)| ==> (es + Opt(name, value))[i].0 in used + {name}
  {
    if value != "" {
      AppendFresh(es, used, name, value);
    } else {
      assert es + Opt(name, value) == es;
    }
  }

  /** The five conditional `set` calls on an empty query build `Carried`. */
  lemma CarriedBuild(f: LinkFilters)
    ensures SetIfPresent(SetIfPresent(SetIfPresent(SetIfPresent(SetIfPresent(
              [], "type", f.mediaType), "year", f.year), "month", f.month), "genre", f.genre),
              "country", f.country)
         == Carried(f)
  {
    var s0: seq<Pair> := [];
    var t1 := SetIfPresent(s0, "type", f.mediaType);
    SetIfPresentFresh(s0, {}, "type", f.mediaType);
    var s1 := s0 + Opt("type", f.mediaType);
    var t2 := SetIfPresent(t1, "year", f.year);
    SetIfPresentFresh(s1, {"type"}, "year", f.year);
    var s2 := s1 + Opt("year", f.year);
    var t3 := SetIfPresent(t2, "month", f.month);
    SetIfPresentFresh(s2, {"type", "year"}, "month", f.month);
    var s3 := s2 + Opt("month", f.month);
    var t4 := SetIfPresent(t3, "genre", f.genre);
    SetIfPresentFresh(s3, {"type", "year", "month"}, "genre", f.genre);
    var s4 := s3 + Opt("genre", f.genre);
    var t5 := SetIfPresent(t4, "country", f.country);
    SetIfPresentFresh(s4, {"type", "year", "month", "genre"}, "country", f.country);
    assert t5 == s4 + Opt("country", f.country);
  }

  lemma GetOpt(name: string, value: string, other: string)
    ensures Get(Opt(name, value), other) == if other == name && value != "" then Some(value) else None
  {
  }

  lemma GetAppend(a: seq<Pair>, b: seq<Pair>, name: string)
    ensures Get(a + b, name) == if Get(a, name).Some? then Get(a, name) else Get(b, name)
    decreases |a|
  {
    if a == [] {
      assert a + b == b;
    } else {
      assert (a + b)[0] == a[0] && (a + b)[1..] == a[1..] + b;
      GetAppend(a[1..], b, name);
    }
  }

  function OptValue(value: string): Option<string>
  {
    if value != "" then Some(value) else None
  }

  /** A link reads each of the five filters back when it is set, and carries
      no other name: the rating, provider, TV category and query of the
      listing are not kept from page to page. */
  lemma {:induction false} CarriedGet(f: LinkFilters, name: string)
    ensures name == "type" ==> Get(Carried(f), name) == OptValue(f.mediaType)
    ensures name == "year" ==> Get(Carried(f), name) == OptValue(f.year)
    ensures name == "month" ==> Get(Carried(f), name) == OptValue(f.month)
    ensures name == "genre" ==> Get(Carried(f), name) == OptValue(f.genre)
    ensures name == "country" ==> Get(Carried(f), name) == OptValue(f.country)
    ensures name !in LinkNames ==> Get(Carried(f), name) == None
  {
    var a := Opt("type", f.mediaType);
    var b := Opt("year", f.year);
    var c := Opt("month", f.month);
    var d := Opt("genre", f.genre);
    var e := Opt("country", f.country);
    GetAppend(a + b + c + d, e, name);
    GetAppend(a + b + c, d, name);
    GetAppend(a + b, c, name);
    GetAppend(a, b, name);
    GetOpt("type", f.mediaType, name);
    GetOpt("year", f.year, name);
    GetOpt("month", f.month, name);
    GetOpt("genre", f.genre, name);
    GetOpt("country", f.country, name);
  }

  /** The first page link appends the page, last, to the carried filters. */
  lemma FirstLink(f: LinkFilters, page: int)
    ensures SetPair(Carried(f), "page", IntToString(page)) == Carried(f) + [("page", IntToString(page))]
    ensures Get(SetPair(Carried(f), "page", IntToString(page)), "page") == Some(IntToString(page))
    ensures ParseInt(IntToString(page)) == Some(page)
  {
    AppendFresh(Carried(f), LinkNames, "page", IntToString(page));
    SetPairGet(Carried(f), "page", IntToString(page));
    ParseIntOfIntToString(page);
  }

  /** The first link's query string: the carried filters' query string, then
      the page as its last field. */
  lemma FirstLinkText(f: LinkFilters, page: int, encode: string -> string)
    ensures Serialize(SetPair(Carried(f), "page", IntToString(page)), encode)
         == if Carried(f) == [] then encode("page") + "=" + encode(IntToString(page))
            else Serialize(Carried(f), encode) + "&" + encode("page") + "=" + encode(IntToString(page))
  {
    SerializeFreshSet(Carried(f), LinkNames, "page", IntToString(page), encode);
  }

  /** `Without` removes all of a name, so removing it again changes nothing. */
  lemma {:induction false} WithoutTwice(es: seq<Pair>, name: string)
    ensures Without(Without(es, name), name) == Without(es, name)
  {
    if es != [] {
      WithoutTwice(es[1..], name);
      if es[0].0 != name {
        assert ([es[0]] + Without(es[1..], name))[1..] == Without(es[1..], name);
      }
    }
  }

  /** Setting the page again replaces the page of the previous link: a later
      `goToPage` wins and nothing else changes. */
  lemma {:induction false} SetPairTwice(es: seq<Pair>, name: string, a: string, b: string)
    ensures SetPair(SetPair(es, name, a), name, b) == SetPair(es, name, b)
  {
    if es == [] {
    } else if es[0].0 == name {
      var rest := Without(es[1..], name);
      assert ([(name, a)] + rest)[1..] == rest;
      WithoutTwice(es[1..], name);
    } else {
      SetPairTwice(es[1..], name, a, b);
      assert ([es[0]] + SetPair(es[1..], name, a))[1..] == SetPair(es[1..], name, a);
    }
  }

  /** `disabled={currentPage <= 1}`. */
  predicate PrevDisabled(currentPage: int)
  {
    currentPage <= 1
  }

  /** `disabled={currentPage >= totalPages}`. */
  predicate NextDisabled(currentPage: int, totalPages: int)
  {
    currentPage >= totalPages
  }

  /** The page the Previous button goes to, when it is enabled: never below
      page 1. */
  function PrevTarget(currentPage: int): (r: Option<int>)
    ensures r.None? <==> PrevDisabled(currentPage)
    ensures r.Some? ==> r.value == currentPage - 1 && r.value >= 1
  {
    if PrevDisabled(currentPage) then None else Some(currentPage - 1)
  }

  /** The page the Next button goes to, when it is enabled: never past the
      last page. */
  function NextTarget(currentPage: int, totalPages: int): (r: Option<int>)
    ensures r.None? <==> NextDisabled(currentPage, totalPages)
    ensures r.Some? ==> r.value == currentPage + 1 && r.value <= totalPages
  {
    if NextDisabled(currentPage, totalPages) then None else Some(currentPage + 1)
  }

  /** Within the listing, an enabled button always leads to a page of it. */
  lemma TargetsInRange(currentPage: int, totalPages: int)
    requires 1 <= currentPage <= totalPages
    ensures PrevTarget(currentPage).Some? ==> 1 <= PrevTarget(currentPage).value <= totalPages
    ensures NextTarget(currentPage, totalPages).Some? ==>
      1 <= NextTarget(currentPage, totalPages).value <= totalPages
    ensures totalPages == 1 ==> PrevTarget(currentPage).None? && NextTarget(currentPage, totalPages).None?
  {
  }

  class Pager {
    const currentPage: int
    const totalPages: int
    const params: SearchParams

    /** The bar as rendered: a new query holding each set filter. */
    constructor (currentPage: int, totalPages: int, filters: LinkFilters)
      ensures this.currentPage == currentPage && this.totalPages == totalPages
      ensures fresh(params) && params.entries == Carried(filters)
    {
      var sp := new SearchParams();
      if filters.mediaType != "" { sp.Set("type", filters.mediaType); }
      if filters.year != "" { sp.Set("year", filters.year); }
      if filters.month != "" { sp.Set("month", filters.month); }
      if filters.genre != "" { sp.Set("genre", filters.genre); }
      if filters.country != "" { sp.Set("country", filters.country); }
      CarriedBuild(filters);
      this.currentPage := currentPage;
      this.totalPages := totalPages;
      params := sp;
    }

    /** `goToPage`: sets the page on the bar's query and returns the link
        that is pushed. */
    method GoToPage(page: int, encode: string -> string) returns (url: string)
      modifies params
      ensures params.entries == SetPair(old(params.entries), "page", IntToString(page))
      ensures url == "/?" + Serialize(params.entries, encode)
    {
      params.Set("page", IntToString(page));
      url := "/?" + Serialize(params.entries, encode);
    }

    /** A click on Previous: no link while it is disabled. */
    method Previous(encode: string -> string) returns (url: Option<string>)
      modifies params
      ensures url.None? <==> PrevDisabled(currentPage)
      ensures url.None? ==> params.entries == old(params.entries)
      ensures url.Some? ==>
        && params.entries == SetPair(old(params.entries), "page", IntToString(currentPage - 1))
        && url.value == "/?" + Serialize(params.entries, encode)
    {
      var target := PrevTarget(currentPage);
      if target.Some? {
        var link := GoToPage(target.value, encode);
        url := Some(link);
      } else {
        url := None;
      }
    }

    /** A click on Next: no link while it is disabled. */
    method Next(encode: string -> string) returns (url: Option<string>)
      modifies params
      ensures url.None? <==> NextDisabled(currentPage, totalPages)
      ensures url.None? ==> params.entries == old(params.entries)
      ensures url.Some? ==>
        && params.entries == SetPair(old(params.entries), "page", IntToString(currentPage + 1))
        && url.value == "/?" + Serialize(params.entries, encode)
    {
      var target := NextTarget(currentPage, totalPages);
      if target.Some? {
        var link := GoToPage(target.value, encode);
        url := Some(link);
      } else {
        url := None;
      }
    }
  }
}
