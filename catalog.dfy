/** The server side of the home page: `getData`, which turns the filter
    values into requests to the catalogue service and the answers into one
    page of items with a page count, and `fetchTrailer`, which attaches a
    trailer link to each item. The catalogue service is a parameter: a
    function from the request to its answer. */
module Catalog {
  import opened Js
  import opened Card
  import Sorting

  /** The filter values of one page view (all strings, already defaulted). */
  datatype Filters = Filters(
    mediaType: string,
    year: string,
    month: string,
    genre: string,
    country: string,
    rating: string,
    provider: string,
    tvCategory: string,
    query: string)

  datatype PageResult = PageResult(items: seq<MediaItem>, totalPages: int)

  // ---------------------------------------------------------------------
  // The month's date range

  predicate IsLeapYear(y: int)
  {
    y % 4 == 0 && (y % 100 != 0 || y % 400 == 0)
  }

  /** The length of month `m` (1 = January) of the Gregorian year `y`. */
  function DaysInMonth(y: int, m: int): (d: int)
    requires 1 <= m <= 12
    ensures 28 <= d <= 31
    ensures d == 29 <==> m == 2 && IsLeapYear(y)
    ensures d == 28 <==> m == 2 && !IsLeapYear(y)
  {
    if m == 2 then (if IsLeapYear(y) then 29 else 28)
    else if m == 4 || m == 6 || m == 9 || m == 11 then 30
    else 31
  }

  /** The year `new Date(year, ...)` means: 0 to 99 stand for 1900 to 1999. */
  function FullYear(year: int): (r: int)
    ensures !(0 <= r <= 99)
    ensures r == year || r == year + 1900
    ensures r == year <==> !(0 <= year <= 99)
  {
    if 0 <= year <= 99 then 1900 + year else year
  }

  /** `new Date(year, month, 0).getDate()`. Day 0 of the zero-based month
      `month` is the last day of the zero-based month `month - 1`; a month
      index outside 0..11 rolls over into the neighbouring years. */
  function EndDay(year: int, month: int): (d: int)
    ensures 28 <= d <= 31
  {
    var index := month - 1;
    DaysInMonth(FullYear(year) + index / 12, index % 12 + 1)
  }

  /** For a calendar month, the end day is the length of that month. */
  lemma EndDayOfCalendarMonth(year: int, month: int)
    requires 1 <= month <= 12
    ensures EndDay(year, month) == DaysInMonth(FullYear(year), month)
    ensures month == 2 ==> (EndDay(year, month) == 29 <==> IsLeapYear(FullYear(year)))
  {
  }

  /** An independent day count: the number of days from a fixed origin to the
      first day of month `m` of year `y`, counting years that begin in March
      so that the leap day is the last day of a counted year. */
  function FirstDayNumber(y: int, m: int): int
    requires 1 <= m <= 12
  {
    var marchYear := if m <= 2 then y - 1 else y;
    var marchMonth := if m <= 2 then m + 9 else m - 3;
    YearDays(marchYear) + MonthOffset(marchMonth)
  }

  /** Days before the counted year `y`. */
  function YearDays(y: int): int
  {
    365 * y + y / 4 - y / 100 + y / 400
  }

  /** Days before month `k` of a counted year (0 = March). */
  function MonthOffset(k: int): int
  {
    (153 * k + 2) / 5
  }

  lemma MonthOffsetTable()
    ensures MonthOffset(0) == 0 && MonthOffset(1) == 31 && MonthOffset(2) == 61
    ensures MonthOffset(3) == 92 && MonthOffset(4) == 122 && MonthOffset(5) == 153
    ensures MonthOffset(6) == 184 && MonthOffset(7) == 214 && MonthOffset(8) == 245
    ensures MonthOffset(9) == 275 && MonthOffset(10) == 306 && MonthOffset(11) == 337
  {
  }

  lemma DivStep(y: int, k: int)
    requires k == 4 || k == 100 || k == 400
    ensures y / k - (y - 1) / k == if y % k == 0 then 1 else 0
  {
  }

  /** A counted year that ends with February of `y` has 366 days exactly when
      `y` is a leap year. */
  lemma YearLength(y: int)
    ensures YearDays(y) - YearDays(y - 1) == if IsLeapYear(y) then 366 else 365
  {
    var d4 := y / 4 - (y - 1) / 4;
    var d100 := y / 100 - (y - 1) / 100;
    var d400 := y / 400 - (y - 1) / 400;
    assert YearDays(y) - YearDays(y - 1) == 365 + d4 - d100 + d400;
    DivStep(y, 4);
    DivStep(y, 100);
    DivStep(y, 400);
    DivisorChain(y);
  }

  lemma DivisorChain(y: int)
    ensures y % 100 == 0 ==> y % 4 == 0
    ensures y % 400 == 0 ==> y % 100 == 0
  {
    if y % 100 == 0 {
      CenturyQuad(y);
    }
    if y % 400 == 0 {
      QuadCenturyCentury(y);
    }
  }

  lemma CenturyQuad(y: int)
    requires y % 100 == 0
    ensures y % 4 == 0
  {
    var k := y / 100;
    assert y == 4 * (25 * k);
  }

  lemma QuadCenturyCentury(y: int)
    requires y % 400 == 0
    ensures y % 100 == 0
  {
    var k := y / 400;
    assert y == 100 * (4 * k);
  }

  /** The end day is the number of days between the first of the month and
      the first of the next month, by the day count above. */
  lemma EndDayCountsDays(year: int, month: int)
    requires 1 <= month <= 12
    requires !(0 <= year <= 99)
    ensures month < 12 ==>
      EndDay(year, month) == FirstDayNumber(year, month + 1) - FirstDayNumber(year, month)
    ensures month == 12 ==>
      EndDay(year, month) == FirstDayNumber(year + 1, 1) - FirstDayNumber(year, month)
  {
    EndDayOfCalendarMonth(year, month);
    MonthOffsetTable();
    if month == 2 {
      YearLength(year);
    }
  }

  /** `${year}-${month}-01`. */
  function StartDate(year: string, month: string): (r: string)
    ensures EndsWith(r, "-01")
  {
    year + "-" + month + "-01"
  }

  /** `${year}-${month}-${endDay}`, with the day printed as NaN when the year or
      the month does not parse. Both are read by `parseInt` without a radix, so
      a "0x" prefix makes them hexadecimal. */
  function EndDate(year: string, month: string): (r: string)
    ensures StartsWith(r, year + "-" + month + "-")
    ensures r[|year| + |month| + 2..] == "NaN" <==> ParseIntAuto(year).None? || ParseIntAuto(month).None?
  {
    var day :=
      match (ParseIntAuto(year), ParseIntAuto(month))
      case (Some(y), Some(m)) => IntToString(EndDay(y, m))
      case _ => "NaN";
    year + "-" + month + "-" + day
  }

  /** A month written in hexadecimal is read as such: "0x2" is February, so in
      a leap year the range ends on the 29th, where a decimal read (as
      `parseInt(month, 10)` would give, month 0) ends on the 31st. */
  lemma EndDateHexMonth(y: int)
    requires !(0 <= y <= 99) && IsLeapYear(y)
    ensures EndDate(IntToString(y), "0x2") == IntToString(y) + "-" + "0x2" + "-" + IntToString(29)
    ensures ParseInt("0x2") == Some(0) && EndDay(y, 0) == 31
  {
    HexMarkRead();
    EndDateOfMonth(y, "0x2", 2);
    assert DaysInMonth(y, 2) == 29;
    EndDayOfMonthZero(y);
  }

  /** Month 0 is the December before the year. */
  lemma EndDayOfMonthZero(year: int)
    ensures EndDay(year, 0) == DaysInMonth(FullYear(year) - 1, 12) == 31
  {
    MinusOneDivMod();
  }

  lemma MinusOneDivMod()
    ensures (0 - 1) / 12 == -1 && (0 - 1) % 12 == 11
  {
  }

  /** For a year printed in decimal and a month given as its number, the end
      date carries the length of that month. */
  lemma EndDateOfMonth(y: int, monthText: string, m: int)
    requires !(0 <= y <= 99) && 1 <= m <= 12
    requires ParseIntAuto(monthText) == Some(m)
    ensures EndDate(IntToString(y), monthText)
         == IntToString(y) + "-" + monthText + "-" + IntToString(DaysInMonth(y, m))
  {
    ParseIntAutoOfIntToString(y);
    EndDayOfCalendarMonth(y, m);
    var day := IntToString(DaysInMonth(y, m));
    assert EndDate(IntToString(y), monthText) == IntToString(y) + "-" + monthText + "-" + day;
  }

  // ---------------------------------------------------------------------
  // Query fragments

  /** A filter value that takes part in the request. */
  predicate Active(value: string)
  {
    value != "" && value != "all"
  }

  /** `value && value !== 'all' ? `&${key}=${value}` : ''`. */
  function Fragment(key: string, value: string): (r: string)
    ensures r == "" <==> !Active(value)
    ensures Active(value) ==> StartsWith(r, "&" + key + "=") && r[|key| + 2..] == value
  {
    if Active(value) then "&" + key + "=" + value else ""
  }

  const TvCategories: set<string> :=
    {"documentary", "news", "miniseries", "reality", "scripted", "talk_show", "video"}

  /** TV category codes; a name outside the table prints as `undefined`. */
  function TvCategoryCode(category: string): (r: string)
    ensures r == "undefined" <==> category !in TvCategories
    ensures category in TvCategories ==> |r| == 1 && '0' <= r[0] <= '6'
  {
    match category
    case "documentary" => "0"
    case "news" => "1"
    case "miniseries" => "2"
    case "reality" => "3"
    case "scripted" => "4"
    case "talk_show" => "5"
    case "video" => "6"
    case _ => "undefined"
  }

  /** The provider fragment always names the US watch region too. */
  function ProviderFragment(provider: string): (r: string)
    ensures r == "" <==> !Active(provider)
    ensures Active(provider) ==>
      && StartsWith(r, Fragment("with_watch_providers", provider))
      && EndsWith(r, "&watch_region=US")
      && |r| == |Fragment("with_watch_providers", provider)| + |"&watch_region=US"|
  {
    if Active(provider) then Fragment("with_watch_providers", provider) + "&watch_region=US" else ""
  }

  function TvCategoryFragment(category: string): (r: string)
    ensures r == "" <==> !Active(category)
    ensures Active(category) ==> r == Fragment("with_type", TvCategoryCode(category))
  {
    if Active(category) then "&with_type=" + TvCategoryCode(category) else ""
  }

  const HorrorKeyword := "&with_keyword=315058"

  /** TV has no Horror genre: genre 27 on TV turns into a keyword filter. */
  predicate HorrorOnTv(f: Filters)
  {
    f.mediaType == "tv" && f.genre == "27"
  }

  datatype Fragments = Fragments(
    genre: string, region: string, origin: string,
    rating: string, provider: string, tvCategory: string)

  /** The fragments `getData` ends up with, after the Horror substitution:
      for Horror on TV the genre fragment is the keyword filter and the TV
      category fragment is dropped; otherwise each fragment is its filter's. */
  function QueryFragments(f: Filters): (q: Fragments)
    ensures HorrorOnTv(f) ==> q.genre == HorrorKeyword && q.tvCategory == ""
    ensures !HorrorOnTv(f) ==>
      q.genre == Fragment("with_genres", f.genre) && q.tvCategory == TvCategoryFragment(f.tvCategory)
    ensures q.region == Fragment("region", f.country)
    ensures q.origin == Fragment("with_origin_country", f.country)
    ensures q.rating == Fragment("vote_average.gte", f.rating)
    ensures q.provider == ProviderFragment(f.provider)
  {
    var horror := HorrorOnTv(f);
    Fragments(
      if horror then HorrorKeyword else Fragment("with_genres", f.genre),
      Fragment("region", f.country),
      Fragment("with_origin_country", f.country),
      Fragment("vote_average.gte", f.rating),
      ProviderFragment(f.provider),
      if horror then "" else TvCategoryFragment(f.tvCategory))
  }

  /** The fragments a request of each kind appends, in the source's order:
      movies filter by release region, TV by origin country and category. */
  function FilterList(kind: MediaType, q: Fragments): (r: seq<string>)
    ensures |r| == if kind == Movie then 4 else 5
    ensures r[1] == q.genre && r[2] == q.rating && r[3] == q.provider
    ensures r[0] == if kind == Movie then q.region else q.origin
    ensures kind == Tv ==> r[4] == q.tvCategory
  {
    match kind
    case Movie => [q.region, q.genre, q.rating, q.provider]
    case Tv => [q.origin, q.genre, q.rating, q.provider, q.tvCategory]
  }

  /** A chosen country filters movies by release region and TV by origin
      country. */
  lemma CountryFragments(f: Filters)
    ensures Active(f.country) ==>
      && FilterList(Movie, QueryFragments(f))[0] == "&region=" + f.country
      && FilterList(Tv, QueryFragments(f))[0] == "&with_origin_country=" + f.country
    ensures !Active(f.country) ==>
      FilterList(Movie, QueryFragments(f))[0] == "" && FilterList(Tv, QueryFragments(f))[0] == ""
  {
    assert "&" + "region" + "=" == "&region=";
    assert "&" + "with_origin_country" + "=" == "&with_origin_country=";
  }

  /** A chosen provider filters both kinds, in the US watch region. */
  lemma ProviderFragments(f: Filters)
    ensures Active(f.provider) ==>
      var p := QueryFragments(f).provider;
      && StartsWith(p, "&with_watch_providers=" + f.provider)
      && EndsWith(p, "&watch_region=US")
      && p in FilterList(Movie, QueryFragments(f)) && p in FilterList(Tv, QueryFragments(f))
  {
    if Active(f.provider) {
      assert "&" + "with_watch_providers" + "=" == "&with_watch_providers=";
      assert Fragment("with_watch_providers", f.provider) == "&with_watch_providers=" + f.provider;
    }
  }

  /** A fragment differs from `prefix` where its key does. */
  lemma FragmentNot(key: string, value: string, prefix: string, i: nat)
    requires i < |key| && i + 1 < |prefix| && key[i] != prefix[i + 1]
    ensures !StartsWith(Fragment(key, value), prefix)
  {
    if Active(value) {
      var r := Fragment(key, value);
      assert r == "&" + key + "=" + value;
      assert r[i + 1] == key[i];
      NotStartsWith(r, prefix, i + 1);
    }
  }

  lemma ProviderNot(value: string, prefix: string, i: nat)
    requires i < |"with_watch_providers"| && i + 1 < |prefix| && "with_watch_providers"[i] != prefix[i + 1]
    ensures !StartsWith(ProviderFragment(value), prefix)
  {
    if Active(value) {
      var r := ProviderFragment(value);
      var g := Fragment("with_watch_providers", value);
      FragmentNot("with_watch_providers", value, prefix, i);
      assert g == "&" + "with_watch_providers" + "=" + value;
      assert r[..|g|] == g && r[i + 1] == g[i + 1];
      NotStartsWith(r, prefix, i + 1);
    }
  }

  const OriginKey := "&with_origin_country="
  const RegionKey := "&region="
  const TvTypeKey := "&with_type="

  /** No element of `l` starts with `prefix`. */
  predicate NoneStartWith(l: seq<string>, prefix: string)
  {
    forall i :: 0 <= i < |l| ==> !StartsWith(l[i], prefix)
  }

  /** The four movie fragments each avoid a prefix whose characters after
      the `&` differ from the region and rating keys at 0 and from the
      `with_...` keys at `k`. */
  lemma MovieAvoids(f: Filters, prefix: string, k: nat)
    requires 5 <= k < 9 && k + 1 < |prefix| && 1 < |prefix|
    requires prefix[1] != 'r' && prefix[1] != 'v'
    requires "with_genres"[k] != prefix[k + 1] && "with_watch_providers"[k] != prefix[k + 1]
    requires HorrorKeyword[k + 1] != prefix[k + 1]
    ensures NoneStartWith(FilterList(Movie, QueryFragments(f)), prefix)
  {
    var q := QueryFragments(f);
    FragmentNot("region", f.country, prefix, 0);
    if HorrorOnTv(f) {
      NotStartsWith(HorrorKeyword, prefix, k + 1);
    } else {
      FragmentNot("with_genres", f.genre, prefix, k);
    }
    FragmentNot("vote_average.gte", f.rating, prefix, 0);
    ProviderNot(f.provider, prefix, k);
    assert FilterList(Movie, q) == [q.region, q.genre, q.rating, q.provider];
  }

  /** Movie requests never filter by origin country or by TV category. */
  lemma MovieRouting(f: Filters)
    ensures NoneStartWith(FilterList(Movie, QueryFragments(f)), OriginKey)
    ensures NoneStartWith(FilterList(Movie, QueryFragments(f)), TvTypeKey)
  {
    MovieAvoids(f, OriginKey, 5);
    MovieAvoids(f, TvTypeKey, 5);
  }

  /** TV requests never filter by release region. */
  lemma TvRouting(f: Filters)
    ensures NoneStartWith(FilterList(Tv, QueryFragments(f)), RegionKey)
  {
    var q := QueryFragments(f);
    FragmentNot("with_origin_country", f.country, RegionKey, 0);
    if HorrorOnTv(f) {
      NotStartsWith(HorrorKeyword, RegionKey, 1);
    } else {
      FragmentNot("with_genres", f.genre, RegionKey, 0);
      FragmentNot("with_type", TvCategoryCode(f.tvCategory), RegionKey, 0);
    }
    FragmentNot("vote_average.gte", f.rating, RegionKey, 0);
    ProviderNot(f.provider, RegionKey, 0);
    assert FilterList(Tv, q) == [q.origin, q.genre, q.rating, q.provider, q.tvCategory];
  }

  /** Horror on TV filters by the keyword and drops the TV category. */
  lemma HorrorFragments(f: Filters)
    ensures HorrorOnTv(f) ==>
      FilterList(Tv, QueryFragments(f))[1] == HorrorKeyword && FilterList(Tv, QueryFragments(f))[4] == ""
    ensures !HorrorOnTv(f) ==>
      FilterList(Tv, QueryFragments(f))[1] == Fragment("with_genres", f.genre)
      && FilterList(Tv, QueryFragments(f))[4] == TvCategoryFragment(f.tvCategory)
  {
  }

  // ---------------------------------------------------------------------
  // Requests and answers

  /** A request to the catalogue service (the key and language parameters
      that every request carries are in `Url`). */
  datatype Request =
    | Search(kind: MediaType, query: string, from: string, to: string, filters: seq<string>)
    | Discover(kind: MediaType, page: int, from: string, to: string, filters: seq<string>)
    | Videos(kind: MediaType, id: int)

  datatype Listing = Listing(results: seq<MediaItem>, totalPages: int)

  datatype Video = Video(videoType: string, site: string, key: string)

  /** The answer to a videos request: its result list, or `Failed` when the
      request threw, its body was not JSON or it had no result list. */
  datatype VideoReply = Results(videos: seq<Video>) | Failed

  const Api := "https://api.themoviedb.org/3/"

  function KindPath(kind: MediaType): string
  {
    match kind
    case Movie => "movie"
    case Tv => "tv"
  }

  function DateKey(kind: MediaType): string
  {
    match kind
    case Movie => "primary_release_date"
    case Tv => "first_air_date"
  }

  /** The URL `getData` and `fetchTrailer` fetch for a request. */
  function Url(r: Request, apiKey: string, encode: string -> string): (u: string)
    ensures StartsWith(u, Api)
    ensures r.Search? ==> StartsWith(u, Api + ("search/" + KindPath(r.kind) + "?api_key=" + apiKey
      + "&query=" + encode(r.query) + "&" + DateKey(r.kind) + ".gte=" + r.from))
    ensures r.Discover? ==> StartsWith(u, Api + ("discover/" + KindPath(r.kind) + "?api_key=" + apiKey
      + "&sort_by=popularity.desc&page=" + IntToString(r.page) + "&" + DateKey(r.kind) + ".gte=" + r.from))
    ensures !r.Videos? ==> EndsWith(u, "&" + DateKey(r.kind) + ".lte=" + r.to + Join(r.filters, ""))
    ensures r.Videos? ==> StartsWith(u, Api + (KindPath(r.kind) + "/" + IntToString(r.id)))
    ensures r.Videos? ==> EndsWith(u, "/videos?api_key=" + apiKey + "&language=en-US")
  {
    match r
    case Search(kind, query, from, to, filters) =>
      var middle := "search/" + KindPath(kind) + "?api_key=" + apiKey + "&query=" + encode(query)
        + "&" + DateKey(kind) + ".gte=" + from;
      var tail := "&" + DateKey(kind) + ".lte=" + to + Join(filters, "");
      Framed(Api, middle, tail);
      Api + middle + tail
    case Discover(kind, page, from, to, filters) =>
      var middle := "discover/" + KindPath(kind) + "?api_key=" + apiKey
        + "&sort_by=popularity.desc&page=" + IntToString(page)
        + "&" + DateKey(kind) + ".gte=" + from;
      var tail := "&" + DateKey(kind) + ".lte=" + to + Join(filters, "");
      Framed(Api, middle, tail);
      Api + middle + tail
    case Videos(kind, id) =>
      var suffix := "/videos?api_key=" + apiKey + "&language=en-US";
      Framed(Api, KindPath(kind) + "/" + IntToString(id), suffix);
      Api + (KindPath(kind) + "/" + IntToString(id)) + suffix
  }

  function SearchRequest(kind: MediaType, f: Filters): Request
  {
    Search(kind, f.query, StartDate(f.year, f.month), EndDate(f.year, f.month),
           FilterList(kind, QueryFragments(f)))
  }

  function DiscoverRequest(kind: MediaType, f: Filters, page: int): Request
  {
    Discover(kind, page, StartDate(f.year, f.month), EndDate(f.year, f.month),
             FilterList(kind, QueryFragments(f)))
  }

  /** With no filter chosen, a request appends no fragment at all. */
  lemma UnfilteredRequest(kind: MediaType, f: Filters)
    requires !Active(f.genre) && !Active(f.country) && !Active(f.rating)
    requires !Active(f.provider) && !Active(f.tvCategory)
    ensures Join(FilterList(kind, QueryFragments(f)), "") == ""
  {
    var q := QueryFragments(f);
    if kind == Movie {
      assert FilterList(kind, q) == ["", "", "", ""];
      assert Join(["", "", "", ""], "") == "";
    } else {
      assert FilterList(kind, q) == ["", "", "", "", ""];
      assert Join(["", "", "", "", ""], "") == "";
    }
  }

  /** With no filter chosen, the request URL ends with the upper date bound:
      nothing is appended after the month's end date. */
  lemma UnfilteredUrl(kind: MediaType, f: Filters, page: int, apiKey: string, encode: string -> string)
    requires !Active(f.genre) && !Active(f.country) && !Active(f.rating)
    requires !Active(f.provider) && !Active(f.tvCategory)
    ensures EndsWith(Url(SearchRequest(kind, f), apiKey, encode),
                     "&" + DateKey(kind) + ".lte=" + EndDate(f.year, f.month))
    ensures EndsWith(Url(DiscoverRequest(kind, f, page), apiKey, encode),
                     "&" + DateKey(kind) + ".lte=" + EndDate(f.year, f.month))
  {
    UnfilteredRequest(kind, f);
    UrlEndsWithBound(SearchRequest(kind, f), apiKey, encode);
    UrlEndsWithBound(DiscoverRequest(kind, f, page), apiKey, encode);
  }

  /** A search or discover request without filter fragments ends its URL
      with the upper date bound. */
  lemma UrlEndsWithBound(r: Request, apiKey: string, encode: string -> string)
    requires !r.Videos? && Join(r.filters, "") == ""
    ensures EndsWith(Url(r, apiKey, encode), "&" + DateKey(r.kind) + ".lte=" + r.to)
  {
    var bound := "&" + DateKey(r.kind) + ".lte=" + r.to;
    assert bound + Join(r.filters, "") == bound;
  }

  /** `{ ...item, media_type: kind }` on every result. */
  function Tag(items: seq<MediaItem>, kind: MediaType): (r: seq<MediaItem>)
    ensures |r| == |items|
    ensures forall i :: 0 <= i < |items| ==> r[i] == items[i].(mediaType := kind)
  {
    if items == [] then [] else [items[0].(mediaType := kind)] + Tag(items[1..], kind)
  }

  lemma TagSlice(items: seq<MediaItem>, kind: MediaType, a: nat, b: nat)
    requires a <= b <= |items|
    ensures Tag(items[a..b], kind) == Tag(items, kind)[a..b]
  {
  }

  lemma TagAppend(xs: seq<MediaItem>, ys: seq<MediaItem>, kind: MediaType)
    ensures Tag(xs + ys, kind) == Tag(xs, kind) + Tag(ys, kind)
  {
  }

  // ---------------------------------------------------------------------
  // Trailers

  predicate IsTrailer(v: Video)
  {
    v.videoType == "Trailer" && v.site == "YouTube"
  }

  /** `results.find(...)`: the index of the first YouTube trailer. */
  function FindTrailer(vs: seq<Video>): (r: Option<nat>)
    ensures r.Some? ==>
      && r.value < |vs| && IsTrailer(vs[r.value])
      && forall j :: 0 <= j < r.value ==> !IsTrailer(vs[j])
    ensures r.None? ==> forall j :: 0 <= j < |vs| ==> !IsTrailer(vs[j])
  {
    if vs == [] then None
    else if IsTrailer(vs[0]) then Some(0)
    else match FindTrailer(vs[1..])
      case Some(i) => Some(i + 1)
      case None => None
  }

  const WatchPrefix := "https://www.youtube.com/watch?v="
  const ResultsPrefix := "https://www.youtube.com/results?search_query="

  /** The YouTube search the fallback opens: the title (or the name, or
      'trailer') followed by " trailer", encoded. */
  function FallbackUrl(item: MediaItem, encode: string -> string): (r: string)
    ensures StartsWith(r, ResultsPrefix) && !StartsWith(r, WatchPrefix)
    ensures item.title != "" ==> r == ResultsPrefix + encode(item.title + " trailer")
    ensures item.title == "" && item.name != "" ==> r == ResultsPrefix + encode(item.name + " trailer")
    ensures item.title == "" && item.name == "" ==> r == ResultsPrefix + encode("trailer trailer")
  {
    assert ResultsPrefix[24] != WatchPrefix[24];
    assert "trailer" + " trailer" == "trailer trailer";
    ResultsPrefix + encode(Or(Or(item.title, item.name), "trailer") + " trailer")
  }

  function VideosRequest(item: MediaItem): Request
  {
    Videos(item.mediaType, item.id)
  }

  /** `fetchTrailer`: the watch URL of the first YouTube trailer among the
      item's videos; with none, or when the lookup fails, the fallback search. */
  function FetchTrailer(item: MediaItem, videos: Request -> VideoReply, encode: string -> string): (url: string)
    ensures var reply := videos(VideosRequest(item));
      if reply.Results? && exists i :: 0 <= i < |reply.videos| && IsTrailer(reply.videos[i]) then
        exists i :: 0 <= i < |reply.videos| && IsTrailer(reply.videos[i])
          && (forall j :: 0 <= j < i ==> !IsTrailer(reply.videos[j]))
          && url == WatchPrefix + reply.videos[i].key
      else url == FallbackUrl(item, encode)
  {
    match videos(VideosRequest(item))
    case Failed => FallbackUrl(item, encode)
    case Results(vs) =>
      if |vs| > 0 then
        match FindTrailer(vs)
        case Some(i) => WatchPrefix + vs[i].key
        case None => FallbackUrl(item, encode)
      else FallbackUrl(item, encode)
  }

  /** A trailer was found exactly when the link is a watch link rather than a
      search. */
  lemma TrailerFoundIff(item: MediaItem, videos: Request -> VideoReply, encode: string -> string)
    ensures var reply := videos(VideosRequest(item));
      var found := reply.Results? && exists i :: 0 <= i < |reply.videos| && IsTrailer(reply.videos[i]);
      StartsWith(FetchTrailer(item, videos, encode), WatchPrefix) == found
  {
    var url := FetchTrailer(item, videos, encode);
    var reply := videos(VideosRequest(item));
    if !(reply.Results? && exists i :: 0 <= i < |reply.videos| && IsTrailer(reply.videos[i])) {
      NotStartsWith(url, WatchPrefix, 24);
    }
  }

  /** `{ ...item, trailerUrl }` on every item. */
  function WithTrailers(items: seq<MediaItem>, videos: Request -> VideoReply, encode: string -> string): (r: seq<MediaItem>)
    ensures |r| == |items|
    ensures forall i :: 0 <= i < |items| ==>
      r[i] == items[i].(trailerUrl := FetchTrailer(items[i], videos, encode))
  {
    if items == [] then []
    else
      var head := items[0].(trailerUrl := FetchTrailer(items[0], videos, encode));
      [head] + WithTrailers(items[1..], videos, encode)
  }

  // ---------------------------------------------------------------------
  // Paging

  /** The free-text search is used exactly when the query has a character
      that is not white space. */
  predicate SearchMode(query: string)
  {
    query != "" && Trim(query) != ""
  }

  lemma SearchModeIff(query: string)
    ensures SearchMode(query) <==> exists i :: 0 <= i < |query| && !IsSpace(query[i])
  {
    TrimEmptyIff(query);
  }

  /** Where a UI page starts in its upstream batch: odd pages take the first
      `size` results, every other page the next `size`. */
  function SliceStart(page: int, size: nat): nat
  {
    if RemTwo(page) == 1 then 0 else size
  }

  /** The part of an upstream batch that single-type discover shows on a UI page. */
  function HalfPage<T>(results: seq<T>, page: int, size: nat): (r: seq<T>)
    ensures |r| <= size
    ensures forall i :: 0 <= i < |r| ==>
      SliceStart(page, size) + i < |results| && r[i] == results[SliceStart(page, size) + i]
  {
    SliceWindow(results, SliceStart(page, size), SliceStart(page, size) + size);
    Slice(results, SliceStart(page, size), SliceStart(page, size) + size)
  }

  /** UI pages `2u - 1` and `2u` both read upstream page `u`, the first one
      from the start of the batch and the second one from position `size`. */
  lemma UpstreamPageOf(page: int, size: nat)
    requires page >= 1 && size > 0
    ensures CeilDiv(page, 2) >= 1
    ensures page == 2 * CeilDiv(page, 2) - 1 || page == 2 * CeilDiv(page, 2)
    ensures SliceStart(page, size) == 0 <==> page == 2 * CeilDiv(page, 2) - 1
  {
    RemTwoIsOne(page);
  }

  /** A single-type discover page is a contiguous run of its upstream batch,
      at most `size` long, and lies in the first `2 * size` results. */
  lemma HalfPageWindow<T>(results: seq<T>, page: int, size: nat)
    ensures var a := Min(SliceStart(page, size), |results|);
      var b := Min(SliceStart(page, size) + size, |results|);
      a <= b <= 2 * size && HalfPage(results, page, size) == results[a..b]
    ensures |HalfPage(results, page, size)| <= size
  {
    SliceWindow(results, SliceStart(page, size), SliceStart(page, size) + size);
  }

  /** The two UI pages of one upstream page together show its first
      `2 * size` results, in order; nothing after them is ever shown. With
      TV's size 9, results 18 and 19 of a batch of 20 appear on no page. */
  lemma HalvesCoverBatch<T>(results: seq<T>, u: int, size: nat)
    requires u >= 1
    ensures HalfPage(results, 2 * u - 1, size) + HalfPage(results, 2 * u, size)
         == results[..Min(2 * size, |results|)]
  {
    RemTwoIsOne(2 * u - 1);
    RemTwoIsOne(2 * u);
    assert SliceStart(2 * u - 1, size) == 0 && SliceStart(2 * u, size) == size;
    HalfPageWindow(results, 2 * u - 1, size);
    HalfPageWindow(results, 2 * u, size);
    ConcatSlices(results, Min(size, |results|), Min(2 * size, |results|));
  }

  lemma ConcatSlices<T>(s: seq<T>, a: nat, b: nat)
    requires a <= b <= |s|
    ensures s[0..a] + s[a..b] == s[..b]
  {
  }

  /** The combined list's page `page`: `combined.slice((page - 1) * 10, page * 10)`. */
  function CombinedPage<T>(combined: seq<T>, page: int): (r: seq<T>)
    ensures page >= 1 ==> |r| <= 10
    ensures page >= 1 ==> forall i :: 0 <= i < |r| ==>
      (page - 1) * 10 + i < |combined| && r[i] == combined[(page - 1) * 10 + i]
  {
    if page >= 1 then
      SliceWindow(combined, (page - 1) * 10, page * 10);
      Slice(combined, (page - 1) * 10, page * 10)
    else Slice(combined, (page - 1) * 10, page * 10)
  }

  /** Page `page` of the combined list is its run from `(page - 1) * 10`, at
      most ten long; it is empty exactly past the last page. */
  lemma CombinedPageWindow<T>(combined: seq<T>, page: int)
    requires page >= 1
    ensures CombinedPage(combined, page)
         == combined[Min((page - 1) * 10, |combined|)..Min(page * 10, |combined|)]
    ensures |CombinedPage(combined, page)| <= 10
    ensures CombinedPage(combined, page) == [] <==> page > CeilDiv(|combined|, 10)
  {
    SliceWindow(combined, (page - 1) * 10, page * 10);
  }

  /** Every element of the combined list is on exactly one page: element
      `i` is at position `i % 10` of page `i / 10 + 1`. */
  lemma CombinedPagesPartition<T>(combined: seq<T>, i: int)
    requires 0 <= i < |combined|
    ensures 1 <= i / 10 + 1 <= CeilDiv(|combined|, 10)
    ensures i % 10 < |CombinedPage(combined, i / 10 + 1)|
    ensures CombinedPage(combined, i / 10 + 1)[i % 10] == combined[i]
    ensures forall p :: p >= 1 && p != i / 10 + 1 ==>
      combined[i] !in CombinedPage(combined, p) || exists j :: 0 <= j < |combined| && j != i && combined[j] == combined[i]
  {
    var p := i / 10 + 1;
    TenDivMod(i);
    FirstPages(i, |combined|);
    CombinedPageWindow(combined, p);
    forall q | q >= 1 && q != p && combined[i] in CombinedPage(combined, q)
      ensures exists j :: 0 <= j < |combined| && j != i && combined[j] == combined[i]
    {
      CombinedPageWindow(combined, q);
      var k :| 0 <= k < |CombinedPage(combined, q)| && CombinedPage(combined, q)[k] == combined[i];
      var lo := Min((q - 1) * 10, |combined|);
      assert lo == (q - 1) * 10;
      assert combined[lo + k] == combined[i];
      OtherPage(i, q, k);
    }
  }

  /** Arithmetic step of CombinedPagesPartition: `i` splits into its page and its place on it. */
  lemma TenDivMod(i: int)
    requires 0 <= i
    ensures 0 <= i % 10 < 10 && (i / 10) * 10 + i % 10 == i
  {
  }

  /** Index `i` of a list of `n` lies on page `i / 10 + 1`, one of its pages. */
  lemma FirstPages(i: int, n: int)
    requires 0 <= i < n
    ensures 1 <= i / 10 + 1 <= CeilDiv(n, 10)
  {
  }

  /** Position `k` of another page is not index `i`. */
  lemma OtherPage(i: int, q: int, k: int)
    requires 0 <= i && q >= 1 && q != i / 10 + 1 && 0 <= k < 10
    ensures (q - 1) * 10 + k != i
  {
  }

  function DateOf(item: MediaItem): string
  {
    if item.mediaType == Movie then item.releaseDate else item.firstAirDate
  }

  /** The comparator `dateB - dateA`: later dates first. */
  function NewestFirst(timeOf: string -> int): (r: (MediaItem, MediaItem) -> bool)
    ensures forall a, b :: r(a, b) <==> timeOf(DateOf(a)) >= timeOf(DateOf(b))
  {
    (a: MediaItem, b: MediaItem) => timeOf(DateOf(b)) <= timeOf(DateOf(a))
  }

  lemma NewestFirstIsPreorder(timeOf: string -> int)
    ensures Sorting.TotalPreorder(NewestFirst(timeOf))
  {
  }

  /** The combined list is a permutation of the movies followed by the TV
      items, latest date first, with items of equal date in their original order. */
  lemma CombinedOrder(all: seq<MediaItem>, timeOf: string -> int, pivot: MediaItem)
    ensures multiset(Sorting.Sort(all, NewestFirst(timeOf))) == multiset(all)
    ensures forall i, j :: 0 <= i < j < |all| ==>
      var s := Sorting.Sort(all, NewestFirst(timeOf));
      timeOf(DateOf(s[i])) >= timeOf(DateOf(s[j]))
    ensures Sorting.Class(Sorting.Sort(all, NewestFirst(timeOf)), NewestFirst(timeOf), pivot)
         == Sorting.Class(all, NewestFirst(timeOf), pivot)
  {
    NewestFirstIsPreorder(timeOf);
    Sorting.SortSorted(all, NewestFirst(timeOf));
    Sorting.SortStable(all, NewestFirst(timeOf), pivot);
  }

  lemma WithTrailersKeeps(items: seq<MediaItem>, videos: Request -> VideoReply, encode: string -> string)
    ensures forall i :: 0 <= i < |items| ==>
      var t := WithTrailers(items, videos, encode)[i];
      t.mediaType == items[i].mediaType && DateOf(t) == DateOf(items[i]) && t.id == items[i].id
  {
  }

  // ---------------------------------------------------------------------
  // getData

  /** `getData`: the page of items and the page count for the filters `f`
      and the UI page `page`, given the catalogue's answers `listing` and
      `videos`, the URI encoder and the date parser `timeOf`. */
  method GetData(f: Filters, page: int, listing: Request -> Listing, videos: Request -> VideoReply,
                 encode: string -> string, timeOf: string -> int)
    returns (r: PageResult)
    // Free-text search, both kinds: every movie result, then every TV result.
    ensures SearchMode(f.query) && f.mediaType == "all" ==>
      var both := Tag(listing(SearchRequest(Movie, f)).results, Movie)
                + Tag(listing(SearchRequest(Tv, f)).results, Tv);
      r == PageResult(WithTrailers(both, videos, encode), CeilDiv(|both|, 10))
    // Free-text search, one kind: its results and the service's page count.
    ensures SearchMode(f.query) && (f.mediaType == "movie" || f.mediaType == "tv") ==>
      var kind := if f.mediaType == "movie" then Movie else Tv;
      var answer := listing(SearchRequest(kind, f));
      r == PageResult(WithTrailers(Tag(answer.results, kind), videos, encode), answer.totalPages)
    // Free-text search of any other type asks for nothing.
    ensures SearchMode(f.query) && f.mediaType != "all" && f.mediaType != "movie" && f.mediaType != "tv" ==>
      r == PageResult([], 1)
    // Discover, one kind: half of upstream page ceil(page / 2), twice its page count.
    ensures !SearchMode(f.query) && (f.mediaType == "movie" || f.mediaType == "tv") ==>
      var kind := if f.mediaType == "movie" then Movie else Tv;
      var size := if kind == Movie then 10 else 9;
      var answer := listing(DiscoverRequest(kind, f, CeilDiv(page, 2)));
      && r.items == WithTrailers(Tag(HalfPage(answer.results, page, size), kind), videos, encode)
      && r.totalPages == 2 * answer.totalPages
      && |r.items| <= size
      && (forall i :: 0 <= i < |r.items| ==> r.items[i].mediaType == kind)
    // Discover, both kinds: page `page` of upstream page 1 of each, merged
    // newest first.
    ensures !SearchMode(f.query) && f.mediaType != "movie" && f.mediaType != "tv" ==>
      var all := Tag(listing(DiscoverRequest(Movie, f, 1)).results, Movie)
               + Tag(listing(DiscoverRequest(Tv, f, 1)).results, Tv);
      var combined := Sorting.Sort(all, NewestFirst(timeOf));
      && r.items == WithTrailers(CombinedPage(combined, page), videos, encode)
      && r.totalPages == CeilDiv(|all|, 10)
      && (page >= 1 ==> |r.items| <= 10 && (r.items == [] <==> page > r.totalPages))
      && (forall i, j :: 0 <= i < j < |r.items| ==>
            timeOf(DateOf(r.items[i])) >= timeOf(DateOf(r.items[j])))
  {
    var startDate := StartDate(f.year, f.month);
    var endDate := EndDate(f.year, f.month);

    var genreQuery := Fragment("with_genres", f.genre);
    var regionQuery := Fragment("region", f.country);
    var originQuery := Fragment("with_origin_country", f.country);
    var ratingQuery := Fragment("vote_average.gte", f.rating);
    var providerQuery := ProviderFragment(f.provider);
    var tvCategoryQuery := TvCategoryFragment(f.tvCategory);

    if f.mediaType == "tv" && f.genre == "27" {
      genreQuery := HorrorKeyword;
      tvCategoryQuery := "";
    }
    var q := Fragments(genreQuery, regionQuery, originQuery, ratingQuery, providerQuery, tvCategoryQuery);
    assert q == QueryFragments(f);

    var items: seq<MediaItem>;
    var totalPages: int;
    if f.query != "" && Trim(f.query) != "" {
      items, totalPages := SearchData(f, listing, startDate, endDate, q);
    } else if f.mediaType == "movie" {
      items, totalPages := DiscoverKind(f, Movie, page, listing, startDate, endDate, q);
    } else if f.mediaType == "tv" {
      items, totalPages := DiscoverKind(f, Tv, page, listing, startDate, endDate, q);
    } else {
      items, totalPages := DiscoverAll(f, page, listing, startDate, endDate, q, timeOf);
    }

    WithTrailersKeeps(items, videos, encode);
    items := WithTrailers(items, videos, encode);
    r := PageResult(items, totalPages);
  }

  /** The free-text search branch of `getData`, before trailers are added. */
  method SearchData(f: Filters, listing: Request -> Listing, startDate: string, endDate: string, q: Fragments)
    returns (items: seq<MediaItem>, totalPages: int)
    requires startDate == StartDate(f.year, f.month) && endDate == EndDate(f.year, f.month)
    requires q == QueryFragments(f)
    ensures f.mediaType == "all" ==>
      var both := Tag(listing(SearchRequest(Movie, f)).results, Movie)
                + Tag(listing(SearchRequest(Tv, f)).results, Tv);
      items == both && totalPages == CeilDiv(|both|, 10)
    ensures f.mediaType == "movie" || f.mediaType == "tv" ==>
      var kind := if f.mediaType == "movie" then Movie else Tv;
      var answer := listing(SearchRequest(kind, f));
      items == Tag(answer.results, kind) && totalPages == answer.totalPages
    ensures f.mediaType != "all" && f.mediaType != "movie" && f.mediaType != "tv" ==>
      items == [] && totalPages == 1
  {
    items := [];
    totalPages := 1;
    if f.mediaType == "movie" || f.mediaType == "all" {
      var data := listing(Search(Movie, f.query, startDate, endDate, FilterList(Movie, q)));
      items := Tag(data.results, Movie);
      totalPages := data.totalPages;
    }
    if f.mediaType == "tv" || f.mediaType == "all" {
      var data := listing(Search(Tv, f.query, startDate, endDate, FilterList(Tv, q)));
      var tvItems := Tag(data.results, Tv);
      if f.mediaType == "all" {
        items := items + tvItems;
        totalPages := CeilDiv(|items|, 10);
      } else {
        items := tvItems;
        totalPages := data.totalPages;
      }
    }
  }

  /** The discover branch of `getData` for one kind: ten movies or nine TV
      shows per UI page, two UI pages per upstream page. */
  method DiscoverKind(f: Filters, kind: MediaType, page: int, listing: Request -> Listing,
                      startDate: string, endDate: string, q: Fragments)
    returns (items: seq<MediaItem>, totalPages: int)
    requires startDate == StartDate(f.year, f.month) && endDate == EndDate(f.year, f.month)
    requires q == QueryFragments(f)
    ensures var size := if kind == Movie then 10 else 9;
      var answer := listing(DiscoverRequest(kind, f, CeilDiv(page, 2)));
      && items == Tag(HalfPage(answer.results, page, size), kind)
      && totalPages == 2 * answer.totalPages
      && |items| <= size
      && (forall i :: 0 <= i < |items| ==> items[i].mediaType == kind)
  {
    var size := if kind == Movie then 10 else 9;
    var tmdbPage := CeilDiv(page, 2);
    var data := listing(Discover(kind, tmdbPage, startDate, endDate, FilterList(kind, q)));
    var sliceStart := if RemTwo(page) == 1 then 0 else size;
    items := Tag(Slice(data.results, sliceStart, sliceStart + size), kind);
    totalPages := data.totalPages * 2;
    HalfPageWindow(data.results, page, size);
  }

  /** The discover branch of `getData` for both kinds: upstream page 1 of
      each, merged newest first, cut into pages of ten. */
  method DiscoverAll(f: Filters, page: int, listing: Request -> Listing,
                     startDate: string, endDate: string, q: Fragments, timeOf: string -> int)
    returns (items: seq<MediaItem>, totalPages: int)
    requires startDate == StartDate(f.year, f.month) && endDate == EndDate(f.year, f.month)
    requires q == QueryFragments(f)
    ensures var all := Tag(listing(DiscoverRequest(Movie, f, 1)).results, Movie)
                     + Tag(listing(DiscoverRequest(Tv, f, 1)).results, Tv);
      var combined := Sorting.Sort(all, NewestFirst(timeOf));
      && items == CombinedPage(combined, page)
      && totalPages == CeilDiv(|all|, 10)
      && (page >= 1 ==> |items| <= 10 && (items == [] <==> page > totalPages))
      && (forall i, j :: 0 <= i < j < |items| ==>
            timeOf(DateOf(items[i])) >= timeOf(DateOf(items[j])))
  {
    var movieData := listing(Discover(Movie, 1, startDate, endDate, FilterList(Movie, q)));
    var tvData := listing(Discover(Tv, 1, startDate, endDate, FilterList(Tv, q)));
    var combined := Tag(movieData.results, Movie) + Tag(tvData.results, Tv);
    var all := combined;
    combined := Sorting.Sort(combined, NewestFirst(timeOf));
    totalPages := CeilDiv(|combined|, 10);
    items := Slice(combined, (page - 1) * 10, page * 10);
    if page >= 1 {
      CombinedPageWindow(combined, page);
    }
    NewestFirstIsPreorder(timeOf);
    Sorting.SortSorted(all, NewestFirst(timeOf));
    SortedPage(combined, page, timeOf);
  }

  /** A page of a newest-first list is newest first. */
  lemma SortedPage(combined: seq<MediaItem>, page: int, timeOf: string -> int)
    requires Sorting.SortedBy(combined, NewestFirst(timeOf))
    ensures forall i, j :: 0 <= i < j < |CombinedPage(combined, page)| ==>
      timeOf(DateOf(CombinedPage(combined, page)[i])) >= timeOf(DateOf(CombinedPage(combined, page)[j]))
  {
    var s := CombinedPage(combined, page);
    assert s == Slice(combined, (page - 1) * 10, page * 10);
    Sorting.SortedWindow(combined, RelativeIndex((page - 1) * 10, |combined|), s, NewestFirst(timeOf));
    forall i, j | 0 <= i < j < |s|
      ensures timeOf(DateOf(s[i])) >= timeOf(DateOf(s[j]))
    {
      assert NewestFirst(timeOf)(s[i], s[j]);
    }
  }
}
