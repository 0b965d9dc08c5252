/** The filter form: nine filter fields initialised from the page's filters
    or their defaults, the genre and provider option lists, the query string
    the Search button navigates to, the Reset button and the year choices. */
module FilterForm {
  import opened Js
  import opened UrlParams
  import Sorting
  import Catalog
  import opened GenresRoute

  type Filters = Catalog.Filters

  /** The defaults: every choice 'all', the current year and month (the
      month padded to two digits), and no query. `monthIndex` is
      `getMonth()`, zero-based. */
  function Defaults(currentYear: int, monthIndex: int): (d: Filters)
    ensures d.mediaType == "all" && d.genre == "all" && d.country == "all" && d.rating == "all"
    ensures d.provider == "all" && d.tvCategory == "all" && d.query == ""
    ensures ParseInt(d.year) == Some(currentYear)
  {
    ParseIntOfIntToString(currentYear);
    Catalog.Filters("all", IntToString(currentYear), PadStart(IntToString(monthIndex + 1), 2, '0'),
                    "all", "all", "all", "all", "all", "")
  }

  /** The default month is the current month number in two digits. */
  lemma DefaultMonth(currentYear: int, monthIndex: int)
    requires 0 <= monthIndex <= 11
    ensures |Defaults(currentYear, monthIndex).month| == 2
    ensures ParseInt(Defaults(currentYear, monthIndex).month) == Some(monthIndex + 1)
    ensures ParseIntAuto(Defaults(currentYear, monthIndex).month) == Some(monthIndex + 1)
  {
    var month := PadStart(IntToString(monthIndex + 1), 2, '0');
    assert Defaults(currentYear, monthIndex).month == month;
    ParseIntOfPadded(monthIndex + 1);
    ParseIntAutoOfPadded(monthIndex + 1);
  }

  /** The default filters ask for the whole current month: the range ends on
      the month's last day. */
  lemma DefaultRange(currentYear: int, monthIndex: int)
    requires currentYear >= 100 && 0 <= monthIndex <= 11
    ensures var d := Defaults(currentYear, monthIndex);
      Catalog.EndDate(d.year, d.month)
        == d.year + "-" + d.month + "-" + IntToString(Catalog.DaysInMonth(currentYear, monthIndex + 1))
  {
    var d := Defaults(currentYear, monthIndex);
    assert d.year == IntToString(currentYear);
    DefaultMonth(currentYear, monthIndex);
    Catalog.EndDateOfMonth(currentYear, d.month, monthIndex + 1);
  }

  /** `initialFilters.x || defaultValues.x`, field by field. */
  function Initial(initial: Filters, defaults: Filters): (r: Filters)
    ensures initial.mediaType != "" ==> r.mediaType == initial.mediaType
    ensures initial.mediaType == "" ==> r.mediaType == defaults.mediaType
    ensures initial.year != "" ==> r.year == initial.year
    ensures initial.year == "" ==> r.year == defaults.year
    ensures initial.month != "" ==> r.month == initial.month
    ensures initial.month == "" ==> r.month == defaults.month
    ensures initial.genre != "" ==> r.genre == initial.genre
    ensures initial.genre == "" ==> r.genre == defaults.genre
    ensures initial.country != "" ==> r.country == initial.country
    ensures initial.country == "" ==> r.country == defaults.country
    ensures initial.rating != "" ==> r.rating == initial.rating
    ensures initial.rating == "" ==> r.rating == defaults.rating
    ensures initial.provider != "" ==> r.provider == initial.provider
    ensures initial.provider == "" ==> r.provider == defaults.provider
    ensures initial.tvCategory != "" ==> r.tvCategory == initial.tvCategory
    ensures initial.tvCategory == "" ==> r.tvCategory == defaults.tvCategory
    ensures initial.query != "" ==> r.query == initial.query
    ensures initial.query == "" ==> r.query == defaults.query
  {
    Catalog.Filters(
      Or(initial.mediaType, defaults.mediaType), Or(initial.year, defaults.year),
      Or(initial.month, defaults.month), Or(initial.genre, defaults.genre),
      Or(initial.country, defaults.country), Or(initial.rating, defaults.rating),
      Or(initial.provider, defaults.provider), Or(initial.tvCategory, defaults.tvCategory),
      Or(initial.query, defaults.query))
  }

  /** Defaulting twice changes nothing, and no field is left empty except a
      query the defaults leave empty. */
  lemma InitialIdempotent(initial: Filters, defaults: Filters)
    ensures Initial(Initial(initial, defaults), defaults) == Initial(initial, defaults)
    ensures defaults.mediaType != "" ==> Initial(initial, defaults).mediaType != ""
  {
  }

  // ---------------------------------------------------------------------
  // Option lists

  const AllGenres := SelectOption("all", "All Genres")
  const HorrorOption := SelectOption("27", "Horror")
  const AllProviders := SelectOption("all", "All Streaming Services")

  predicate HasValue(options: seq<SelectOption>, value: string)
  {
    exists i :: 0 <= i < |options| && options[i].value == value
  }

  /** Whether the Horror option is added: for TV, when the fetched genres
      have no option of value '27'. */
  predicate InjectsHorror(mediaType: string, genres: seq<SelectOption>)
  {
    mediaType == "tv" && !HasValue(genres, "27")
  }

  /** The genre options after a fetch: the 'all' option first, then the
      fetched genres (with Horror added as above) ordered by label. */
  function GenreOptions(mediaType: string, genres: seq<SelectOption>, collate: (string, string) -> bool)
    : (r: seq<SelectOption>)
    ensures |r| >= 1 && r[0] == AllGenres
    ensures r[1..] == Sorting.Sort(genres + (if InjectsHorror(mediaType, genres) then [HorrorOption] else []),
                                   ByLabel(collate))
    ensures multiset(r[1..])
         == multiset(genres) + (if InjectsHorror(mediaType, genres) then multiset{HorrorOption} else multiset{})
  {
    var options := [AllGenres] + genres;
    assert HasValue(options, "27") <==> HasValue(genres, "27") by {
      if HasValue(genres, "27") {
        var i :| 0 <= i < |genres| && genres[i].value == "27";
        assert options[i + 1] == genres[i];
      }
    }
    var withHorror :=
      if mediaType == "tv" && !HasValue(options, "27") then options + [HorrorOption] else options;
    assert withHorror[1..] == genres + (if InjectsHorror(mediaType, genres) then [HorrorOption] else []);
    [withHorror[0]] + Sorting.Sort(withHorror[1..], ByLabel(collate))
  }

  /** Every option after the first is ordered by label. */
  lemma GenreOptionsSorted(mediaType: string, genres: seq<SelectOption>, collate: (string, string) -> bool)
    requires Sorting.TotalPreorder(ByLabel(collate))
    ensures Sorting.SortedBy(GenreOptions(mediaType, genres, collate)[1..], ByLabel(collate))
  {
    var extra: seq<SelectOption> := if InjectsHorror(mediaType, genres) then [HorrorOption] else [];
    Sorting.SortSorted(genres + extra, ByLabel(collate));
  }

  lemma AtMostOnce<T>(s: seq<T>, x: T, i: int, j: int)
    requires multiset(s)[x] <= 1
    requires 0 <= i < j < |s| && s[i] == x
    ensures s[j] != x
  {
    assert s == s[..j] + s[j..];
    assert s[..j][i] == x;
    assert multiset(s[..j])[x] >= 1;
    assert multiset(s[j..])[x] == 0;
    assert s[j..][0] == s[j];
  }

  /** For TV the list always has an option of value '27'. */
  lemma HorrorPresent(mediaType: string, genres: seq<SelectOption>, collate: (string, string) -> bool)
    requires mediaType == "tv"
    ensures HasValue(GenreOptions(mediaType, genres, collate), "27")
  {
    var r := GenreOptions(mediaType, genres, collate);
    if InjectsHorror(mediaType, genres) {
      PresentIn(r[1..], HorrorOption);
    } else {
      var g :| 0 <= g < |genres| && genres[g].value == "27";
      PresentIn(r[1..], genres[g]);
    }
    assert HasValue(r[1..], "27");
    HasValueTail(r);
  }

  lemma PresentIn(tail: seq<SelectOption>, o: SelectOption)
    requires o in multiset(tail) && o.value == "27"
    ensures HasValue(tail, "27")
  {
    var k :| 0 <= k < |tail| && tail[k] == o;
  }

  lemma HasValueTail(r: seq<SelectOption>)
    requires r != [] && HasValue(r[1..], "27")
    ensures HasValue(r, "27")
  {
    var k :| 0 <= k < |r[1..]| && r[1..][k].value == "27";
    assert r[k + 1] == r[1..][k];
  }

  /** When the fetched TV genres had no option of value '27', the list has
      exactly one: no two positions hold such an option. */
  lemma HorrorOnce(mediaType: string, genres: seq<SelectOption>, collate: (string, string) -> bool)
    requires InjectsHorror(mediaType, genres)
    ensures forall i, j :: 0 <= i < j < |GenreOptions(mediaType, genres, collate)| ==>
      !(GenreOptions(mediaType, genres, collate)[i].value == "27"
        && GenreOptions(mediaType, genres, collate)[j].value == "27")
  {
    var r := GenreOptions(mediaType, genres, collate);
    SingleTwentySeven(genres, r[1..]);
    forall i, j | 0 <= i < j < |r| ensures !(r[i].value == "27" && r[j].value == "27") {
      if i >= 1 {
        assert r[i] == r[1..][i - 1] && r[j] == r[1..][j - 1];
      }
    }
  }

  /** A permutation of fetched genres without '27' plus the Horror option
      holds one option of value '27'. */
  lemma SingleTwentySeven(genres: seq<SelectOption>, tail: seq<SelectOption>)
    requires !HasValue(genres, "27")
    requires multiset(tail) == multiset(genres) + multiset{HorrorOption}
    ensures forall i, j :: 0 <= i < j < |tail| ==> !(tail[i].value == "27" && tail[j].value == "27")
  {
    NotFetched(genres, HorrorOption);
    assert multiset(tail)[HorrorOption] == 1;
    forall i, j | 0 <= i < j < |tail| ensures !(tail[i].value == "27" && tail[j].value == "27") {
      if tail[i].value == "27" && tail[j].value == "27" {
        assert tail[i] in multiset(tail) && tail[j] in multiset(tail);
        NotFetched(genres, tail[i]);
        NotFetched(genres, tail[j]);
        assert tail[i] == HorrorOption;
        AtMostOnce(tail, HorrorOption, i, j);
      }
    }
  }

  /** No option of value '27' is among fetched genres that have none. */
  lemma NotFetched(genres: seq<SelectOption>, o: SelectOption)
    requires !HasValue(genres, "27") && o.value == "27"
    ensures multiset(genres)[o] == 0
  {
  }

  /** The provider options after a fetch: the 'all' option, then the fetched
      providers in their order. */
  function ProviderOptions(providers: seq<SelectOption>): (r: seq<SelectOption>)
    ensures |r| == |providers| + 1 && r[0] == AllProviders && r[1..] == providers
  {
    [AllProviders] + providers
  }

  // ---------------------------------------------------------------------
  // The form

  const SearchNames: seq<string> :=
    ["type", "year", "month", "genre", "country", "rating", "provider", "tvCategory", "query", "page"]

  class Form {
    var mediaType: string
    var year: string
    var month: string
    var genre: string
    var country: string
    var rating: string
    var provider: string
    var tvCategory: string
    var queryText: string
    var providerOptions: seq<SelectOption>
    var genreOptions: seq<SelectOption>

    /** The nine fields as filter values. */
    function State(): Filters
      reads this
    {
      Catalog.Filters(mediaType, year, month, genre, country, rating, provider, tvCategory, queryText)
    }

    /** The form as first rendered: each field from the page's filters or its
        default; the option lists hold only their 'all' entries. */
    constructor (initial: Filters, currentYear: int, monthIndex: int)
      ensures State() == Initial(initial, Defaults(currentYear, monthIndex))
      ensures providerOptions == [AllProviders] && genreOptions == [AllGenres]
    {
      providerOptions := [AllProviders];
      genreOptions := [AllGenres];
      new;
      SetState(Initial(initial, Defaults(currentYear, monthIndex)));
    }

    /** The genre fetch completed: a reply with a genre list replaces the
        options; a reply without one leaves them. `requestType` is the type
        the effect captured when it sent the request; the Horror option
        follows it, not the type selected when the reply arrives. */
    method ApplyGenres(requestType: string, reply: Option<seq<SelectOption>>,
                       collate: (string, string) -> bool)
      modifies this
      ensures reply.Some? ==> genreOptions == GenreOptions(requestType, reply.value, collate)
      ensures reply.None? ==> genreOptions == old(genreOptions)
      ensures State() == old(State()) && providerOptions == old(providerOptions)
    {
      if reply.Some? {
        genreOptions := GenreOptions(requestType, reply.value, collate);
      }
    }

    /** The provider fetch completed. */
    method ApplyProviders(reply: Option<seq<SelectOption>>)
      modifies this
      ensures reply.Some? ==> providerOptions == ProviderOptions(reply.value)
      ensures reply.None? ==> providerOptions == old(providerOptions)
      ensures State() == old(State()) && genreOptions == old(genreOptions)
    {
      if reply.Some? {
        providerOptions := ProviderOptions(reply.value);
      }
    }

    /** `handleSearch`: the query string holds the ten keys in order, each
        field with its current value, and page 1. */
    method Search(encode: string -> string) returns (url: string, pairs: seq<Pair>)
      ensures pairs == [("type", mediaType), ("year", year), ("month", month), ("genre", genre),
                        ("country", country), ("rating", rating), ("provider", provider),
                        ("tvCategory", tvCategory), ("query", queryText), ("page", "1")]
      ensures url == "/?" + Serialize(pairs, encode)
    {
      pairs := SearchQuery(mediaType, year, month, genre, country, rating, provider, tvCategory, queryText);
      url := "/?" + Serialize(pairs, encode);
    }

    /** `handleReset`: every field back to its default; the option lists stay.
        The defaults are recomputed on every render, so `currentYear` and
        `monthIndex` are the clock reading of the render the button belongs
        to, not the one taken when the form was first shown. */
    method Reset(currentYear: int, monthIndex: int)
      modifies this
      ensures State() == Defaults(currentYear, monthIndex)
      ensures providerOptions == old(providerOptions) && genreOptions == old(genreOptions)
    {
      SetState(Defaults(currentYear, monthIndex));
    }

    /** Every field to the value `f` gives it; the option lists stay. */
    method SetState(f: Filters)
      modifies this
      ensures State() == f
      ensures providerOptions == old(providerOptions) && genreOptions == old(genreOptions)
    {
      mediaType, year, month, genre, country := f.mediaType, f.year, f.month, f.genre, f.country;
      rating, provider, tvCategory, queryText := f.rating, f.provider, f.tvCategory, f.query;
    }
  }

  /** The query `handleSearch` builds: ten `set` calls on a fresh
      `URLSearchParams`, each with a new name, so each appends one pair. */
  method SearchQuery(t: string, y: string, m: string, g: string, c: string,
                     r: string, p: string, tv: string, q: string)
    returns (entries: seq<Pair>)
    ensures entries == [("type", t), ("year", y), ("month", m), ("genre", g), ("country", c),
                        ("rating", r), ("provider", p), ("tvCategory", tv), ("query", q), ("page", "1")]
  {
    var query := new SearchParams();
    SetFilterPairs(query, t, y, m, g, c);
    SetRestPairs(query, r, p, tv, q);
    entries := query.entries;
  }

  const FilterNames: set<string> := {"type", "year", "month", "genre", "country"}

  /** The first five `set` calls of `handleSearch`, on the empty query. */
  method SetFilterPairs(query: SearchParams, t: string, y: string, m: string, g: string, c: string)
    requires query.entries == []
    modifies query
    ensures query.entries == [("type", t), ("year", y), ("month", m), ("genre", g), ("country", c)]
    ensures forall i :: 0 <= i < |query.entries| ==> query.entries[i].0 in FilterNames
  {
    SetFresh(query, {}, "type", t);
    SetFresh(query, {"type"}, "year", y);
    SetFresh(query, {"type", "year"}, "month", m);
    SetFresh(query, {"type", "year", "month"}, "genre", g);
    SetFresh(query, {"type", "year", "month", "genre"}, "country", c);
    assert {"type", "year", "month", "genre"} + {"country"} == FilterNames;
  }

  /** The last five `set` calls of `handleSearch`, after the five filters. */
  method SetRestPairs(query: SearchParams, r: string, p: string, tv: string, q: string)
    requires forall i :: 0 <= i < |query.entries| ==> query.entries[i].0 in FilterNames
    modifies query
    ensures query.entries
         == old(query.entries) + [("rating", r), ("provider", p), ("tvCategory", tv), ("query", q), ("page", "1")]
  {
    SetFresh(query, FilterNames, "rating", r);
    SetFresh(query, FilterNames + {"rating"}, "provider", p);
    SetFresh(query, FilterNames + {"rating", "provider"}, "tvCategory", tv);
    SetFresh(query, FilterNames + {"rating", "provider", "tvCategory"}, "query", q);
    SetFresh(query, FilterNames + {"rating", "provider", "tvCategory", "query"}, "page", "1");
  }

  /** One `set` with a name not used yet appends its pair. */
  method SetFresh(query: SearchParams, ghost used: set<string>, name: string, value: string)
    requires forall i :: 0 <= i < |query.entries| ==> query.entries[i].0 in used
    requires name !in used
    modifies query
    ensures query.entries == old(query.entries) + [(name, value)]
    ensures forall i :: 0 <= i < |query.entries| ==> query.entries[i].0 in used + {name}
  {
    AppendFresh(query.entries, used, name, value);
    query.Set(name, value);
  }

  /** After a reset the form is as a form first shown, at the same clock
      reading, with empty initial filters. */
  lemma ResetIsInitialOfNothing(currentYear: int, monthIndex: int)
    ensures var d := Defaults(currentYear, monthIndex);
      Initial(Catalog.Filters("", "", "", "", "", "", "", "", ""), d) == d
  {
  }

  /** The year choices: "2000", "2001", ... up to the current year. */
  method YearOptions(currentYear: int) returns (years: seq<string>)
    ensures |years| == if currentYear >= 2000 then currentYear - 1999 else 0
    ensures forall i :: 0 <= i < |years| ==> years[i] == IntToString(2000 + i)
    ensures forall i :: 0 <= i < |years| ==> ParseInt(years[i]) == Some(2000 + i)
    ensures currentYear >= 2000 ==> years[|years| - 1] == IntToString(currentYear)
  {
    years := [];
    var y := 2000;
    while y <= currentYear
      invariant 2000 <= y && (currentYear >= 2000 ==> y <= currentYear + 1)
      invariant currentYear < 2000 ==> y == 2000
      invariant |years| == y - 2000
      invariant forall i :: 0 <= i < |years| ==> years[i] == IntToString(2000 + i)
      decreases currentYear - y
    {
      PushYear(years, y);
      years := years + [IntToString(y)];
      y := y + 1;
    }
    if currentYear >= 2000 {
      LastYear(years, currentYear);
    }
    YearsParse(years);
  }

  lemma PushYear(years: seq<string>, y: int)
    requires |years| == y - 2000
    requires forall i :: 0 <= i < |years| ==> years[i] == IntToString(2000 + i)
    ensures forall i :: 0 <= i < |years| + 1 ==> (years + [IntToString(y)])[i] == IntToString(2000 + i)
  {
  }

  lemma LastYear(years: seq<string>, currentYear: int)
    requires currentYear >= 2000 && |years| == currentYear - 1999
    requires forall i :: 0 <= i < |years| ==> years[i] == IntToString(2000 + i)
    ensures years[|years| - 1] == IntToString(currentYear)
  {
    var last := |years| - 1;
    assert years[last] == IntToString(2000 + last);
  }

  /** Each year label reads back as its year. */
  lemma YearsParse(years: seq<string>)
    requires forall i :: 0 <= i < |years| ==> years[i] == IntToString(2000 + i)
    ensures forall i :: 0 <= i < |years| ==> ParseInt(years[i]) == Some(2000 + i)
  {
    forall i | 0 <= i < |years| ensures ParseInt(years[i]) == Some(2000 + i) {
      ParseIntOfIntToString(2000 + i);
    }
  }
}
