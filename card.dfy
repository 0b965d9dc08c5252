/** The media card: the item record shared by the whole application, the
    fixed genre table, `slugify`, the derived display fields and links, and
    the episode form that a TV card keeps as local state. */
module Card {
  import opened Js

  datatype MediaType = Movie | Tv

  /** One catalogue item. An optional string that is absent is "", an absent
      list is [] (both are falsy, or treated alike, wherever they are read). */
  datatype MediaItem = MediaItem(
    id: int,
    mediaType: MediaType,
    title: string,
    name: string,
    releaseDate: string,
    firstAirDate: string,
    posterPath: string,
    genreIds: seq<int>,
    originCountry: seq<string>,
    trailerUrl: string,
    imdbId: string)

  /** Display names of the catalogue's genre ids. */
  const GenreTable: map<int, string> := map[
    28 := "Action", 12 := "Adventure", 16 := "Animation", 35 := "Comedy",
    80 := "Crime", 99 := "Documentary", 18 := "Drama", 10751 := "Family",
    14 := "Fantasy", 36 := "History", 27 := "Horror", 10402 := "Music",
    9648 := "Mystery", 10749 := "Romance", 878 := "Science Fiction",
    10770 := "TV Movie", 53 := "Thriller", 10752 := "War", 37 := "Western"]

  const ImagePrefix := "https://image.tmdb.org/t/p/original"
  const Placeholder := "/placeholder.png"
  const ImdbTitlePrefix := "https://www.imdb.com/title/"
  const ImdbFindPrefix := "https://www.imdb.com/find?q="
  const MoviePrefix := "https://popcornmovies.to/movie/"
  const EpisodePrefix := "https://popcornmovies.to/episode/"

  /** `item.title || item.name || 'Untitled'`. */
  function Title(item: MediaItem): (r: string)
    ensures r != ""
    ensures item.title != "" ==> r == item.title
    ensures item.title == "" && item.name != "" ==> r == item.name
    ensures item.title == "" && item.name == "" ==> r == "Untitled"
  {
    Or(Or(item.title, item.name), "Untitled")
  }

  /** The year shown on the card: the text before the first '-' of the
      release (or first air) date, or 'N/A' without a date. */
  function Year(item: MediaItem): (r: string)
    ensures var d := Or(item.releaseDate, item.firstAirDate);
      && (d == "" || d == "N/A" ==> r == "N/A")
      && (d != "" && d != "N/A" ==>
            StartsWith(d, r) && '-' !in r && (|r| < |d| ==> d[|r|] == '-'))
  {
    var releaseDate := Or(Or(item.releaseDate, item.firstAirDate), "N/A");
    if releaseDate != "N/A" then BeforeFirst(releaseDate, '-') else "N/A"
  }

  /** The poster image, or the placeholder when the item has none. */
  function Thumbnail(item: MediaItem): (r: string)
    ensures item.posterPath == "" ==> r == Placeholder
    ensures item.posterPath != "" ==>
      StartsWith(r, ImagePrefix) && r[|ImagePrefix|..] == item.posterPath
  {
    if item.posterPath != "" then ImagePrefix + item.posterPath else Placeholder
  }

  /** `genreMapping[id] || id`. No genre name reads 'N/A'; more than that,
      none starts with 'N', so no joined genre line reads 'N/A' either. */
  function GenreName(id: int): (r: string)
    ensures id in GenreTable ==> r == GenreTable[id]
    ensures id !in GenreTable ==> r == IntToString(id)
    ensures r != "N/A"
    ensures r != [] && r[0] != 'N'
  {
    if id in GenreTable then GenreTable[id] else IntToString(id)
  }

  function GenreNames(ids: seq<int>): (r: seq<string>)
    ensures |r| == |ids| && forall i :: 0 <= i < |ids| ==> r[i] == GenreName(ids[i])
  {
    seq(|ids|, i requires 0 <= i < |ids| => GenreName(ids[i]))
  }

  /** The genre line: the names of the ids joined by ", ", or 'N/A' when the
      item has no genre ids. No list of ids prints as 'N/A'. */
  function GenreText(ids: seq<int>): (r: string)
    ensures r == "N/A" <==> ids == []
    ensures |ids| == 1 ==> r == GenreName(ids[0])
    ensures |ids| >= 2 ==> r == GenreName(ids[0]) + ", " + GenreText(ids[1..])
  {
    if ids != [] then
      var names := GenreNames(ids);
      JoinStartsWithHead(names, ", ");
      assert |ids| >= 2 ==> names[1..] == GenreNames(ids[1..]);
      Join(names, ", ")
    else "N/A"
  }

  /** One more genre id adds its name after ", ". */
  lemma GenreTextSnoc(ids: seq<int>, id: int)
    requires ids != []
    ensures GenreText(ids + [id]) == GenreText(ids) + ", " + GenreName(id)
  {
    assert GenreNames(ids + [id]) == GenreNames(ids) + [GenreName(id)];
    JoinSnoc(GenreNames(ids), GenreName(id), ", ");
  }

  /** The country line: only TV items with origin countries show them. */
  function CountryText(item: MediaItem): (r: string)
    ensures item.mediaType == Movie || item.originCountry == [] ==> r == "N/A"
    ensures item.mediaType == Tv && item.originCountry != [] ==>
      StartsWith(r, item.originCountry[0])
    ensures item.mediaType == Tv && |item.originCountry| == 1 ==> r == item.originCountry[0]
    ensures item.mediaType == Tv && |item.originCountry| >= 2 ==>
      r == item.originCountry[0] + ", " + Join(item.originCountry[1..], ", ")
  {
    if item.mediaType == Tv && item.originCountry != [] then
      JoinStartsWithHead(item.originCountry, ", ");
      Join(item.originCountry, ", ")
    else "N/A"
  }

  /** The IMDB link: the title page when the id is known, otherwise a search
      for the encoded title. */
  function ImdbUrl(item: MediaItem, encode: string -> string): (r: string)
    ensures item.imdbId != "" ==>
      StartsWith(r, ImdbTitlePrefix) && r[|ImdbTitlePrefix|..] == item.imdbId
    ensures item.imdbId == "" ==>
      StartsWith(r, ImdbFindPrefix) && r[|ImdbFindPrefix|..] == encode(Title(item))
  {
    if item.imdbId != "" then ImdbTitlePrefix + item.imdbId
    else ImdbFindPrefix + encode(Title(item))
  }

  // ---------------------------------------------------------------------
  // slugify

  predicate NoSpace(s: string)
  {
    forall i :: 0 <= i < |s| ==> !IsSpace(s[i])
  }

  /** Replaces every maximal run of white space by one '-'. */
  function CollapseSpaces(s: string): (r: string)
    ensures |r| <= |s|
    decreases |s|
  {
    if s == [] then []
    else if IsSpace(s[0]) then
      var rest := TrimStart(s);
      assert rest != [] ==> rest[0] != s[0];
      "-" + CollapseSpaces(rest)
    else [s[0]] + CollapseSpaces(s[1..])
  }

  /** No white space is left after the runs are collapsed. */
  lemma {:induction false} CollapseNoSpace(s: string)
    ensures NoSpace(CollapseSpaces(s))
    decreases |s|
  {
    if s != [] {
      if IsSpace(s[0]) {
        assert TrimStart(s) != [] ==> TrimStart(s)[0] != s[0];
        CollapseNoSpace(TrimStart(s));
        NoSpaceCons('-', CollapseSpaces(TrimStart(s)));
      } else {
        CollapseNoSpace(s[1..]);
        NoSpaceCons(s[0], CollapseSpaces(s[1..]));
      }
    }
  }

  lemma NoSpaceCons(c: char, t: string)
    requires !IsSpace(c) && NoSpace(t)
    ensures NoSpace([c] + t)
  {
    assert forall i :: 1 <= i < |[c] + t| ==> ([c] + t)[i] == t[i - 1];
  }

  /** `text.toLowerCase().replace(/\s+/g, '-')`: lower case, and no white
      space left. */
  function Slugify(text: string): (r: string)
    ensures NoSpace(r)
    ensures NoUpper(r)
    ensures |r| <= |text|
  {
    var lowered := Lower(text);
    CollapseKeepsLower(lowered);
    CollapseNoSpace(lowered);
    CollapseSpaces(lowered)
  }

  predicate NoUpper(s: string)
  {
    forall i :: 0 <= i < |s| ==> !IsUpperAscii(s[i])
  }

  lemma {:induction false} CollapseKeepsLower(s: string)
    requires NoUpper(s)
    ensures NoUpper(CollapseSpaces(s))
    decreases |s|
  {
    if s != [] {
      if IsSpace(s[0]) {
        CollapseKeepsLower(TrimStart(s));
      } else {
        CollapseKeepsLower(s[1..]);
      }
    }
  }

  lemma LowerOfLower(s: string)
    requires NoUpper(s)
    ensures Lower(s) == s
  {
  }

  /** A text without white space collapses to itself. */
  lemma {:induction false} CollapseFixed(s: string)
    requires NoSpace(s)
    ensures CollapseSpaces(s) == s
    decreases |s|
  {
    if s != [] {
      CollapseFixed(s[1..]);
    }
  }

  /** A slug is its own slug. */
  lemma SlugifyIdempotent(text: string)
    ensures Slugify(Slugify(text)) == Slugify(text)
  {
    LowerOfLower(Slugify(text));
    CollapseFixed(Slugify(text));
  }

  lemma TrimStartOfRun(run: string, rest: string)
    requires forall i :: 0 <= i < |run| ==> IsSpace(run[i])
    requires rest != [] ==> !IsSpace(rest[0])
    ensures TrimStart(run + rest) == rest
    decreases |run|
  {
    if run != [] {
      DropHead(run, rest);
      TrimStartOfRun(run[1..], rest);
    }
  }

  /** A run of white space becomes one '-'. */
  lemma CollapseRun(run: string, rest: string)
    requires run != [] && forall i :: 0 <= i < |run| ==> IsSpace(run[i])
    requires rest != [] ==> !IsSpace(rest[0])
    ensures CollapseSpaces(run + rest) == "-" + CollapseSpaces(rest)
  {
    assert IsSpace((run + rest)[0]);
    TrimStartOfRun(run, rest);
  }

  lemma {:induction false} CollapseWord(word: string, run: string, rest: string)
    requires NoSpace(word)
    requires run != [] && forall i :: 0 <= i < |run| ==> IsSpace(run[i])
    requires rest != [] ==> !IsSpace(rest[0])
    ensures CollapseSpaces(word + run + rest) == word + "-" + CollapseSpaces(rest)
    decreases |word|
  {
    Regroup(word, run, rest);
    Regroup(word, "-", CollapseSpaces(rest));
    if word == [] {
      EmptyPrefix(word, run + rest);
      EmptyPrefix(word, "-" + CollapseSpaces(rest));
      CollapseRun(run, rest);
    } else {
      NoSpaceTail(word);
      CollapseWord(word[1..], run, rest);
      Regroup(word[1..], run, rest);
      Regroup(word[1..], "-", CollapseSpaces(rest));
      CollapseWordCons(word, run + rest, "-" + CollapseSpaces(rest));
    }
  }

  /** A non-space first character stays in front of what the rest of the
      text collapses to. */
  lemma CollapseWordCons(word: string, x: string, y: string)
    requires word != [] && !IsSpace(word[0])
    requires CollapseSpaces(word[1..] + x) == word[1..] + y
    ensures CollapseSpaces(word + x) == word + y
  {
    ConsSplit(word, x);
    ConsSplit(word, y);
    CollapseCons(word[0], word[1..] + x);
  }

  /** Sequence step of CollapseWord: concatenation regrouped. */
  lemma Regroup(a: string, b: string, c: string)
    ensures a + b + c == a + (b + c)
  {
  }

  /** Sequence step of CollapseWord: an empty word adds nothing in front. */
  lemma EmptyPrefix(a: string, b: string)
    requires a == []
    ensures a + b == b
  {
  }

  /** Step of CollapseWord: the head and the tail of a word without white space. */
  lemma NoSpaceTail(s: string)
    requires s != [] && NoSpace(s)
    ensures !IsSpace(s[0]) && NoSpace(s[1..])
  {
    assert forall i :: 0 <= i < |s| - 1 ==> s[1..][i] == s[i + 1];
  }

  /** Sequence step of TrimStartOfRun: dropping the head of a concatenation. */
  lemma DropHead(word: string, x: string)
    requires word != []
    ensures (word + x)[0] == word[0] && (word + x)[1..] == word[1..] + x
  {
  }

  /** Sequence step of CollapseWordCons: a word is its head consed onto its tail. */
  lemma ConsSplit(word: string, x: string)
    requires word != []
    ensures word + x == [word[0]] + (word[1..] + x)
  {
  }

  lemma CollapseCons(c: char, tail: string)
    requires !IsSpace(c)
    ensures CollapseSpaces([c] + tail) == [c] + CollapseSpaces(tail)
  {
    assert ([c] + tail)[1..] == tail;
  }

  lemma LowerAppend(a: string, b: string)
    ensures Lower(a + b) == Lower(a) + Lower(b)
  {
  }

  /** A word, a run of white space and the rest of the title: the word is
      lower-cased, the whole run becomes one '-', and the rest is slugged on
      its own. */
  lemma SlugifyWord(word: string, run: string, rest: string)
    requires NoSpace(word)
    requires run != [] && forall i :: 0 <= i < |run| ==> IsSpace(run[i])
    requires rest != [] ==> !IsSpace(rest[0])
    ensures Slugify(word + run + rest) == Lower(word) + "-" + Slugify(rest)
  {
    LowerAppend(word + run, rest);
    LowerAppend(word, run);
    LowerKeepsSpaces(word, run, rest);
    CollapseWord(Lower(word), Lower(run), Lower(rest));
  }

  /** Lower-casing keeps every white-space character and every other one. */
  lemma LowerKeepsSpaces(word: string, run: string, rest: string)
    requires NoSpace(word)
    requires forall i :: 0 <= i < |run| ==> IsSpace(run[i])
    requires rest != [] ==> !IsSpace(rest[0])
    ensures NoSpace(Lower(word))
    ensures forall i :: 0 <= i < |run| ==> IsSpace(Lower(run)[i])
    ensures Lower(rest) != [] ==> !IsSpace(Lower(rest)[0])
  {
  }

  /** The movie streaming link built from the slug of the title. */
  function MovieUrl(item: MediaItem): (r: string)
    ensures StartsWith(r, MoviePrefix) && NoSpace(r[|MoviePrefix|..])
    ensures r == MoviePrefix + Slugify(Title(item))
  {
    MoviePrefix + Slugify(Title(item))
  }

  /** The link's slug is already a slug: slugifying it again changes nothing,
      and it is the same slug the episode links use. */
  lemma MovieUrlSlug(item: MediaItem)
    ensures var slug := MovieUrl(item)[|MoviePrefix|..];
      slug == Slugify(Title(item)) && Slugify(slug) == slug
  {
    SlugifyIdempotent(Title(item));
    var r := MovieUrl(item);
    assert r[|MoviePrefix|..] == Slugify(Title(item));
  }

  /** The episode picker of a TV card (`showForm`, `season`, `episode`). */
  class EpisodeForm {
    const slug: string
    var showForm: bool
    var season: string
    var episode: string

    constructor (item: MediaItem)
      ensures slug == Slugify(Title(item))
      ensures !showForm && season == "" && episode == ""
    {
      slug := Slugify(Title(item));
      showForm := false;
      season := "";
      episode := "";
    }

    /** The 'Select Episode' / 'Close Episode Form' button. */
    method ToggleForm()
      modifies this
      ensures showForm == !old(showForm)
      ensures season == old(season) && episode == old(episode)
    {
      showForm := !showForm;
    }

    method SetSeason(value: string)
      modifies this
      ensures season == value
      ensures showForm == old(showForm) && episode == old(episode)
    {
      season := value;
    }

    method SetEpisode(value: string)
      modifies this
      ensures episode == value
      ensures showForm == old(showForm) && season == old(season)
    {
      episode := value;
    }

    /** `handleTvFormSubmit`: the URL target in a new window, if any. A URL is
        target exactly when both season and episode are filled in. */
    method Submit() returns (target: Option<string>)
      ensures target.Some? <==> season != "" && episode != ""
      ensures target.Some? ==>
        target.value == EpisodePrefix + slug + "/" + season + "-" + episode
    {
      if season != "" && episode != "" {
        target := Some(EpisodePrefix + slug + "/" + season + "-" + episode);
      } else {
        target := None;
      }
    }
  }
}
