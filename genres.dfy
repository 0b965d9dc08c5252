/** The genres endpoint: the genre list of movies, of TV, or of both merged
    through a `Map` keyed by genre id, formatted as dropdown options and
    ordered by label. The two upstream genre lists are parameters. */
module GenresRoute {
  import opened Js
  import Sorting

  datatype Genre = Genre(id: int, name: string)

  /** A dropdown option: `{ value, label }` (the label is `text` here). */
  datatype SelectOption = SelectOption(value: string, text: string)

  function Ids(es: seq<Genre>): (r: seq<int>)
    ensures |r| == |es| && forall i :: 0 <= i < |es| ==> r[i] == es[i].id
  {
    if es == [] then [] else [es[0].id] + Ids(es[1..])
  }

  /** No id is listed twice, as in the entries of a `Map`. */
  predicate Unique(es: seq<Genre>)
  {
    forall i, j :: 0 <= i < j < |es| ==> es[i].id != es[j].id
  }

  /** `map.get(id)`. */
  function Lookup(es: seq<Genre>, id: int): Option<string>
  {
    if es == [] then None else if es[0].id == id then Some(es[0].name) else Lookup(es[1..], id)
  }

  lemma LookupFound(es: seq<Genre>, id: int)
    ensures Lookup(es, id).Some? <==> id in Ids(es)
  {
    if es != [] {
      LookupFound(es[1..], id);
      assert Ids(es) == [es[0].id] + Ids(es[1..]);
    }
  }

  /** `map.set(id, name)`: an id already present keeps its place and takes the
      new name; a new id is added at the end. */
  function Put(es: seq<Genre>, id: int, name: string): (r: seq<Genre>)
    ensures Ids(r) == if id in Ids(es) then Ids(es) else Ids(es) + [id]
    ensures Lookup(r, id) == Some(name)
    ensures forall k :: k != id ==> Lookup(r, k) == Lookup(es, k)
  {
    if es == [] then [Genre(id, name)]
    else if es[0].id == id then
      var r := [Genre(id, name)] + es[1..];
      assert r[1..] == es[1..];
      assert Ids(r) == Ids(es);
      r
    else
      var rest := Put(es[1..], id, name);
      var r := [es[0]] + rest;
      assert r[1..] == rest;
      assert Ids(es) == [es[0].id] + Ids(es[1..]);
      assert Ids(r) == [es[0].id] + Ids(rest);
      r
  }

  lemma PutUnique(es: seq<Genre>, id: int, name: string)
    requires Unique(es)
    ensures Unique(Put(es, id, name))
  {
    var r := Put(es, id, name);
    forall i, j | 0 <= i < j < |r| ensures r[i].id != r[j].id {
      assert Ids(r)[i] == r[i].id && Ids(r)[j] == r[j].id;
      if id !in Ids(es) && j == |es| {
        assert Ids(es)[i] == es[i].id;
      } else {
        assert Ids(es)[i] == es[i].id && Ids(es)[j] == es[j].id;
      }
    }
  }

  /** The map after `forEach(g => map.set(g.id, g.name))` over `gs`. */
  function PutAll(es: seq<Genre>, gs: seq<Genre>): (r: seq<Genre>)
    ensures |es| <= |r|
    ensures gs != [] ==> Lookup(r, gs[|gs| - 1].id) == Some(gs[|gs| - 1].name)
  {
    if gs == [] then es
    else Put(PutAll(es, gs[..|gs| - 1]), gs[|gs| - 1].id, gs[|gs| - 1].name)
  }

  /** The name of the last genre of `gs` with this id. */
  function LastName(gs: seq<Genre>, id: int): (r: Option<string>)
    ensures r.Some? <==> id in Ids(gs)
  {
    if gs == [] then None
    else if gs[|gs| - 1].id == id then Some(gs[|gs| - 1].name)
    else
      assert gs == gs[..|gs| - 1] + [gs[|gs| - 1]];
      IdsSnoc(gs[..|gs| - 1], gs[|gs| - 1]);
      LastName(gs[..|gs| - 1], id)
  }

  /** After the loop each id of `gs` holds the name of its last occurrence in
      `gs`; every other id keeps its entry. */
  lemma {:induction false} PutAllLookup(es: seq<Genre>, gs: seq<Genre>, id: int)
    ensures Lookup(PutAll(es, gs), id) == match LastName(gs, id)
      case Some(n) => Some(n)
      case None => Lookup(es, id)
    decreases |gs|
  {
    if gs != [] {
      PutAllLookup(es, gs[..|gs| - 1], id);
    }
  }

  /** The loop keeps the map's ids unique. */
  lemma {:induction false} PutAllUnique(es: seq<Genre>, gs: seq<Genre>)
    requires Unique(es)
    ensures Unique(PutAll(es, gs))
    decreases |gs|
  {
    if gs != [] {
      PutAllUnique(es, gs[..|gs| - 1]);
      PutUnique(PutAll(es, gs[..|gs| - 1]), gs[|gs| - 1].id, gs[|gs| - 1].name);
    }
  }

  /** After the loop the map holds the ids it held and the ids of `gs`. */
  lemma {:induction false} PutAllIds(es: seq<Genre>, gs: seq<Genre>)
    ensures forall id :: id in Ids(PutAll(es, gs)) <==> id in Ids(es) || id in Ids(gs)
    decreases |gs|
  {
    if gs != [] {
      PutAllIds(es, gs[..|gs| - 1]);
      assert gs == gs[..|gs| - 1] + [gs[|gs| - 1]];
      IdsSnoc(gs[..|gs| - 1], gs[|gs| - 1]);
    }
  }

  lemma IdsSnoc(init: seq<Genre>, last: Genre)
    ensures Ids(init + [last]) == Ids(init) + [last.id]
  {
    var a := Ids(init + [last]);
    var b := Ids(init) + [last.id];
    assert |a| == |b|;
    forall i | 0 <= i < |a| ensures a[i] == b[i] {
      if i < |init| {
        assert (init + [last])[i] == init[i];
      }
    }
  }

  /** The entries already in the map keep their places; the loop only adds
      ids it had not seen. */
  lemma {:induction false} PutAllExtends(es: seq<Genre>, gs: seq<Genre>)
    ensures |es| <= |PutAll(es, gs)| && Ids(PutAll(es, gs))[..|es|] == Ids(es)
    ensures forall i :: |es| <= i < |PutAll(es, gs)| ==> PutAll(es, gs)[i].id !in Ids(es)
    decreases |gs|
  {
    if gs != [] {
      var init := gs[..|gs| - 1];
      var last := gs[|gs| - 1];
      PutAllExtends(es, init);
      var p := PutAll(es, init);
      var r := PutAll(es, gs);
      assert Ids(r)[..|p|] == Ids(p);
      assert Ids(r)[..|es|] == Ids(p)[..|es|];
      forall i | |es| <= i < |r| ensures r[i].id !in Ids(es) {
        assert Ids(r)[i] == r[i].id;
        if i < |p| {
          assert Ids(p)[i] == r[i].id;
        } else {
          assert r[i].id == last.id && last.id !in Ids(p);
          assert Ids(es) == Ids(p)[..|es|];
        }
      }
    }
  }

  /** The merged map of the `all` type: the movie genres, then the TV genres
      not already there. */
  function Merge(movie: seq<Genre>, tv: seq<Genre>): (r: seq<Genre>)
    ensures Unique(r)
    ensures forall id :: id in Ids(r) <==> id in Ids(movie) || id in Ids(tv)
  {
    var m := PutAll([], movie);
    PutAllUnique([], movie);
    PutAllUnique(m, tv);
    PutAllIds([], movie);
    PutAllIds(m, tv);
    PutAll(m, tv)
  }

  /** The merged list has each genre id of either list exactly once; the name
      of an id on the TV list is the TV name (its last occurrence), the name of
      any other id its last movie name; and the ids first seen on the movie
      list come before those seen only on the TV list. */
  lemma MergeProperties(movie: seq<Genre>, tv: seq<Genre>)
    ensures Unique(Merge(movie, tv))
    ensures forall id :: id in Ids(Merge(movie, tv)) <==> id in Ids(movie) || id in Ids(tv)
    ensures forall id :: id in Ids(tv) ==> Lookup(Merge(movie, tv), id) == LastName(tv, id)
    ensures forall id :: id !in Ids(tv) ==> Lookup(Merge(movie, tv), id) == LastName(movie, id)
    ensures forall i, j :: 0 <= i < j < |Merge(movie, tv)| && Merge(movie, tv)[j].id in Ids(movie) ==>
      Merge(movie, tv)[i].id in Ids(movie)
  {
    forall id ensures Lookup(Merge(movie, tv), id) ==
      if id in Ids(tv) then LastName(tv, id) else LastName(movie, id)
    {
      MergeLookup(movie, tv, id);
    }
    MergeOrder(movie, tv);
  }

  lemma MergeLookup(movie: seq<Genre>, tv: seq<Genre>, id: int)
    ensures Lookup(Merge(movie, tv), id) ==
      if id in Ids(tv) then LastName(tv, id) else LastName(movie, id)
  {
    var m := PutAll([], movie);
    PutAllLookup(m, tv, id);
    PutAllLookup([], movie, id);
  }

  lemma MergeOrder(movie: seq<Genre>, tv: seq<Genre>)
    ensures forall i, j :: 0 <= i < j < |Merge(movie, tv)| && Merge(movie, tv)[j].id in Ids(movie) ==>
      Merge(movie, tv)[i].id in Ids(movie)
  {
    var m := PutAll([], movie);
    var r := PutAll(m, tv);
    assert Merge(movie, tv) == r;
    PutAllIds([], movie);
    PutAllExtends(m, tv);
    forall i, j | 0 <= i < j < |r| && r[j].id in Ids(movie) ensures r[i].id in Ids(movie) {
      assert r[j].id in Ids(m);
      PrefixEntry(m, r, i);
    }
  }

  /** An entry in the kept prefix has one of the prefix's ids. */
  lemma PrefixEntry(m: seq<Genre>, r: seq<Genre>, i: int)
    requires 0 <= i < |m| <= |r| && Ids(r)[..|m|] == Ids(m)
    ensures r[i].id in Ids(m)
  {
    assert Ids(r)[i] == Ids(m)[i];
  }

  function IdSet(es: seq<Genre>): set<int>
  {
    set g | g in es :: g.id
  }

  lemma IdSetIds(es: seq<Genre>)
    ensures forall id :: id in IdSet(es) <==> id in Ids(es)
  {
    forall id | id in Ids(es) ensures id in IdSet(es) {
      var k :| 0 <= k < |es| && Ids(es)[k] == id;
      assert es[k] in es;
    }
  }

  /** A list without repeated ids has as many entries as distinct ids. */
  lemma {:induction false} UniqueCount(es: seq<Genre>)
    requires Unique(es)
    ensures |IdSet(es)| == |es|
  {
    if es != [] {
      var tail := es[1..];
      UniqueCount(tail);
      IdSetCons(es);
      assert es[0].id !in IdSet(tail);
    }
  }

  lemma IdSetCons(es: seq<Genre>)
    requires es != []
    ensures IdSet(es) == {es[0].id} + IdSet(es[1..])
  {
    assert es == [es[0]] + es[1..];
  }

  lemma {:induction false} PutAllLength(es: seq<Genre>, gs: seq<Genre>)
    ensures |PutAll(es, gs)| <= |es| + |gs|
    decreases |gs|
  {
    if gs != [] {
      PutAllLength(es, gs[..|gs| - 1]);
    }
  }

  /** The merged list has one entry per distinct id of the two lists, so it is
      never longer than both lists together. */
  lemma MergeCount(movie: seq<Genre>, tv: seq<Genre>)
    ensures |Merge(movie, tv)| == |IdSet(movie) + IdSet(tv)|
    ensures |Merge(movie, tv)| <= |movie| + |tv|
  {
    var r := Merge(movie, tv);
    MergeProperties(movie, tv);
    IdSetIds(r);
    IdSetIds(movie);
    IdSetIds(tv);
    assert IdSet(r) == IdSet(movie) + IdSet(tv);
    UniqueCount(r);
    PutAllLength([], movie);
    PutAllLength(PutAll([], movie), tv);
  }

  /** `{ value: g.id.toString(), label: g.name }` for every genre. */
  function Format(gs: seq<Genre>): (r: seq<SelectOption>)
    ensures |r| == |gs|
    ensures forall i :: 0 <= i < |gs| ==> r[i] == SelectOption(IntToString(gs[i].id), gs[i].name)
  {
    if gs == [] then [] else [SelectOption(IntToString(gs[0].id), gs[0].name)] + Format(gs[1..])
  }

  /** Option values are decimal ids, so distinct ids give distinct values. */
  lemma FormatValuesDistinct(gs: seq<Genre>)
    requires Unique(gs)
    ensures forall i, j :: 0 <= i < j < |gs| ==> Format(gs)[i].value != Format(gs)[j].value
  {
    forall i, j | 0 <= i < j < |gs| ensures Format(gs)[i].value != Format(gs)[j].value {
      ParseIntOfIntToString(gs[i].id);
      ParseIntOfIntToString(gs[j].id);
    }
  }

  /** `a.label.localeCompare(b.label)`, with `collate(x, y)` meaning that
      `x.localeCompare(y) <= 0`. */
  function ByLabel(collate: (string, string) -> bool): (SelectOption, SelectOption) -> bool
  {
    (a: SelectOption, b: SelectOption) => collate(a.text, b.text)
  }

  /** The genres the endpoint formats for a type. */
  function Chosen(mediaType: string, movie: seq<Genre>, tv: seq<Genre>): (r: seq<Genre>)
    ensures forall id :: id in Ids(r) ==> id in Ids(movie) || id in Ids(tv)
    ensures mediaType != "movie" && mediaType != "tv" ==> Unique(r)
    ensures Unique(movie) && Unique(tv) ==> Unique(r)
  {
    if mediaType == "movie" then movie else if mediaType == "tv" then tv else Merge(movie, tv)
  }

  /** A `Map<number, string>` as the endpoint fills it. */
  class GenreMap {
    var entries: seq<Genre>

    constructor ()
      ensures entries == []
    {
      entries := [];
    }

    method Set(id: int, name: string)
      modifies this
      ensures entries == Put(old(entries), id, name)
    {
      entries := Put(entries, id, name);
    }
  }

  /** The `all` type: one map filled with the movie genres and then the TV
      genres. */
  method FillMap(movieGenres: seq<Genre>, tvGenres: seq<Genre>) returns (entries: seq<Genre>)
    ensures entries == Merge(movieGenres, tvGenres)
  {
    var genreMap := new GenreMap();
    for i := 0 to |movieGenres|
      invariant genreMap.entries == PutAll([], movieGenres[..i])
    {
      assert movieGenres[..i + 1][..i] == movieGenres[..i];
      genreMap.Set(movieGenres[i].id, movieGenres[i].name);
    }
    assert movieGenres[..|movieGenres|] == movieGenres;
    var seen := genreMap.entries;
    for i := 0 to |tvGenres|
      invariant genreMap.entries == PutAll(seen, tvGenres[..i])
    {
      assert tvGenres[..i + 1][..i] == tvGenres[..i];
      genreMap.Set(tvGenres[i].id, tvGenres[i].name);
    }
    assert tvGenres[..|tvGenres|] == tvGenres;
    entries := genreMap.entries;
  }

  /** `GET /api/genres?type=...`: no options without an API key; otherwise
      the chosen genres formatted, ordered by label. */
  method Get(typeParam: string, apiKey: string, movieGenres: seq<Genre>, tvGenres: seq<Genre>,
             collate: (string, string) -> bool)
    returns (options: seq<SelectOption>)
    ensures apiKey == "" ==> options == []
    ensures apiKey != "" ==>
      var chosen := Chosen(Or(typeParam, "all"), movieGenres, tvGenres);
      && options == Sorting.Sort(Format(chosen), ByLabel(collate))
      && multiset(options) == multiset(Format(chosen))
      && (Sorting.TotalPreorder(ByLabel(collate)) ==> Sorting.SortedBy(options, ByLabel(collate)))
    ensures apiKey != "" && Or(typeParam, "all") != "movie" && Or(typeParam, "all") != "tv" ==>
      forall o :: o in options <==> o in Format(Merge(movieGenres, tvGenres))
  {
    var mediaType := Or(typeParam, "all");
    if apiKey == "" {
      return [];
    }
    var genres: seq<Genre>;
    if mediaType == "movie" {
      genres := movieGenres;
    } else if mediaType == "tv" {
      genres := tvGenres;
    } else {
      genres := FillMap(movieGenres, tvGenres);
    }
    var formatted := Format(genres);
    options := Sorting.Sort(formatted, ByLabel(collate));
    if Sorting.TotalPreorder(ByLabel(collate)) {
      Sorting.SortSorted(formatted, ByLabel(collate));
    }
    forall o ensures o in options <==> o in formatted {
      Sorting.SortMembers(formatted, ByLabel(collate), o);
    }
  }
}
