/** `URLSearchParams`, as the filter form and the pagination links use it: an
    ordered list of name/value pairs, `set`, `get` and `toString`. The
    percent-encoding of `toString` (application/x-www-form-urlencoded) is a
    parameter `encode`. */
module UrlParams {
  import opened Js

  type Pair = (string, string)

  function Names(es: seq<Pair>): (r: seq<string>)
    ensures |r| == |es| && forall i :: 0 <= i < |es| ==> r[i] == es[i].0
  {
    if es == [] then [] else [es[0].0] + Names(es[1..])
  }

  /** `get(name)`: the value of the first pair called `name`, or null (`None`). */
  function Get(es: seq<Pair>, name: string): (r: Option<string>)
    ensures r.Some? <==> name in Names(es)
    ensures r.Some? ==> (name, r.value) in es
  {
    if es == [] then None else if es[0].0 == name then Some(es[0].1) else Get(es[1..], name)
  }

  /** The pairs of `es` not called `name`. */
  function Without(es: seq<Pair>, name: string): (r: seq<Pair>)
    ensures |r| <= |es|
    ensures forall i :: 0 <= i < |r| ==> r[i].0 != name && r[i] in es
  {
    if es == [] then []
    else if es[0].0 == name then Without(es[1..], name)
    else [es[0]] + Without(es[1..], name)
  }

  /** Removing a name removes exactly that name. */
  lemma {:induction false} WithoutGet(es: seq<Pair>, name: string)
    ensures name !in Names(Without(es, name))
    ensures forall other :: other != name ==> Get(Without(es, name), other) == Get(es, other)
    ensures forall x :: x in Names(Without(es, name)) ==> x in Names(es)
  {
    if es != [] {
      WithoutGet(es[1..], name);
      assert Names(es) == [es[0].0] + Names(es[1..]);
      if es[0].0 != name {
        assert Names([es[0]] + Without(es[1..], name)) == [es[0].0] + Names(Without(es[1..], name));
      }
    }
  }

  /** `set(name, value)`: the first pair called `name` takes the value and the
      other pairs of that name are removed; without such a pair, one is
      appended. */
  function SetPair(es: seq<Pair>, name: string, value: string): (r: seq<Pair>)
    ensures (name, value) in r
    ensures |r| <= |es| + 1
  {
    if es == [] then [(name, value)]
    else if es[0].0 == name then [(name, value)] + Without(es[1..], name)
    else [es[0]] + SetPair(es[1..], name, value)
  }

  /** After `set(name, value)`, `get(name)` is `value`, every other name reads
      as before, and no name is added except `name`. */
  lemma {:induction false} SetPairGet(es: seq<Pair>, name: string, value: string)
    ensures Get(SetPair(es, name, value), name) == Some(value)
    ensures forall other :: other != name ==> Get(SetPair(es, name, value), other) == Get(es, other)
    ensures forall x :: x in Names(SetPair(es, name, value)) ==> x == name || x in Names(es)
  {
    if es != [] {
      if es[0].0 != name {
        SetPairGet(es[1..], name, value);
        assert Names(es) == [es[0].0] + Names(es[1..]);
        assert Names(SetPair(es, name, value)) == [es[0].0] + Names(SetPair(es[1..], name, value));
      } else {
        WithoutGet(es[1..], name);
        assert Names(es) == [es[0].0] + Names(es[1..]);
        assert Names(SetPair(es, name, value)) == [name] + Names(Without(es[1..], name));
      }
    }
  }

  /** Setting a name that is not there appends one pair at the end. */
  lemma {:induction false} SetPairAppends(es: seq<Pair>, name: string, value: string)
    requires name !in Names(es)
    ensures SetPair(es, name, value) == es + [(name, value)]
    ensures Names(SetPair(es, name, value)) == Names(es) + [name]
  {
    if es != [] {
      assert Names(es)[0] == es[0].0;
      assert Names(es[1..]) == Names(es)[1..];
      SetPairAppends(es[1..], name, value);
      var rest := SetPair(es[1..], name, value);
      assert SetPair(es, name, value) == [es[0]] + rest;
      assert [es[0]] + (es[1..] + [(name, value)]) == es + [(name, value)];
      assert Names([es[0]] + rest) == [es[0].0] + Names(rest);
    }
  }

  /** Setting a name outside the set `used` of names a list is known to hold
      appends one pair; the list then holds only names of `used` and `name`. */
  lemma AppendFresh(es: seq<Pair>, used: set<string>, name: string, value: string)
    requires forall i :: 0 <= i < |es| ==> es[i].0 in used
    requires name !in used
    ensures SetPair(es, name, value) == es + [(name, value)]
    ensures forall i :: 0 <= i < |es| + 1 ==> (es + [(name, value)])[i].0 in used + {name}
  {
    SetPairAppends(es, name, value);
  }

  /** Setting a name not yet present adds its `name=value` field at the end
      of the query string. */
  lemma SerializeFreshSet(es: seq<Pair>, used: set<string>, name: string, value: string,
                          encode: string -> string)
    requires forall i :: 0 <= i < |es| ==> es[i].0 in used
    requires name !in used
    ensures Serialize(SetPair(es, name, value), encode)
         == if es == [] then encode(name) + "=" + encode(value)
            else Serialize(es, encode) + "&" + encode(name) + "=" + encode(value)
  {
    AppendFresh(es, used, name, value);
    var p := (name, value);
    if es == [] {
      assert es + [p] == [p];
      assert Fields([p], encode) == [encode(p.0) + "=" + encode(p.1)];
    } else {
      SerializeSnoc(es, p, encode);
    }
  }

  /** `toString()`: `name=value` pairs joined by `&`. */
  function Serialize(es: seq<Pair>, encode: string -> string): (r: string)
    ensures es == [] ==> r == ""
    ensures es != [] ==> StartsWith(r, encode(es[0].0) + "=" + encode(es[0].1))
  {
    if es != [] then JoinStartsWithHead(Fields(es, encode), "&"); Join(Fields(es, encode), "&")
    else Join(Fields(es, encode), "&")
  }

  function Fields(es: seq<Pair>, encode: string -> string): (r: seq<string>)
    ensures |r| == |es|
    ensures forall i :: 0 <= i < |es| ==> r[i] == encode(es[i].0) + "=" + encode(es[i].1)
  {
    if es == [] then [] else [encode(es[0].0) + "=" + encode(es[0].1)] + Fields(es[1..], encode)
  }

  /** Setting one more pair appends `&name=value` to a non-empty query string. */
  lemma SerializeSnoc(es: seq<Pair>, p: Pair, encode: string -> string)
    requires es != []
    ensures Serialize(es + [p], encode) == Serialize(es, encode) + "&" + encode(p.0) + "=" + encode(p.1)
  {
    assert Fields(es + [p], encode) == Fields(es, encode) + [encode(p.0) + "=" + encode(p.1)];
    JoinSnoc(Fields(es, encode), encode(p.0) + "=" + encode(p.1), "&");
  }

  class SearchParams {
    var entries: seq<Pair>

    /** `new URLSearchParams()`. */
    constructor ()
      ensures entries == []
    {
      entries := [];
    }

    method Set(name: string, value: string)
      modifies this
      ensures entries == SetPair(old(entries), name, value)
    {
      entries := SetPair(entries, name, value);
    }
  }
}
