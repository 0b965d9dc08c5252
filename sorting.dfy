/** `Array.prototype.sort` with a comparator, as the application uses it to
    order genre and provider labels and the combined movie/TV list. The
    engine's sort is stable, so its result is determined by the comparator:
    the permutation of the input that is ordered and keeps equivalent
    elements in their original order. `Sort` computes that permutation by
    insertion. A comparator `cmp` is represented by `le(a, b) == (cmp(a, b) <= 0)`. */
module Sorting {

  /** A comparator that behaves consistently: total and transitive. */
  ghost predicate TotalPreorder<T(!new)>(le: (T, T) -> bool)
  {
    && (forall a, b :: le(a, b) || le(b, a))
    && (forall a, b, c :: le(a, b) && le(b, c) ==> le(a, c))
  }

  ghost predicate SortedBy<T>(s: seq<T>, le: (T, T) -> bool)
  {
    forall i, j :: 0 <= i < j < |s| ==> le(s[i], s[j])
  }

  /** Puts `x` in front of the first element that it may precede. */
  function Insert<T>(x: T, s: seq<T>, le: (T, T) -> bool): (r: seq<T>)
    ensures multiset(r) == multiset(s) + multiset{x}
    ensures |r| == |s| + 1
  {
    if s == [] || le(x, s[0]) then [x] + s
    else
      assert s == [s[0]] + s[1..];
      [s[0]] + Insert(x, s[1..], le)
  }

  /** The stable sort of `s` by `le`. */
  function Sort<T>(s: seq<T>, le: (T, T) -> bool): (r: seq<T>)
    ensures multiset(r) == multiset(s)
    ensures |r| == |s|
  {
    if s == [] then []
    else
      assert s == [s[0]] + s[1..];
      Insert(s[0], Sort(s[1..], le), le)
  }

  lemma {:induction false} InsertSorted<T(!new)>(x: T, s: seq<T>, le: (T, T) -> bool)
    requires TotalPreorder(le) && SortedBy(s, le)
    ensures SortedBy(Insert(x, s, le), le)
  {
    if s == [] || le(x, s[0]) {
    } else {
      var t := Insert(x, s[1..], le);
      InsertSorted(x, s[1..], le);
      forall j | 0 <= j < |t| ensures le(s[0], t[j]) {
        assert t[j] in multiset(t);
        if t[j] != x {
          assert t[j] in multiset(s[1..]);
          var k :| 0 <= k < |s[1..]| && s[1..][k] == t[j];
          assert s[k + 1] == t[j];
        }
      }
      assert Insert(x, s, le) == [s[0]] + t;
    }
  }

  /** The result of `Sort` is ordered by any consistent comparator. */
  lemma {:induction false} SortSorted<T(!new)>(s: seq<T>, le: (T, T) -> bool)
    requires TotalPreorder(le)
    ensures SortedBy(Sort(s, le), le)
  {
    if s != [] {
      SortSorted(s[1..], le);
      InsertSorted(s[0], Sort(s[1..], le), le);
    }
  }

  ghost predicate Equivalent<T>(le: (T, T) -> bool, a: T, b: T)
  {
    le(a, b) && le(b, a)
  }

  /** The elements of `s` equivalent to `pivot`, in their order in `s`. */
  ghost function Class<T>(s: seq<T>, le: (T, T) -> bool, pivot: T): seq<T>
  {
    if s == [] then []
    else (if Equivalent(le, s[0], pivot) then [s[0]] else []) + Class(s[1..], le, pivot)
  }

  lemma {:induction false} ClassOfInsert<T(!new)>(x: T, s: seq<T>, le: (T, T) -> bool, pivot: T)
    requires TotalPreorder(le)
    ensures Class(Insert(x, s, le), le, pivot)
         == (if Equivalent(le, x, pivot) then [x] else []) + Class(s, le, pivot)
  {
    if s == [] || le(x, s[0]) {
      ClassCons(x, s, le, pivot);
    } else {
      var t := Insert(x, s[1..], le);
      assert Insert(x, s, le) == [s[0]] + t;
      ClassCons(s[0], t, le, pivot);
      ClassOfInsert(x, s[1..], le, pivot);
      assert s == [s[0]] + s[1..];
      ClassCons(s[0], s[1..], le, pivot);
      var ex := if Equivalent(le, x, pivot) then [x] else [];
      var e0 := if Equivalent(le, s[0], pivot) then [s[0]] else [];
      assert ex == [] || e0 == [];
      SwapFronts(e0, ex, Class(s[1..], le, pivot));
    }
  }

  /** `Class` takes the first element when it is equivalent to the pivot. */
  lemma ClassCons<T>(h: T, t: seq<T>, le: (T, T) -> bool, pivot: T)
    ensures Class([h] + t, le, pivot)
         == (if Equivalent(le, h, pivot) then [h] else []) + Class(t, le, pivot)
  {
    assert ([h] + t)[1..] == t;
  }

  lemma SwapFronts<T>(a: seq<T>, b: seq<T>, c: seq<T>)
    requires a == [] || b == []
    ensures a + (b + c) == b + (a + c)
  {
  }

  /** Stability: sorting keeps every class of equivalent elements in the
      order the input had them. */
  lemma {:induction false} SortStable<T(!new)>(s: seq<T>, le: (T, T) -> bool, pivot: T)
    requires TotalPreorder(le)
    ensures Class(Sort(s, le), le, pivot) == Class(s, le, pivot)
  {
    if s != [] {
      SortStable(s[1..], le, pivot);
      ClassOfInsert(s[0], Sort(s[1..], le), le, pivot);
    }
  }

  /** The elements of a sorted permutation are those of the input. */
  lemma SortMembers<T>(s: seq<T>, le: (T, T) -> bool, x: T)
    ensures x in Sort(s, le) <==> x in s
  {
    assert x in Sort(s, le) <==> x in multiset(Sort(s, le));
    assert x in s <==> x in multiset(s);
  }

  /** A run of consecutive elements of a sorted list is sorted. */
  lemma SortedWindow<T>(s: seq<T>, start: nat, w: seq<T>, le: (T, T) -> bool)
    requires SortedBy(s, le)
    requires start + |w| <= |s| && forall i :: 0 <= i < |w| ==> w[i] == s[start + i]
    ensures SortedBy(w, le)
  {
    forall i, j | 0 <= i < j < |w| ensures le(w[i], w[j]) {
      assert w[i] == s[start + i] && w[j] == s[start + j];
    }
  }
}
