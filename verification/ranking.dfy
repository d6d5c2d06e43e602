/**
 * The ordering used by the signature detector, the cross-validator and
 * the fusion stage: `list.sort(key=..., reverse=True)`, a stable sort by
 * non-increasing key.  Elements with equal keys keep their input order,
 * which decides the primary fault when two posteriors tie.
 *
 * `SortDesc` is insertion sort over the input taken left to right; each
 * new element goes after every element whose key is at least its own.
 */
module Ranking {

  ghost predicate SortedDesc<T>(s: seq<T>, key: T -> real)
  {
    forall i, j :: 0 <= i < j < |s| ==> key(s[i]) >= key(s[j])
  }

  /** No element occurs twice. */
  ghost predicate Distinct<T>(s: seq<T>)
  {
    forall i, j :: 0 <= i < j < |s| ==> s[i] != s[j]
  }

  /** Places `x` after the longest prefix of `s` whose keys are at least `key(x)`. */
  function Insert<T>(x: T, s: seq<T>, key: T -> real): (r: seq<T>)
    ensures |r| == |s| + 1
    ensures multiset(r) == multiset(s) + multiset{x}
  {
    if s == [] || key(s[0]) < key(x) then
      [x] + s
    else
      assert s == [s[0]] + s[1..];
      [s[0]] + Insert(x, s[1..], key)
  }

  ghost predicate AllAtMost<T>(s: seq<T>, key: T -> real, bound: real)
  {
    forall k :: 0 <= k < |s| ==> key(s[k]) <= bound
  }

  lemma {:induction false} InsertAtMost<T>(x: T, s: seq<T>, key: T -> real, bound: real)
    requires AllAtMost(s, key, bound) && key(x) <= bound
    ensures AllAtMost(Insert(x, s, key), key, bound)
  {
    if s == [] || key(s[0]) < key(x) {
    } else {
      InsertAtMost(x, s[1..], key, bound);
    }
  }

  /** A sorted head followed by a sorted tail whose keys do not exceed the head's. */
  lemma ConsSorted<T>(h: T, t: seq<T>, key: T -> real)
    requires SortedDesc(t, key) && AllAtMost(t, key, key(h))
    ensures SortedDesc([h] + t, key)
  {
    var r := [h] + t;
    forall i, j | 0 <= i < j < |r|
      ensures key(r[i]) >= key(r[j])
    {
      assert r[j] == t[j - 1];
      if i > 0 {
        assert r[i] == t[i - 1];
      }
    }
  }

  lemma {:induction false} InsertSorted<T>(x: T, s: seq<T>, key: T -> real)
    requires SortedDesc(s, key)
    ensures SortedDesc(Insert(x, s, key), key)
  {
    if s == [] || key(s[0]) < key(x) {
      if s != [] {
        assert AllAtMost(s, key, key(x));
      }
      ConsSorted(x, s, key);
    } else {
      var tail := s[1..];
      assert SortedDesc(tail, key);
      assert AllAtMost(tail, key, key(s[0]));
      InsertSorted(x, tail, key);
      InsertAtMost(x, tail, key, key(s[0]));
      ConsSorted(s[0], Insert(x, tail, key), key);
    }
  }

  /** The stable descending sort of `s` by `key`. */
  function SortDesc<T>(s: seq<T>, key: T -> real): (r: seq<T>)
    ensures |r| == |s|
    ensures multiset(r) == multiset(s)
    ensures SortedDesc(r, key)
  {
    if s == [] then
      []
    else
      var init := s[..|s| - 1];
      assert s == init + [s[|s| - 1]];
      var sortedInit := SortDesc(init, key);
      InsertSorted(s[|s| - 1], sortedInit, key);
      Insert(s[|s| - 1], sortedInit, key)
  }

  /** Sorting neither adds nor drops elements. */
  lemma SortDescMembers<T>(s: seq<T>, key: T -> real, x: T)
    ensures x in SortDesc(s, key) <==> x in s
  {
    var r := SortDesc(s, key);
    assert x in r <==> x in multiset(r);
    assert x in s <==> x in multiset(s);
  }

  lemma {:induction false} InsertDistinct<T>(x: T, s: seq<T>, key: T -> real)
    requires Distinct(s) && x !in s
    ensures Distinct(Insert(x, s, key))
  {
    if s == [] || key(s[0]) < key(x) {
    } else {
      assert s == [s[0]] + s[1..];
      InsertDistinct(x, s[1..], key);
      var rest := Insert(x, s[1..], key);
      forall k | 0 <= k < |rest|
        ensures rest[k] != s[0]
      {
        assert rest[k] in multiset(rest);
        assert rest[k] == x || rest[k] in multiset(s[1..]);
      }
    }
  }

  /** Sorting a list without repeated elements yields one without repeated elements. */
  lemma {:induction false} SortDescDistinct<T>(s: seq<T>, key: T -> real)
    requires Distinct(s)
    ensures Distinct(SortDesc(s, key))
  {
    if s != [] {
      var init := s[..|s| - 1];
      assert s == init + [s[|s| - 1]];
      SortDescDistinct(init, key);
      SortDescMembers(init, key, s[|s| - 1]);
      InsertDistinct(s[|s| - 1], SortDesc(init, key), key);
    }
  }

  /** The elements of `s` whose key is `v`, in their order in `s`. */
  function WithKey<T>(s: seq<T>, key: T -> real, v: real): seq<T>
  {
    if s == [] then [] else (if key(s[0]) == v then [s[0]] else []) + WithKey(s[1..], key, v)
  }

  lemma {:induction false} WithKeyAppend<T>(a: seq<T>, b: seq<T>, key: T -> real, v: real)
    ensures WithKey(a + b, key, v) == WithKey(a, key, v) + WithKey(b, key, v)
  {
    if a == [] {
      assert a + b == b;
    } else {
      var t := a[1..];
      assert a == [a[0]] + t;
      assert a + b == [a[0]] + (t + b);
      WithKeyAppend(t, b, key, v);
      ConsKeepsTail(a[0], t + b, t, WithKey(b, key, v), key, v);
    }
  }

  lemma {:induction false} NoneWithKey<T>(s: seq<T>, key: T -> real, v: real)
    requires forall k :: 0 <= k < |s| ==> key(s[k]) < v
    ensures WithKey(s, key, v) == []
  {
    if s != [] {
      NoneWithKey(s[1..], key, v);
    }
  }

  lemma ConsWithKey<T>(h: T, t: seq<T>, key: T -> real, v: real)
    ensures WithKey([h] + t, key, v) == (if key(h) == v then [h] else []) + WithKey(t, key, v)
  {
    assert ([h] + t)[0] == h && ([h] + t)[1..] == t;
  }

  /** `x` placed in front of a sorted list whose keys are all below its own. */
  lemma FrontWithKey<T>(x: T, s: seq<T>, key: T -> real, v: real)
    requires SortedDesc(s, key) && s != [] && key(s[0]) < key(x)
    ensures WithKey([x] + s, key, v) == WithKey(s, key, v) + (if key(x) == v then [x] else [])
  {
    var r := [x] + s;
    assert r[0] == x && r[1..] == s;
    if key(x) == v {
      NoneWithKey(s, key, v);
    }
  }

  /** Putting the same element in front of two lists keeps what one has over the other. */
  lemma ConsKeepsTail<T>(h: T, t: seq<T>, u: seq<T>, extra: seq<T>, key: T -> real, v: real)
    requires WithKey(t, key, v) == WithKey(u, key, v) + extra
    ensures WithKey([h] + t, key, v) == WithKey([h] + u, key, v) + extra
  {
    ConsWithKey(h, t, key, v);
    ConsWithKey(h, u, key, v);
    Associative(if key(h) == v then [h] else [], WithKey(u, key, v), extra);
  }

  lemma Associative<T>(a: seq<T>, b: seq<T>, c: seq<T>)
    ensures a + (b + c) == (a + b) + c
  {
  }

  lemma SingleWithKey<T>(x: T, key: T -> real, v: real)
    ensures WithKey([x], key, v) == if key(x) == v then [x] else []
  {
    assert [x][1..] == [];
  }

  /** When the head's key is at least that of `x`, `x` is inserted behind it. */
  lemma InsertBehind<T>(x: T, s: seq<T>, key: T -> real)
    requires s != [] && key(s[0]) >= key(x)
    ensures Insert(x, s, key) == [s[0]] + Insert(x, s[1..], key)
  {
  }

  /** One step of the insertion: `x` goes behind the head, so the head's mark comes first. */
  lemma InsertBehindWithKey<T>(x: T, s: seq<T>, key: T -> real, v: real)
    requires s != [] && key(s[0]) >= key(x)
    requires WithKey(Insert(x, s[1..], key), key, v) == WithKey(s[1..], key, v) + (if key(x) == v then [x] else [])
    ensures WithKey(Insert(x, s, key), key, v) == WithKey(s, key, v) + (if key(x) == v then [x] else [])
  {
    InsertBehind(x, s, key);
    assert s == [s[0]] + s[1..];
    ConsKeepsTail(s[0], Insert(x, s[1..], key), s[1..], if key(x) == v then [x] else [], key, v);
  }

  /** Inserting into a sorted list puts `x` after every element with the same key. */
  lemma {:induction false} InsertWithKey<T>(x: T, s: seq<T>, key: T -> real, v: real)
    requires SortedDesc(s, key)
    ensures WithKey(Insert(x, s, key), key, v) == WithKey(s, key, v) + (if key(x) == v then [x] else [])
  {
    var mark := if key(x) == v then [x] else [];
    if s == [] {
      assert Insert(x, s, key) == [x];
      assert WithKey([x], key, v) == mark + WithKey([x][1..], key, v);
    } else if key(s[0]) < key(x) {
      assert Insert(x, s, key) == [x] + s;
      FrontWithKey(x, s, key, v);
    } else {
      InsertWithKey(x, s[1..], key, v);
      InsertBehindWithKey(x, s, key, v);
    }
  }

  /**
   * Stability: for every key value, the elements carrying it appear in the
   * sorted list in the same order as in the input.
   */
  lemma {:induction false} SortDescStable<T>(s: seq<T>, key: T -> real, v: real)
    ensures WithKey(SortDesc(s, key), key, v) == WithKey(s, key, v)
  {
    if s != [] {
      var init, last := s[..|s| - 1], s[|s| - 1];
      assert s == init + [last];
      assert SortDesc(s, key) == Insert(last, SortDesc(init, key), key);
      SortDescStable(init, key, v);
      InsertWithKey(last, SortDesc(init, key), key, v);
      WithKeyAppend(init, [last], key, v);
      SingleWithKey(last, key, v);
    }
  }

  /** The first element with key `v` heads the elements carrying it. */
  lemma {:induction false} FirstWithKey<T>(s: seq<T>, key: T -> real, v: real, i: nat)
    requires i < |s| && key(s[i]) == v
    requires forall j :: 0 <= j < i ==> key(s[j]) != v
    ensures WithKey(s, key, v) != [] && WithKey(s, key, v)[0] == s[i]
  {
    if i > 0 {
      FirstWithKey(s[1..], key, v, i - 1);
    }
  }
}
