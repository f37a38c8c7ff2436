/**
 * Python's ordering built-ins as the pipeline uses them: `sorted(.., key, reverse=True)` and
 * `list.sort(key, reverse=True)` (both stable), `max(.., key)` (the first maximal element) and
 * slicing `s[:k]`.
 */
module Sorting {

  /** Python's `s[:k]` for any integer `k` (a negative `k` drops elements from the end). */
  function Prefix<T>(s: seq<T>, k: int): (r: seq<T>)
    ensures |r| == if 0 <= k <= |s| then k else if k > |s| then |s| else if |s| + k >= 0 then |s| + k else 0
    ensures r == s[..|r|]
  {
    if k >= 0 then (if k <= |s| then s[..k] else s)
    else if |s| + k >= 0 then s[..|s| + k] else []
  }

  predicate SortedDesc<T>(s: seq<T>, key: T -> real)
  {
    forall i, j :: 0 <= i < j < |s| ==> key(s[i]) >= key(s[j])
  }

  /** The elements of `s` whose key is `v`, in their order in `s`. */
  function WithKey<T>(s: seq<T>, key: T -> real, v: real): seq<T>
  {
    if s == [] then []
    else (if key(s[0]) == v then [s[0]] else []) + WithKey(s[1..], key, v)
  }

  /** Places `x` in front of the first element whose key is not greater than its own. */
  function Insert<T>(x: T, s: seq<T>, key: T -> real): (r: seq<T>)
    ensures |r| == |s| + 1
    ensures multiset(r) == multiset(s) + multiset{x}
  {
    if s != [] && key(s[0]) > key(x) then
      assert s == [s[0]] + s[1..];
      [s[0]] + Insert(x, s[1..], key)
    else [x] + s
  }

  /** A stable sort by descending key. */
  function SortDesc<T>(s: seq<T>, key: T -> real): (r: seq<T>)
    ensures |r| == |s|
    ensures multiset(r) == multiset(s)
  {
    if s == [] then []
    else
      assert s == [s[0]] + s[1..];
      Insert(s[0], SortDesc(s[1..], key), key)
  }

  lemma {:induction false} InsertSorted<T>(x: T, s: seq<T>, key: T -> real)
    requires SortedDesc(s, key)
    ensures SortedDesc(Insert(x, s, key), key)
    ensures Insert(x, s, key) != [] && (s != [] ==> Insert(x, s, key)[0] in {x, s[0]})
    decreases |s|
  {
    if s != [] && key(s[0]) > key(x) {
      InsertSorted(x, s[1..], key);
    }
  }

  /** The result of `SortDesc` is in descending key order. */
  lemma {:induction false} SortDescSorted<T>(s: seq<T>, key: T -> real)
    ensures SortedDesc(SortDesc(s, key), key)
    decreases |s|
  {
    if s != [] {
      SortDescSorted(s[1..], key);
      InsertSorted(s[0], SortDesc(s[1..], key), key);
    }
  }

  lemma {:induction false} WithKeyAppend<T>(a: seq<T>, b: seq<T>, key: T -> real, v: real)
    ensures WithKey(a + b, key, v) == WithKey(a, key, v) + WithKey(b, key, v)
    decreases |a|
  {
    if a == [] {
      assert a + b == b;
    } else {
      var ab := a + b;
      assert ab[0] == a[0] && ab[1..] == a[1..] + b;
      var h: seq<T> := if key(a[0]) == v then [a[0]] else [];
      assert WithKey(ab, key, v) == h + WithKey(a[1..] + b, key, v);
      WithKeyAppend(a[1..], b, key, v);
      assert WithKey(a, key, v) == h + WithKey(a[1..], key, v);
      assert h + (WithKey(a[1..], key, v) + WithKey(b, key, v)) == (h + WithKey(a[1..], key, v)) + WithKey(b, key, v);
    }
  }

  lemma {:induction false} InsertWithKey<T>(x: T, s: seq<T>, key: T -> real, v: real)
    ensures WithKey(Insert(x, s, key), key, v) == (if key(x) == v then [x] else []) + WithKey(s, key, v)
    decreases |s|
  {
    if s != [] && key(s[0]) > key(x) {
      InsertWithKey(x, s[1..], key, v);
      WithKeyAppend([s[0]], Insert(x, s[1..], key), key, v);
      WithKeyAppend([s[0]], s[1..], key, v);
      assert [s[0]] + s[1..] == s;
      if key(x) == v {
        assert WithKey([s[0]], key, v) == [];
      }
    } else {
      WithKeyAppend([x], s, key, v);
    }
  }

  /** Stability: elements with equal keys keep their relative order. */
  lemma {:induction false} SortDescStable<T>(s: seq<T>, key: T -> real, v: real)
    ensures WithKey(SortDesc(s, key), key, v) == WithKey(s, key, v)
    decreases |s|
  {
    if s != [] {
      SortDescStable(s[1..], key, v);
      InsertWithKey(s[0], SortDesc(s[1..], key), key, v);
    }
  }

  /** Sorting an already sorted sequence changes nothing. */
  lemma {:induction false} SortDescOfSorted<T>(s: seq<T>, key: T -> real)
    requires SortedDesc(s, key)
    ensures SortDesc(s, key) == s
    decreases |s|
  {
    if s != [] {
      SortDescOfSorted(s[1..], key);
      assert [s[0]] + s[1..] == s;
    }
  }

  /** A cut of a descending sequence holds the largest keys: nothing left out ranks above anything kept. */
  lemma TopKDominates<T>(s: seq<T>, key: T -> real, k: int, i: nat, j: nat)
    requires SortedDesc(s, key)
    requires i < |Prefix(s, k)| <= j < |s|
    ensures key(Prefix(s, k)[i]) >= key(s[j])
  {
  }

  /**
   * `r` holds the top of `s` by `key`: drawn from `s` (counting repeats), in descending order, and
   * nothing of `s` left out of `r` ranks above anything kept.
   */
  ghost predicate IsTopOf<T>(r: seq<T>, s: seq<T>, key: T -> real)
  {
    && multiset(r) <= multiset(s)
    && SortedDesc(r, key)
    && forall x, i :: x in multiset(s) - multiset(r) && 0 <= i < |r| ==> key(x) <= key(r[i])
  }

  /** `sorted(s, key, reverse=True)[:k]` has `min(len(s), k)` elements and holds the top of `s`. */
  lemma TopCut<T>(s: seq<T>, key: T -> real, k: int)
    ensures var r := Prefix(SortDesc(s, key), k);
      && (0 <= k ==> |r| == if k <= |s| then k else |s|)
      && IsTopOf(r, s, key)
  {
    var t := SortDesc(s, key);
    SortDescSorted(s, key);
    SortedCutIsTop(t, key, k);
  }

  /** Any prefix of a list in descending order holds its top. */
  lemma SortedCutIsTop<T>(t: seq<T>, key: T -> real, k: int)
    requires SortedDesc(t, key)
    ensures IsTopOf(Prefix(t, k), t, key)
  {
    var r := Prefix(t, k);
    var rest := t[|r|..];
    assert t == r + rest;
    assert multiset(t) == multiset(r) + multiset(rest);
    forall x, i | x in multiset(t) - multiset(r) && 0 <= i < |r| ensures key(x) <= key(r[i]) {
      assert x in multiset(rest);
      var j :| 0 <= j < |rest| && rest[j] == x;
      assert t[|r| + j] == x && t[i] == r[i];
    }
  }

  /**
   * Stability of the cut: the kept elements with key `v` are the first ones of `s` with that key,
   * in their order in `s`.
   */
  lemma TopCutStable<T>(s: seq<T>, key: T -> real, k: int, v: real)
    ensures var w := WithKey(Prefix(SortDesc(s, key), k), key, v);
      |w| <= |WithKey(s, key, v)| && w == WithKey(s, key, v)[..|w|]
  {
    var t := SortDesc(s, key);
    var r := Prefix(t, k);
    assert t == r + t[|r|..];
    WithKeyAppend(r, t[|r|..], key, v);
    SortDescStable(s, key, v);
  }

  /** `TopCutStable` for every key value at once. */
  lemma TopCutStableAll<T>(s: seq<T>, key: T -> real, k: int)
    ensures forall v :: var w := WithKey(Prefix(SortDesc(s, key), k), key, v);
      |w| <= |WithKey(s, key, v)| && w == WithKey(s, key, v)[..|w|]
  {
    forall v
      ensures var w := WithKey(Prefix(SortDesc(s, key), k), key, v);
        |w| <= |WithKey(s, key, v)| && w == WithKey(s, key, v)[..|w|]
    {
      TopCutStable(s, key, k, v);
    }
  }

  /** Index of the element Python's `max(s, key=key)` returns: the first one with the largest key. */
  function FirstMaxIndex<T>(s: seq<T>, key: T -> real): (m: nat)
    requires s != []
    ensures m < |s|
    ensures forall j :: 0 <= j < |s| ==> key(s[j]) <= key(s[m])
    ensures forall j :: 0 <= j < m ==> key(s[j]) < key(s[m])
  {
    if |s| == 1 then 0
    else
      var m := FirstMaxIndex(s[..|s| - 1], key);
      if key(s[|s| - 1]) > key(s[m]) then |s| - 1 else m
  }

  /**
   * `sorted(s, key, reverse=True)[:k]`: in descending key order, drawn from `s`, and the sort keeps
   * the input order among equal keys.
   */
  lemma SortedCut<T>(s: seq<T>, key: T -> real, k: int, v: real)
    ensures var r := Prefix(SortDesc(s, key), k);
      && SortedDesc(r, key)
      && (forall x :: x in r ==> x in s)
      && WithKey(SortDesc(s, key), key, v) == WithKey(s, key, v)
  {
    var t := SortDesc(s, key);
    SortDescSorted(s, key);
    SortDescStable(s, key, v);
    var r := Prefix(t, k);
    forall x | x in r ensures x in s {
      assert x in multiset(t);
    }
  }
}
