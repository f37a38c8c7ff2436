/**
 * Python dictionaries as the pipeline uses them: insertion-ordered association lists,
 * grown by `defaultdict`-style updates (`d[k] += ...`, `d.setdefault(k, []).append(..)`).
 */
module OrderedMaps {

  import opened Wrappers
  import Sorting

  function Keys<K(==), V>(m: seq<(K, V)>): (r: seq<K>)
    ensures |r| == |m| && forall i :: 0 <= i < |m| ==> r[i] == m[i].0
  {
    seq(|m|, i requires 0 <= i < |m| => m[i].0)
  }

  predicate Distinct<K(==)>(s: seq<K>)
  {
    forall i, j :: 0 <= i < j < |s| ==> s[i] != s[j]
  }

  /** No element of `a` occurs in `b`. */
  predicate Apart<K(==)>(a: seq<K>, b: seq<K>)
  {
    forall i, j :: 0 <= i < |a| && 0 <= j < |b| ==> a[i] != b[j]
  }

  lemma DistinctConcat<K>(a: seq<K>, b: seq<K>)
    requires Distinct(a) && Distinct(b) && Apart(a, b)
    ensures Distinct(a + b)
  {
    forall i, j | 0 <= i < j < |a + b| ensures (a + b)[i] != (a + b)[j] {
      if j < |a| {
        assert (a + b)[i] == a[i] && (a + b)[j] == a[j];
      } else if i >= |a| {
        assert (a + b)[i] == b[i - |a|] && (a + b)[j] == b[j - |a|];
      } else {
        assert (a + b)[i] == a[i] && (a + b)[j] == b[j - |a|];
      }
    }
  }

  lemma ApartConcatRight<K>(a: seq<K>, b: seq<K>, c: seq<K>)
    requires Apart(a, b) && Apart(a, c)
    ensures Apart(a, b + c)
  {
    forall i, j | 0 <= i < |a| && 0 <= j < |b + c| ensures a[i] != (b + c)[j] {
      if j < |b| { assert (b + c)[j] == b[j]; } else { assert (b + c)[j] == c[j - |b|]; }
    }
  }

  lemma ApartConcatLeft<K>(a: seq<K>, b: seq<K>, c: seq<K>)
    requires Apart(a, c) && Apart(b, c)
    ensures Apart(a + b, c)
  {
    forall i, j | 0 <= i < |a + b| && 0 <= j < |c| ensures (a + b)[i] != c[j] {
      if i < |a| { assert (a + b)[i] == a[i]; } else { assert (a + b)[i] == b[i - |a|]; }
    }
  }

  /** No key occurs twice, as in any Python dictionary. */
  predicate UniqueKeys<K(==), V>(m: seq<(K, V)>)
  {
    forall i, j :: 0 <= i < j < |m| ==> m[i].0 != m[j].0
  }

  /** Position of key `k` in `m`, if present. */
  function IndexOf<K(==), V>(m: seq<(K, V)>, k: K): (r: Option<nat>)
    ensures r.Some? ==> r.value < |m| && m[r.value].0 == k
    ensures r.Some? ==> forall j :: 0 <= j < r.value ==> m[j].0 != k
    ensures r.None? ==> forall j :: 0 <= j < |m| ==> m[j].0 != k
  {
    if m == [] then None
    else if m[0].0 == k then Some(0)
    else
      match IndexOf(m[1..], k)
      case Some(i) => Some(i + 1)
      case None => None
  }

  /** `d.get(k, default)` */
  function Get<K(==), V>(m: seq<(K, V)>, k: K, default: V): V
  {
    match IndexOf(m, k)
    case Some(i) => m[i].1
    case None => default
  }

  /** `d[k] = f(d.get(k, zero))`: updates in place when `k` is present, appends otherwise. */
  function Upsert<K(==), V>(m: seq<(K, V)>, k: K, zero: V, f: V -> V): seq<(K, V)>
  {
    match IndexOf(m, k)
    case Some(i) => m[i := (k, f(m[i].1))]
    case None => m + [(k, f(zero))]
  }

  lemma DistinctIndex<K, V>(m: seq<(K, V)>, k: K, i: nat)
    requires UniqueKeys(m) && i < |m| && m[i].0 == k
    ensures IndexOf(m, k) == Some(i)
  {
    var j := IndexOf(m, k).value;
    assert j <= i;
  }

  lemma UpsertProps<K, V>(m: seq<(K, V)>, k: K, zero: V, f: V -> V)
    requires UniqueKeys(m)
    ensures var u := Upsert(m, k, zero, f);
      && UniqueKeys(u)
      && Keys(u) == (if k in Keys(m) then Keys(m) else Keys(m) + [k])
      && Get(u, k, zero) == f(Get(m, k, zero))
      && forall k' :: k' != k ==> Get(u, k', zero) == Get(m, k', zero)
  {
    var u := Upsert(m, k, zero, f);
    match IndexOf(m, k)
    case Some(i) =>
      assert Keys(u) == Keys(m);
      DistinctIndex(u, k, i);
      forall k' | k' != k ensures Get(u, k', zero) == Get(m, k', zero) {
        match IndexOf(m, k')
        case Some(j) => DistinctIndex(u, k', j);
        case None =>
      }
    case None =>
      assert k !in Keys(m) by {
        forall j | 0 <= j < |m| ensures Keys(m)[j] != k { }
      }
      assert Keys(u) == Keys(m) + [k];
      DistinctIndex(u, k, |m|);
      forall k' | k' != k ensures Get(u, k', zero) == Get(m, k', zero) {
        match IndexOf(m, k')
        case Some(j) => DistinctIndex(u, k', j);
        case None =>
      }
  }

  /** `[keyOf(x) for x in s]` */
  function KeysOf<T, K(==)>(s: seq<T>, keyOf: T -> K): (r: seq<K>)
    ensures |r| == |s| && forall i :: 0 <= i < |s| ==> r[i] == keyOf(s[i])
  {
    seq(|s|, i requires 0 <= i < |s| => keyOf(s[i]))
  }

  /** The distinct elements of `ks`, in order of first occurrence. */
  function FirstOccurrences<K(==)>(ks: seq<K>): seq<K>
  {
    if ks == [] then []
    else
      var r := FirstOccurrences(ks[..|ks| - 1]);
      if ks[|ks| - 1] in r then r else r + [ks[|ks| - 1]]
  }

  /** `[x for x in s if keyOf(x) == k]` */
  function KeyFilter<T, K(==)>(s: seq<T>, keyOf: T -> K, k: K): seq<T>
  {
    if s == [] then []
    else KeyFilter(s[..|s| - 1], keyOf, k) + (if keyOf(s[|s| - 1]) == k then [s[|s| - 1]] else [])
  }

  /** Left fold of `step` over `s`, starting from `zero`. */
  function Fold<T, V>(s: seq<T>, zero: V, step: (V, T) -> V): V
  {
    if s == [] then zero else step(Fold(s[..|s| - 1], zero, step), s[|s| - 1])
  }

  /** The update one element `x` applies to its key's entry. */
  function StepWith<T, V>(step: (V, T) -> V, x: T): V -> V
  {
    v => step(v, x)
  }

  /**
   * The dictionary a loop `for x in s: d[keyOf(x)] = step(d[keyOf(x)], x)` builds from an empty
   * `defaultdict(lambda: zero)`.
   */
  function Accumulate<T, K(==), V>(s: seq<T>, keyOf: T -> K, zero: V, step: (V, T) -> V): seq<(K, V)>
  {
    if s == [] then []
    else
      var x := s[|s| - 1];
      Upsert(Accumulate(s[..|s| - 1], keyOf, zero, step), keyOf(x), zero, StepWith(step, x))
  }

  /** The dictionary has one entry per distinct key, in order of first occurrence. */
  lemma {:induction false} AccumulateKeys<T, K, V>(s: seq<T>, keyOf: T -> K, zero: V, step: (V, T) -> V)
    ensures var m := Accumulate(s, keyOf, zero, step);
      UniqueKeys(m) && Keys(m) == FirstOccurrences(KeysOf(s, keyOf))
    decreases |s|
  {
    if s != [] {
      var init := s[..|s| - 1];
      var x := s[|s| - 1];
      AccumulateKeys(init, keyOf, zero, step);
      UpsertProps(Accumulate(init, keyOf, zero, step), keyOf(x), zero, StepWith(step, x));
      assert KeysOf(s, keyOf)[..|s| - 1] == KeysOf(init, keyOf);
    }
  }

  /** The entry for `k` is the fold of `step` over exactly the elements with key `k`. */
  lemma {:induction false} AccumulateGet<T, K, V>(s: seq<T>, keyOf: T -> K, zero: V, step: (V, T) -> V, k: K)
    ensures Get(Accumulate(s, keyOf, zero, step), k, zero) == Fold(KeyFilter(s, keyOf, k), zero, step)
    decreases |s|
  {
    if s != [] {
      var init := s[..|s| - 1];
      var x := s[|s| - 1];
      AccumulateKeys(init, keyOf, zero, step);
      AccumulateGet(init, keyOf, zero, step, k);
      UpsertProps(Accumulate(init, keyOf, zero, step), keyOf(x), zero, StepWith(step, x));
      var m0 := Accumulate(init, keyOf, zero, step);
      assert Accumulate(s, keyOf, zero, step) == Upsert(m0, keyOf(x), zero, StepWith(step, x));
      var t := KeyFilter(init, keyOf, k);
      if k == keyOf(x) {
        assert KeyFilter(s, keyOf, k) == t + [x];
        assert (t + [x])[..|t|] == t;
        assert Fold(t + [x], zero, step) == step(Fold(t, zero, step), x);
        assert StepWith(step, x)(Get(m0, k, zero)) == step(Get(m0, k, zero), x);
      } else {
        assert KeyFilter(s, keyOf, k) == t;
      }
    }
  }

  /** A key is in `FirstOccurrences(ks)` exactly when it occurs in `ks`. */
  lemma {:induction false} FirstOccurrencesHas<K>(ks: seq<K>, k: K)
    ensures k in FirstOccurrences(ks) <==> k in ks
    decreases |ks|
  {
    if ks != [] {
      FirstOccurrencesHas(ks[..|ks| - 1], k);
      assert ks == ks[..|ks| - 1] + [ks[|ks| - 1]];
    }
  }

  function Succ<T>(v: int, x: T): int
  {
    v + 1
  }

  /** `Counter`-style tally: `d[keyOf(x)] += 1` for each `x` in `s`. */
  function CountBy<T, K(==)>(s: seq<T>, keyOf: T -> K): seq<(K, int)>
  {
    Accumulate(s, keyOf, 0, Succ)
  }

  /** Tallying one more element. */
  lemma CountByStep<T, K>(s: seq<T>, x: T, keyOf: T -> K)
    ensures CountBy(s + [x], keyOf) == Upsert(CountBy(s, keyOf), keyOf(x), 0, StepWith(Succ, x))
  {
    assert (s + [x])[..|s|] == s;
  }

  lemma {:induction false} FoldSuccIsLength<T>(s: seq<T>)
    ensures Fold(s, 0, Succ) == |s|
    decreases |s|
  {
    if s != [] {
      FoldSuccIsLength(s[..|s| - 1]);
    }
  }

  /** The tally holds one entry per distinct key, in first-occurrence order, counting its occurrences. */
  lemma CountByProps<T, K>(s: seq<T>, keyOf: T -> K)
    ensures var m := CountBy(s, keyOf);
      && UniqueKeys(m)
      && Keys(m) == FirstOccurrences(KeysOf(s, keyOf))
      && forall k :: Get(m, k, 0) == |KeyFilter(s, keyOf, k)|
  {
    AccumulateKeys(s, keyOf, 0, Succ);
    forall k ensures Get(CountBy(s, keyOf), k, 0) == |KeyFilter(s, keyOf, k)| {
      AccumulateGet(s, keyOf, 0, Succ, k);
      FoldSuccIsLength(KeyFilter(s, keyOf, k));
    }
  }

  function Append<T>(v: seq<T>, x: T): seq<T>
  {
    v + [x]
  }

  /** `d.setdefault(keyOf(x), []).append(x)` for each `x` in `s`: the elements grouped by key. */
  function GroupBy<T, K(==)>(s: seq<T>, keyOf: T -> K): seq<(K, seq<T>)>
  {
    Accumulate(s, keyOf, [], Append)
  }

  lemma {:induction false} FoldAppend<T>(s: seq<T>)
    ensures Fold(s, [], Append) == s
    decreases |s|
  {
    if s != [] {
      FoldAppend(s[..|s| - 1]);
    }
  }

  lemma {:induction false} KeyFilterNonEmpty<T, K>(s: seq<T>, keyOf: T -> K, k: K)
    requires k in KeysOf(s, keyOf)
    ensures KeyFilter(s, keyOf, k) != []
    decreases |s|
  {
    var n := |s| - 1;
    if keyOf(s[n]) != k {
      var i :| 0 <= i < |s| && KeysOf(s, keyOf)[i] == k;
      assert KeysOf(s[..n], keyOf)[i] == k;
      KeyFilterNonEmpty(s[..n], keyOf, k);
    }
  }

  lemma {:induction false} KeyFilterKeys<T, K>(s: seq<T>, keyOf: T -> K, k: K)
    ensures forall x :: x in KeyFilter(s, keyOf, k) ==> x in s && keyOf(x) == k
    decreases |s|
  {
    if s != [] {
      KeyFilterKeys(s[..|s| - 1], keyOf, k);
      forall x | x in s[..|s| - 1] ensures x in s {
        var i :| 0 <= i < |s| - 1 && s[..|s| - 1][i] == x;
        assert s[i] == x;
      }
    }
  }

  /**
   * Grouping yields one entry per distinct key, in first-occurrence order, whose list is exactly the
   * elements with that key, in order, and is never empty.
   */
  lemma GroupByEntries<T, K>(s: seq<T>, keyOf: T -> K)
    ensures var m := GroupBy(s, keyOf);
      && UniqueKeys(m)
      && Keys(m) == FirstOccurrences(KeysOf(s, keyOf))
      && forall i :: 0 <= i < |m| ==> m[i].1 == KeyFilter(s, keyOf, m[i].0) && m[i].1 != []
  {
    var m := GroupBy(s, keyOf);
    AccumulateKeys(s, keyOf, [], Append);
    forall i | 0 <= i < |m| ensures m[i].1 == KeyFilter(s, keyOf, m[i].0) && m[i].1 != [] {
      var k := m[i].0;
      DistinctIndex(m, k, i);
      AccumulateGet(s, keyOf, [], Append, k);
      FoldAppend(KeyFilter(s, keyOf, k));
      assert Keys(m)[i] == k;
      FirstOccurrencesHas(KeysOf(s, keyOf), k);
      KeyFilterNonEmpty(s, keyOf, k);
    }
  }

  lemma {:induction false} KeyFilterAppend<T, K>(a: seq<T>, b: seq<T>, keyOf: T -> K, k: K)
    ensures KeyFilter(a + b, keyOf, k) == KeyFilter(a, keyOf, k) + KeyFilter(b, keyOf, k)
    decreases |b|
  {
    if b == [] {
      assert a + b == a;
    } else {
      var init := b[..|b| - 1];
      assert (a + b)[..|a + b| - 1] == a + init;
      KeyFilterAppend(a, init, keyOf, k);
    }
  }

  /**
   * Each entry of an accumulated dictionary is the fold of `step` over exactly the (non-empty run of)
   * elements with its key.
   */
  lemma AccumulateEntries<T, K, V>(s: seq<T>, keyOf: T -> K, zero: V, step: (V, T) -> V)
    ensures var m := Accumulate(s, keyOf, zero, step);
      && UniqueKeys(m)
      && Keys(m) == FirstOccurrences(KeysOf(s, keyOf))
      && forall i :: 0 <= i < |m| ==> KeyFilter(s, keyOf, m[i].0) != [] && m[i].1 == Fold(KeyFilter(s, keyOf, m[i].0), zero, step)
  {
    var m := Accumulate(s, keyOf, zero, step);
    AccumulateKeys(s, keyOf, zero, step);
    forall i | 0 <= i < |m| ensures KeyFilter(s, keyOf, m[i].0) != [] && m[i].1 == Fold(KeyFilter(s, keyOf, m[i].0), zero, step) {
      var k := m[i].0;
      DistinctIndex(m, k, i);
      AccumulateGet(s, keyOf, zero, step, k);
      assert Keys(m)[i] == k;
      FirstOccurrencesHas(KeysOf(s, keyOf), k);
      KeyFilterNonEmpty(s, keyOf, k);
    }
  }

  /** `[x for x in s if keyOf(x) not in excluded]` */
  function Without<T, K(==)>(s: seq<T>, keyOf: T -> K, excluded: set<K>): seq<T>
  {
    if s == [] then []
    else Without(s[..|s| - 1], keyOf, excluded) + (if keyOf(s[|s| - 1]) in excluded then [] else [s[|s| - 1]])
  }

  /** Dropping the excluded keys leaves every other key's elements as they were. */
  lemma {:induction false} WithoutKeyFilter<T, K>(s: seq<T>, keyOf: T -> K, excluded: set<K>, k: K)
    ensures KeyFilter(Without(s, keyOf, excluded), keyOf, k) == if k in excluded then [] else KeyFilter(s, keyOf, k)
    decreases |s|
  {
    if s != [] {
      var init := s[..|s| - 1];
      var x := s[|s| - 1];
      WithoutKeyFilter(init, keyOf, excluded, k);
      var tail := if keyOf(x) in excluded then [] else [x];
      KeyFilterAppend(Without(init, keyOf, excluded), tail, keyOf, k);
      if tail != [] {
        assert tail[..0] == [];
      }
    }
  }

  lemma {:induction false} AtMostOnce<T>(s: seq<T>, x: T, a: nat)
    requires a < |s| && forall k :: 0 <= k < |s| && k != a ==> s[k] != x
    ensures multiset(s)[x] <= 1
    decreases |s|
  {
    var n := |s| - 1;
    assert s == s[..n] + [s[n]];
    if a == n {
      assert x !in s[..n];
    } else {
      AtMostOnce(s[..n], x, a);
    }
  }

  lemma Twice<T>(s: seq<T>, i: nat, j: nat)
    requires i < j < |s| && s[i] == s[j]
    ensures multiset(s)[s[i]] >= 2
  {
    assert s == s[..i] + [s[i]] + s[i + 1..j] + [s[j]] + s[j + 1..];
  }

  /** A reordering of a dictionary's entries, such as a sort, is again a dictionary. */
  /** Any prefix of a list with distinct keys has distinct keys. */
  lemma PrefixUniqueKeys<K, V>(m: seq<(K, V)>, k: int)
    requires UniqueKeys(m)
    ensures UniqueKeys(Sorting.Prefix(m, k))
  {
    var p := Sorting.Prefix(m, k);
    forall i, j | 0 <= i < j < |p| ensures p[i].0 != p[j].0 {
      assert p[i] == m[i] && p[j] == m[j];
    }
  }

  lemma PermutationUniqueKeys<K, V>(m: seq<(K, V)>, t: seq<(K, V)>)
    requires UniqueKeys(m) && multiset(t) == multiset(m)
    ensures UniqueKeys(t)
  {
    forall i, j | 0 <= i < j < |t| ensures t[i].0 != t[j].0 {
      if t[i].0 == t[j].0 {
        assert t[i] in multiset(m) && t[j] in multiset(m);
        var a :| 0 <= a < |m| && m[a] == t[i];
        var b :| 0 <= b < |m| && m[b] == t[j];
        if a == b {
          Twice(t, i, j);
          AtMostOnce(m, m[a], a);
        }
      }
    }
  }
}
