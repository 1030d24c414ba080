/** The array operations the screens build their lists from: `filter`, `find`,
    and de-duplication through a `Set` (first occurrence kept, order preserved). */
module Lists {
  import opened Js

  /** `sub` is `s` with some elements dropped, the rest in their original order. */
  predicate Subsequence<T(==)>(sub: seq<T>, s: seq<T>)
    decreases |s|
  {
    if sub == [] then true
    else if s == [] then false
    else if sub[0] == s[0] then Subsequence(sub[1..], s[1..])
    else Subsequence(sub, s[1..])
  }

  lemma {:induction false} SubsequenceCons<T>(x: T, sub: seq<T>, s: seq<T>)
    requires Subsequence(sub, s)
    ensures Subsequence(sub, [x] + s) && Subsequence([x] + sub, [x] + s)
  {
    assert ([x] + s)[1..] == s;
    assert ([x] + sub)[1..] == sub;
    SubsequenceShift(x, sub, s);
  }

  /** Helper: a subsequence of `s` is still one after an element is prepended. */
  lemma {:induction false} SubsequenceShift<T>(x: T, sub: seq<T>, s: seq<T>)
    requires Subsequence(sub, s)
    ensures Subsequence(sub, [x] + s)
    decreases |s|, 1
  {
    assert ([x] + s)[1..] == s;
    if sub != [] && sub[0] == x {
      SubsequenceShrink(sub, s);
    }
  }

  /** Helper: dropping the first element of a non-empty subsequence keeps it a subsequence. */
  lemma {:induction false} SubsequenceShrink<T>(sub: seq<T>, s: seq<T>)
    requires sub != [] && Subsequence(sub, s)
    ensures Subsequence(sub[1..], s)
    decreases |s|, 0
  {
    assert s == [s[0]] + s[1..];
    if sub[0] == s[0] {
      SubsequenceShift(s[0], sub[1..], s[1..]);
    } else {
      SubsequenceShrink(sub, s[1..]);
      SubsequenceShift(s[0], sub[1..], s[1..]);
    }
  }

  /** Every element of a subsequence is an element of the sequence. */
  lemma {:induction false} SubsequenceElements<T>(sub: seq<T>, s: seq<T>)
    requires Subsequence(sub, s)
    ensures forall x :: x in sub ==> x in s
    decreases |s|
  {
    if sub != [] {
      if sub[0] == s[0] {
        SubsequenceElements(sub[1..], s[1..]);
        assert sub == [sub[0]] + sub[1..];
      } else {
        SubsequenceElements(sub, s[1..]);
      }
    }
  }

  /** `s.filter(p)`. */
  function Filter<T>(s: seq<T>, p: T -> bool): (r: seq<T>)
    ensures |r| <= |s|
    ensures forall i :: 0 <= i < |r| ==> r[i] in s && p(r[i])
    ensures forall i :: 0 <= i < |s| && p(s[i]) ==> s[i] in r
  {
    if s == [] then []
    else
      var rest := Filter(s[1..], p);
      assert forall i :: 0 < i < |s| ==> s[i] == s[1..][i - 1];
      if p(s[0]) then [s[0]] + rest else rest
  }

  /** The kept elements appear in their original order. */
  lemma {:induction false} FilterIsSubsequence<T>(s: seq<T>, p: T -> bool)
    ensures Subsequence(Filter(s, p), s)
  {
    if s == [] {
    } else {
      FilterIsSubsequence(s[1..], p);
      assert s == [s[0]] + s[1..];
      SubsequenceCons(s[0], Filter(s[1..], p), s[1..]);
    }
  }

  /** Two filters with the same verdict on every element give the same list. */
  lemma {:induction false} FilterExt<T>(s: seq<T>, p: T -> bool, q: T -> bool)
    requires forall i :: 0 <= i < |s| ==> p(s[i]) == q(s[i])
    ensures Filter(s, p) == Filter(s, q)
  {
    if s != [] {
      FilterExt(s[1..], p, q);
    }
  }

  /** Filtering twice is filtering once by the conjunction. */
  lemma {:induction false} FilterThen<T>(s: seq<T>, p: T -> bool, q: T -> bool, pq: T -> bool)
    requires forall i :: 0 <= i < |s| ==> pq(s[i]) == (p(s[i]) && q(s[i]))
    ensures Filter(Filter(s, p), q) == Filter(s, pq)
  {
    if s != [] {
      FilterThen(s[1..], p, q, pq);
    }
  }

  /** A filter that keeps everything is the identity. */
  lemma {:induction false} FilterAll<T>(s: seq<T>, p: T -> bool)
    requires forall i :: 0 <= i < |s| ==> p(s[i])
    ensures Filter(s, p) == s
  {
    if s != [] {
      FilterAll(s[1..], p);
      assert s == [s[0]] + s[1..];
    }
  }

  /** Filtering commutes with appending, which is how a loop builds a filter. */
  lemma {:induction false} FilterAppend<T>(s: seq<T>, x: T, p: T -> bool)
    ensures Filter(s + [x], p) == Filter(s, p) + (if p(x) then [x] else [])
  {
    if s == [] {
      assert [x][1..] == [];
    } else {
      assert (s + [x])[1..] == s[1..] + [x];
      FilterAppend(s[1..], x, p);
    }
  }

  /** Counting how many elements of a list satisfy `p`. */
  function Count<T>(s: seq<T>, p: T -> bool): (n: nat)
    ensures n <= |s|
  {
    if s == [] then 0 else (if p(s[0]) then 1 else 0) + Count(s[1..], p)
  }

  lemma {:induction false} CountIsFilterLength<T>(s: seq<T>, p: T -> bool)
    ensures Count(s, p) == |Filter(s, p)|
  {
    if s != [] {
      CountIsFilterLength(s[1..], p);
    }
  }

  /** The index of the first element satisfying `p`, as `findIndex` computes it. */
  function FindIndex<T>(s: seq<T>, p: T -> bool): (r: Option<nat>)
    ensures r.Some? ==> r.value < |s| && p(s[r.value])
    ensures r.Some? ==> forall j :: 0 <= j < r.value ==> !p(s[j])
    ensures r.None? ==> forall j :: 0 <= j < |s| ==> !p(s[j])
  {
    if s == [] then None
    else if p(s[0]) then Some(0)
    else match FindIndex(s[1..], p)
      case None => None
      case Some(i) => Some(i + 1)
  }

  /** `s.find(p)`: the first element satisfying `p`, `None` for `undefined`. */
  function Find<T>(s: seq<T>, p: T -> bool): (r: Option<T>)
    ensures r.Some? <==> exists i :: 0 <= i < |s| && p(s[i])
    ensures r.Some? ==> r.value in s && p(r.value)
  {
    match FindIndex(s, p)
    case None => None
    case Some(i) => Some(s[i])
  }

  /** The keys of a list of elements. */
  function Keys<T, K>(s: seq<T>, key: T -> K): (r: seq<K>)
    ensures |r| == |s|
    ensures forall i :: 0 <= i < |s| ==> r[i] == key(s[i])
  {
    seq(|s|, i requires 0 <= i < |s| => key(s[i]))
  }

  predicate DistinctKeys<T, K(==)>(s: seq<T>, key: T -> K) {
    forall i, j :: 0 <= i < j < |s| ==> key(s[i]) != key(s[j])
  }

  /** `x` sits at index `j` of `s` and no earlier element has its key. */
  ghost predicate FirstAt<T, K>(s: seq<T>, key: T -> K, x: T, j: int) {
    0 <= j < |s| && s[j] == x && forall m :: 0 <= m < j ==> key(s[m]) != key(x)
  }

  ghost predicate FirstWithKey<T, K>(s: seq<T>, key: T -> K, x: T) {
    exists j :: FirstAt(s, key, x, j)
  }

  /** De-duplication by key, keeping the first element for each key in
      first-occurrence order; defined from the end so that it matches a
      loop that walks the list forwards. */
  function DistinctBy<T, K(==)>(s: seq<T>, key: T -> K): (r: seq<T>)
    decreases |s|
  {
    if s == [] then []
    else
      var prefix := DistinctBy(s[..|s| - 1], key);
      var x := s[|s| - 1];
      if key(x) in Keys(prefix, key) then prefix else prefix + [x]
  }

  lemma KeysAppend<T, K>(s: seq<T>, x: T, key: T -> K)
    ensures Keys(s + [x], key) == Keys(s, key) + [key(x)]
  {
  }

  /** De-duplication keeps exactly the keys of the list. */
  lemma {:induction false} DistinctByKeys<T, K>(s: seq<T>, key: T -> K, k: K)
    ensures k in Keys(DistinctBy(s, key), key) <==> k in Keys(s, key)
    decreases |s|
  {
    if s != [] {
      var init, x := s[..|s| - 1], s[|s| - 1];
      DistinctByKeys(init, key, k);
      assert s == init + [x];
      KeysAppend(init, x, key);
      KeysAppend(DistinctBy(init, key), x, key);
    }
  }

  /** No two survivors of de-duplication share a key. */
  lemma {:induction false} DistinctByDistinct<T, K>(s: seq<T>, key: T -> K)
    ensures DistinctKeys(DistinctBy(s, key), key)
    decreases |s|
  {
    if s != [] {
      var init, x := s[..|s| - 1], s[|s| - 1];
      DistinctByDistinct(init, key);
      var prefix := DistinctBy(init, key);
      var r := DistinctBy(s, key);
      if key(x) !in Keys(prefix, key) {
        forall i, j | 0 <= i < j < |r|
          ensures key(r[i]) != key(r[j])
        {
          if j == |prefix| {
            assert Keys(prefix, key)[i] == key(r[i]);
          }
        }
      }
    }
  }

  /** Survivors of de-duplication keep their original order. */
  lemma {:induction false} DistinctBySubsequence<T, K>(s: seq<T>, key: T -> K)
    ensures Subsequence(DistinctBy(s, key), s)
    decreases |s|
  {
    if s != [] {
      var init, x := s[..|s| - 1], s[|s| - 1];
      DistinctBySubsequence(init, key);
      SubsequenceAppend(DistinctBy(init, key), init, x);
      assert s == init + [x];
    }
  }

  /** Each survivor of de-duplication is the first element with its key. */
  lemma {:induction false} DistinctByFirst<T, K>(s: seq<T>, key: T -> K)
    ensures forall i :: 0 <= i < |DistinctBy(s, key)| ==> FirstWithKey(s, key, DistinctBy(s, key)[i])
    decreases |s|
  {
    if s != [] {
      var init, x := s[..|s| - 1], s[|s| - 1];
      DistinctByFirst(init, key);
      var prefix := DistinctBy(init, key);
      var r := DistinctBy(s, key);
      forall i | 0 <= i < |r|
        ensures FirstWithKey(s, key, r[i])
      {
        if i < |prefix| {
          var j :| FirstAt(init, key, prefix[i], j);
          assert FirstAt(s, key, r[i], j);
        } else {
          forall m | 0 <= m < |s| - 1
            ensures key(s[m]) != key(x)
          {
            assert Keys(init, key)[m] == key(s[m]);
            DistinctByKeys(init, key, key(s[m]));
          }
          assert FirstAt(s, key, r[i], |s| - 1);
        }
      }
    }
  }

  /** What de-duplication promises: distinct keys, the same set of keys,
      original order, and each survivor is the first with its key. */
  lemma DistinctByProperties<T, K>(s: seq<T>, key: T -> K)
    ensures var r := DistinctBy(s, key);
      && DistinctKeys(r, key)
      && (forall k :: k in Keys(r, key) <==> k in Keys(s, key))
      && Subsequence(r, s)
      && (forall i :: 0 <= i < |r| ==> FirstWithKey(s, key, r[i]))
  {
    forall k ensures k in Keys(DistinctBy(s, key), key) <==> k in Keys(s, key) {
      DistinctByKeys(s, key, k);
    }
    DistinctByDistinct(s, key);
    DistinctBySubsequence(s, key);
    DistinctByFirst(s, key);
  }

  lemma {:induction false} SubsequenceAppend<T>(sub: seq<T>, s: seq<T>, x: T)
    requires Subsequence(sub, s)
    ensures Subsequence(sub, s + [x]) && Subsequence(sub + [x], s + [x])
    decreases |s|
  {
    if s == [] {
      assert sub == [];
      assert [x][1..] == [];
      assert ([] + [x]) == [x];
    } else {
      assert (s + [x])[1..] == s[1..] + [x];
      if sub == [] {
        SubsequenceAppend(sub, s[1..], x);
        assert sub + [x] == [x];
        SingletonInAppend(s, x);
      } else if sub[0] == s[0] {
        SubsequenceAppend(sub[1..], s[1..], x);
        assert (sub + [x])[1..] == sub[1..] + [x];
      } else {
        SubsequenceAppend(sub, s[1..], x);
      }
    }
  }

  /** Helper: `[x]` is a subsequence of any list ending in `x`. */
  lemma {:induction false} SingletonInAppend<T>(s: seq<T>, x: T)
    ensures Subsequence([x], s + [x])
    decreases |s|
  {
    if s == [] {
      assert [x][1..] == [];
    } else {
      assert (s + [x])[1..] == s[1..] + [x];
      SingletonInAppend(s[1..], x);
    }
  }

  /** `[...new Set(s)]`: the distinct values in first-occurrence order. */
  function Distinct<T(==)>(s: seq<T>): seq<T> {
    DistinctBy(s, (x: T) => x)
  }

  /** Each value of the list appears exactly once in `[...new Set(s)]`, in original order. */
  lemma DistinctProperties<T>(s: seq<T>)
    ensures var r := Distinct(s);
      && (forall i, j :: 0 <= i < j < |r| ==> r[i] != r[j])
      && (forall x :: x in r <==> x in s)
      && Subsequence(r, s)
  {
    var id := (x: T) => x;
    DistinctByProperties(s, id);
    var r := Distinct(s);
    forall x ensures x in r <==> x in s {
      if x in r {
        var i :| 0 <= i < |r| && r[i] == x;
        assert Keys(r, id)[i] == x;
      }
      if x in Keys(r, id) {
        var i :| 0 <= i < |r| && Keys(r, id)[i] == x;
        assert r[i] == x;
      }
      if x in s {
        var i :| 0 <= i < |s| && s[i] == x;
        assert Keys(s, id)[i] == x;
      }
      if x in Keys(s, id) {
        var i :| 0 <= i < |s| && Keys(s, id)[i] == x;
        assert s[i] == x;
      }
    }
  }
}
