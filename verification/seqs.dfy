/** Order-preserving list operations shared by the store and the screens:
    `Array.prototype.filter`, `reduce` into a sum, `Math.max(0, ...keys)`,
    and the first-appearance de-duplication that `new Set(...)` performs. */
module Seqs {

  /** `s.filter(f)`: the elements of `s` satisfying `f`, in their original order. */
  function Filter<T>(s: seq<T>, f: T -> bool): (r: seq<T>)
    ensures |r| <= |s|
    ensures forall i :: 0 <= i < |r| ==> r[i] in s && f(r[i])
    ensures forall i :: 0 <= i < |s| && f(s[i]) ==> s[i] in r
  {
    if |s| == 0 then [] else (if f(s[0]) then [s[0]] else []) + Filter(s[1..], f)
  }

  lemma {:induction false} FilterKeepsAll<T>(s: seq<T>, f: T -> bool)
    requires forall i :: 0 <= i < |s| ==> f(s[i])
    ensures Filter(s, f) == s
  {
    if |s| > 0 {
      FilterKeepsAll(s[1..], f);
    }
  }

  lemma {:induction false} FilterAppend<T>(a: seq<T>, b: seq<T>, f: T -> bool)
    ensures Filter(a + b, f) == Filter(a, f) + Filter(b, f)
  {
    if |a| == 0 {
      assert a + b == b;
    } else {
      assert (a + b)[1..] == a[1..] + b;
      FilterAppend(a[1..], b, f);
    }
  }

  /** The positions of `s` whose elements satisfy `f`, in increasing order. */
  function Positions<T>(s: seq<T>, f: T -> bool): (idx: seq<nat>)
    ensures forall k :: 0 <= k < |idx| ==> idx[k] < |s| && f(s[idx[k]])
    ensures forall k, l :: 0 <= k < l < |idx| ==> idx[k] < idx[l]
    ensures forall i :: 0 <= i < |s| && f(s[i]) ==> i in idx
  {
    if |s| == 0 then []
    else
      var init := s[..|s| - 1];
      var first := Positions(init, f);
      assert forall i :: 0 <= i < |init| ==> init[i] == s[i];
      if f(s[|s| - 1]) then first + [|s| - 1] else first
  }

  /** `r` is `s` read at exactly the positions whose elements satisfy `f`: the
      kept elements, in their original order, each as often as in `s`. */
  ghost predicate Selects<T>(r: seq<T>, s: seq<T>, f: T -> bool)
  {
    var idx := Positions(s, f);
    |r| == |idx| && forall k :: 0 <= k < |r| ==> r[k] == s[idx[k]]
  }

  /** `Filter` keeps order and multiplicity. */
  lemma {:induction false} FilterSelects<T>(s: seq<T>, f: T -> bool)
    ensures Selects(Filter(s, f), s, f)
  {
    if |s| > 0 {
      var init := s[..|s| - 1];
      var x := s[|s| - 1];
      FilterSelects(init, f);
      assert s == init + [x];
      FilterAppend(init, [x], f);
      assert Filter([x], f) == if f(x) then [x] else [] by {
        assert [x][1..] == [];
      }
      var idx := Positions(init, f);
      assert forall k :: 0 <= k < |idx| ==> idx[k] < |init| && init[idx[k]] == s[idx[k]];
    }
  }

  /** `s.reduce((acc, x) => acc + f(x), 0)`, folding from the left. */
  function SumOf<T>(s: seq<T>, f: T -> real): real
  {
    if |s| == 0 then 0.0 else SumOf(s[..|s| - 1], f) + f(s[|s| - 1])
  }

  lemma {:induction false} SumOfAppend<T>(a: seq<T>, b: seq<T>, f: T -> real)
    ensures SumOf(a + b, f) == SumOf(a, f) + SumOf(b, f)
  {
    if |b| == 0 {
      assert a + b == a;
    } else {
      assert (a + b)[..|a + b| - 1] == a + b[..|b| - 1];
      SumOfAppend(a, b[..|b| - 1], f);
    }
  }

  lemma {:induction false} SumOfCons<T>(x: T, s: seq<T>, f: T -> real)
    ensures SumOf([x] + s, f) == f(x) + SumOf(s, f)
  {
    SumOfAppend([x], s, f);
    assert [x][..0] == [];
  }

  /** Two sums agree when their terms agree position by position. */
  lemma {:induction false} SumOfPointwise<T, U>(a: seq<T>, f: T -> real, b: seq<U>, g: U -> real)
    requires |a| == |b|
    requires forall i :: 0 <= i < |a| ==> f(a[i]) == g(b[i])
    ensures SumOf(a, f) == SumOf(b, g)
  {
    if |a| > 0 {
      SumOfPointwise(a[..|a| - 1], f, b[..|b| - 1], g);
    }
  }

  lemma {:induction false} SumOfNonNegative<T>(s: seq<T>, f: T -> real)
    requires forall i :: 0 <= i < |s| ==> f(s[i]) >= 0.0
    ensures SumOf(s, f) >= 0.0
  {
    if |s| > 0 {
      SumOfNonNegative(s[..|s| - 1], f);
    }
  }

  /** A filtered sum is the full sum of a term `g` that is `f` on the kept
      elements and zero on the others. */
  lemma {:induction false} SumOfFilter<T>(s: seq<T>, p: T -> bool, f: T -> real, g: T -> real)
    requires forall i :: 0 <= i < |s| ==> g(s[i]) == if p(s[i]) then f(s[i]) else 0.0
    ensures SumOf(Filter(s, p), f) == SumOf(s, g)
  {
    if |s| > 0 {
      SumOfFilter(s[1..], p, f, g);
      assert s == [s[0]] + s[1..];
      SumOfCons(s[0], s[1..], g);
      var head := if p(s[0]) then [s[0]] else [];
      SumOfAppend(head, Filter(s[1..], p), f);
      assert SumOf(head, f) == g(s[0]) by {
        if p(s[0]) { assert head[..0] == []; }
      }
    }
  }

  /** The sum of a one-element sequence is its term. */
  lemma SumOfSingleton<T>(x: T, f: T -> real)
    ensures SumOf([x], f) == f(x)
  {
    assert [x][..0] == [];
  }

  /** A sum is monotone in its terms. */
  lemma {:induction false} SumOfMonotone<T>(s: seq<T>, f: T -> real, g: T -> real)
    requires forall i :: 0 <= i < |s| ==> f(s[i]) <= g(s[i])
    ensures SumOf(s, f) <= SumOf(s, g)
  {
    if |s| > 0 {
      SumOfMonotone(s[..|s| - 1], f, g);
    }
  }

  /** The sum of a pointwise sum of terms is the sum of the two sums. */
  lemma {:induction false} SumOfAdd<T>(s: seq<T>, f: T -> real, g: T -> real, h: T -> real)
    requires forall i :: 0 <= i < |s| ==> h(s[i]) == f(s[i]) + g(s[i])
    ensures SumOf(s, h) == SumOf(s, f) + SumOf(s, g)
  {
    if |s| > 0 {
      SumOfAdd(s[..|s| - 1], f, g, h);
    }
  }

  /** `Math.max(0, ...s.map(key))`. */
  function MaxKey<T>(s: seq<T>, key: T -> int): (m: nat)
    ensures forall i :: 0 <= i < |s| ==> key(s[i]) <= m
    ensures m == 0 || exists i :: 0 <= i < |s| && key(s[i]) == m
  {
    if |s| == 0 then 0
    else
      var rest := MaxKey(s[1..], key);
      if key(s[0]) > rest then key(s[0]) else rest
  }

  /** No element occurs twice. */
  predicate NoDuplicates<T(==)>(s: seq<T>)
  {
    forall i, j :: 0 <= i < j < |s| ==> s[i] != s[j]
  }

  /** `[...new Set(s)]`: each distinct element once, in order of first appearance. */
  function Distinct<T(==)>(s: seq<T>): (r: seq<T>)
    ensures NoDuplicates(r)
    ensures forall i :: 0 <= i < |r| ==> r[i] in s
    ensures forall i :: 0 <= i < |s| ==> s[i] in r
  {
    if |s| == 0 then []
    else
      var d := Distinct(s[..|s| - 1]);
      var x := s[|s| - 1];
      assert forall i :: 0 <= i < |s| - 1 ==> s[i] == s[..|s| - 1][i];
      if x in d then d else d + [x]
  }

  /** The positions at which an element of `s` occurs for the first time, in
      increasing order. */
  function FirstPositions<T(==)>(s: seq<T>): (idx: seq<nat>)
    ensures forall k :: 0 <= k < |idx| ==> idx[k] < |s| && s[idx[k]] !in s[..idx[k]]
    ensures forall k, l :: 0 <= k < l < |idx| ==> idx[k] < idx[l]
    ensures forall i :: 0 <= i < |s| && s[i] !in s[..i] ==> i in idx
  {
    if |s| == 0 then []
    else
      var init := s[..|s| - 1];
      var first := FirstPositions(init);
      SameFirstOccurrences(s);
      if s[|s| - 1] in init then first else first + [|s| - 1]
  }

  /** A position before the last is a first occurrence in `s` exactly when it
      is one in `s` without its last element. */
  lemma SameFirstOccurrences<T>(s: seq<T>)
    requires |s| > 0
    ensures forall i :: 0 <= i < |s| - 1 ==>
      s[..|s| - 1][i] == s[i] && (s[i] in s[..i] <==> s[..|s| - 1][i] in s[..|s| - 1][..i])
  {
    forall i | 0 <= i < |s| - 1
      ensures s[..|s| - 1][i] == s[i] && (s[i] in s[..i] <==> s[..|s| - 1][i] in s[..|s| - 1][..i])
    {
      assert s[..|s| - 1][..i] == s[..i];
    }
  }

  /** `r` lists the elements of `s` in order of first appearance: `s` read at
      its first-occurrence positions. */
  ghost predicate FirstAppearances<T>(r: seq<T>, s: seq<T>)
  {
    var idx := FirstPositions(s);
    |r| == |idx| && forall k :: 0 <= k < |r| ==> r[k] == s[idx[k]]
  }

  /** `Distinct` keeps the order of first appearance. */
  lemma {:induction false} DistinctFirstAppearances<T>(s: seq<T>)
    ensures FirstAppearances(Distinct(s), s)
  {
    if |s| > 0 {
      var init := s[..|s| - 1];
      DistinctFirstAppearances(init);
      forall k | 0 <= k < |FirstPositions(init)| ensures FirstPositions(init)[k] < |init| {}
    }
  }

  /** Number of occurrences of `x` in `s`. */
  function Count<T(==)>(s: seq<T>, x: T): nat
  {
    if |s| == 0 then 0 else Count(s[..|s| - 1], x) + (if s[|s| - 1] == x then 1 else 0)
  }

  lemma {:induction false} CountAppend<T>(a: seq<T>, b: seq<T>, x: T)
    ensures Count(a + b, x) == Count(a, x) + Count(b, x)
  {
    if |b| == 0 {
      assert a + b == a;
    } else {
      assert (a + b)[..|a + b| - 1] == a + b[..|b| - 1];
      CountAppend(a, b[..|b| - 1], x);
    }
  }

  lemma {:induction false} CountPositive<T>(s: seq<T>, x: T)
    ensures Count(s, x) > 0 <==> x in s
  {
    if |s| > 0 {
      CountPositive(s[..|s| - 1], x);
      assert s == s[..|s| - 1] + [s[|s| - 1]];
    }
  }

  /** `key` tells the elements of `s` apart. */
  predicate UniqueKeys<T, K(==)>(s: seq<T>, key: T -> K)
  {
    forall i, j :: 0 <= i < j < |s| ==> key(s[i]) != key(s[j])
  }

  /** Filtering never makes two kept elements share a key. */
  lemma {:induction false} FilterUniqueKeys<T, K>(s: seq<T>, f: T -> bool, key: T -> K)
    requires UniqueKeys(s, key)
    ensures UniqueKeys(Filter(s, f), key)
  {
    if |s| > 0 {
      FilterUniqueKeys(s[1..], f, key);
      var rest := Filter(s[1..], f);
      forall j | 0 <= j < |rest|
        ensures key(rest[j]) != key(s[0])
      {
        var m :| 0 <= m < |s[1..]| && s[1..][m] == rest[j];
        assert s[m + 1] == rest[j];
      }
    }
  }

  /** Filtering out the one element with key `key(s[k])` leaves the elements
      before and after it, in order. */
  lemma {:induction false} FilterOutKey<T, K>(s: seq<T>, key: T -> K, k: nat, f: T -> bool)
    requires UniqueKeys(s, key) && k < |s|
    requires forall i :: 0 <= i < |s| ==> (f(s[i]) <==> key(s[i]) != key(s[k]))
    ensures Filter(s, f) == s[..k] + s[k + 1..]
  {
    var tail := s[1..];
    if k == 0 {
      forall i | 0 <= i < |tail| ensures f(tail[i]) {
        assert tail[i] == s[i + 1];
      }
      FilterKeepsAll(tail, f);
    } else {
      assert UniqueKeys(tail, key) by {
        forall i, j | 0 <= i < j < |tail| ensures key(tail[i]) != key(tail[j]) {
          assert tail[i] == s[i + 1] && tail[j] == s[j + 1];
        }
      }
      forall i | 0 <= i < |tail| ensures f(tail[i]) <==> key(tail[i]) != key(tail[k - 1]) {
        assert tail[i] == s[i + 1];
      }
      FilterOutKey(tail, key, k - 1, f);
      assert f(s[0]) by { assert key(s[0]) != key(s[k]); }
      assert s[..k] == [s[0]] + tail[..k - 1];
      assert s[k + 1..] == tail[k..];
    }
  }

  /** Filtering out a key no element has changes nothing. */
  lemma FilterOutAbsentKey<T, K>(s: seq<T>, key: T -> K, k: K, f: T -> bool)
    requires forall i :: 0 <= i < |s| ==> key(s[i]) != k
    requires forall i :: 0 <= i < |s| ==> (f(s[i]) <==> key(s[i]) != k)
    ensures Filter(s, f) == s
  {
    FilterKeepsAll(s, f);
  }
}
