/**
 * Sequence helpers shared by the components: `Array.prototype.filter`, the
 * "count into a plain object, then `Object.entries`" idiom, and sums.
 */
module Seqs {

  /** No element occurs twice. */
  predicate Distinct<T(==)>(s: seq<T>)
  {
    forall i, j :: 0 <= i < j < |s| ==> s[i] != s[j]
  }

  /** A new element appended to a distinct sequence keeps it distinct. */
  lemma DistinctSnoc<T>(s: seq<T>, x: T)
    requires Distinct(s) && x !in s
    ensures Distinct(s + [x])
  {
    var t := s + [x];
    forall i, j | 0 <= i < j < |t|
      ensures t[i] != t[j]
    {
      if j == |s| {
        assert t[i] == s[i];
      }
    }
  }

  /** `xs.filter(p)`: the elements that satisfy `p`, in their original order. */
  function Filter<T>(xs: seq<T>, p: T -> bool): (r: seq<T>)
    ensures |r| <= |xs|
    ensures forall x :: x in r ==> x in xs && p(x)
    ensures forall x :: x in xs && p(x) ==> x in r
  {
    if xs == [] then []
    else (if p(xs[0]) then [xs[0]] else []) + Filter(xs[1..], p)
  }

  /** Filtering distributes over concatenation, so the kept elements keep their relative order. */
  lemma {:induction false} FilterAppend<T>(a: seq<T>, b: seq<T>, p: T -> bool)
    ensures Filter(a + b, p) == Filter(a, p) + Filter(b, p)
  {
    if a != [] {
      assert (a + b)[1..] == a[1..] + b;
      FilterAppend(a[1..], b, p);
    } else {
      assert a + b == b;
    }
  }

  /** One more element adds one to the number kept exactly when it passes. */
  lemma FilterSnocLength<T>(xs: seq<T>, x: T, p: T -> bool)
    ensures |Filter(xs + [x], p)| == |Filter(xs, p)| + (if p(x) then 1 else 0)
  {
    FilterAppend(xs, [x], p);
    assert [x][1..] == [];
  }

  /** Filtering keeps a sequence unchanged exactly when every element passes. */
  lemma {:induction false} FilterKeepsAll<T>(xs: seq<T>, p: T -> bool)
    ensures Filter(xs, p) == xs <==> forall x :: x in xs ==> p(x)
  {
    if xs != [] {
      FilterKeepsAll(xs[1..], p);
      if !p(xs[0]) {
        assert |Filter(xs, p)| < |xs| by {
          assert Filter(xs, p) == Filter(xs[1..], p);
        }
      }
    }
  }

  /** Filtering twice with the same predicate is the same as filtering once. */
  lemma {:induction false} FilterIdempotent<T>(xs: seq<T>, p: T -> bool)
    ensures Filter(Filter(xs, p), p) == Filter(xs, p)
  {
    FilterKeepsAll(Filter(xs, p), p);
  }

  /** A filtered distinct sequence is distinct. */
  lemma {:induction false} FilterDistinct<T>(xs: seq<T>, p: T -> bool)
    requires Distinct(xs)
    ensures Distinct(Filter(xs, p))
  {
    if xs != [] {
      FilterDistinct(xs[1..], p);
      var rest := Filter(xs[1..], p);
      assert xs[0] !in rest by {
        assert xs[0] !in xs[1..];
      }
    }
  }

  /** The first element of a filtered sequence is the first element that satisfies the predicate. */
  lemma {:induction false} FilterFirst<T>(xs: seq<T>, p: T -> bool, m: nat)
    requires m < |xs| && p(xs[m])
    requires forall j :: 0 <= j < m ==> !p(xs[j])
    ensures Filter(xs, p) != [] && Filter(xs, p)[0] == xs[m]
  {
    if m > 0 {
      FilterFirst(xs[1..], p, m - 1);
    }
  }

  /** Number of occurrences of `x` in `xs`. */
  function Count<T(==)>(xs: seq<T>, x: T): (n: nat)
    ensures n <= |xs|
    ensures n > 0 <==> x in xs
  {
    if xs == [] then 0
    else Count(xs[..|xs| - 1], x) + (if xs[|xs| - 1] == x then 1 else 0)
  }

  lemma {:induction false} CountAppend<T>(a: seq<T>, b: seq<T>, x: T)
    ensures Count(a + b, x) == Count(a, x) + Count(b, x)
    decreases |b|
  {
    if b == [] {
      assert a + b == a;
    } else {
      assert (a + b)[..|a + b| - 1] == a + b[..|b| - 1];
      CountAppend(a, b[..|b| - 1], x);
    }
  }

  /** In a distinct sequence nothing occurs more than once. */
  lemma {:induction false} CountDistinct<T>(xs: seq<T>, x: T)
    requires Distinct(xs)
    ensures Count(xs, x) <= 1
  {
    if xs != [] {
      var init := xs[..|xs| - 1];
      assert Distinct(init);
      CountDistinct(init, x);
      if xs[|xs| - 1] == x {
        assert x !in init;
      }
    }
  }

  /**
   * The distinct elements of `xs` in order of first occurrence: the key order of
   * a plain object filled by a left-to-right loop (keys here are never
   * integer-like strings, so insertion order is the enumeration order).
   */
  function Keys<T(==)>(xs: seq<T>): (ks: seq<T>)
    ensures Distinct(ks)
    ensures forall x :: x in ks ==> x in xs
    ensures forall x :: x in xs ==> x in ks
  {
    if xs == [] then []
    else
      var ks' := Keys(xs[..|xs| - 1]);
      if xs[|xs| - 1] in ks' then ks' else ks' + [xs[|xs| - 1]]
  }

  /** One step of the left-to-right loop: the next element is appended when it is new. */
  lemma KeysStep<T>(xs: seq<T>, i: nat)
    requires i < |xs|
    ensures Keys(xs[..i + 1]) == if xs[i] in Keys(xs[..i]) then Keys(xs[..i]) else Keys(xs[..i]) + [xs[i]]
  {
    assert xs[..i + 1][..i] == xs[..i];
  }

  /** A distinct sequence holds each element at most once. */
  lemma {:induction false} DistinctCounts<T>(xs: seq<T>)
    requires Distinct(xs)
    ensures forall x :: multiset(xs)[x] <= 1
  {
    if xs != [] {
      var t := xs[1..];
      assert xs == [xs[0]] + t;
      assert Distinct(t);
      DistinctCounts(t);
      assert xs[0] !in t;
    }
  }

  /** A sequence holding each element at most once is distinct. */
  lemma {:induction false} CountsDistinct<T>(xs: seq<T>)
    requires forall x :: multiset(xs)[x] <= 1
    ensures Distinct(xs)
  {
    if xs != [] {
      var t := xs[1..];
      assert xs == [xs[0]] + t;
      assert forall x :: multiset(t)[x] <= multiset(xs)[x];
      CountsDistinct(t);
      assert multiset(t)[xs[0]] == 0;
      forall i, j | 0 <= i < j < |xs|
        ensures xs[i] != xs[j]
      {
        if i > 0 {
          assert xs[i] == t[i - 1] && xs[j] == t[j - 1];
        } else {
          assert xs[j] in t;
        }
      }
    }
  }

  /** Reordering keeps a sequence distinct. */
  lemma DistinctPermutation<T>(xs: seq<T>, ys: seq<T>)
    requires Distinct(xs) && multiset(xs) == multiset(ys)
    ensures Distinct(ys)
  {
    DistinctCounts(xs);
    CountsDistinct(ys);
  }

  /** The lists laid end to end: every element of a nested `forEach`, in visiting order. */
  function Flatten<T>(lists: seq<seq<T>>): (r: seq<T>)
  {
    if lists == [] then [] else Flatten(lists[..|lists| - 1]) + lists[|lists| - 1]
  }

  /** Visiting one more list appends its elements. */
  lemma FlattenStep<T>(lists: seq<seq<T>>, i: nat)
    requires i < |lists|
    ensures Flatten(lists[..i + 1]) == Flatten(lists[..i]) + lists[i]
  {
    assert lists[..i + 1][..i] == lists[..i];
  }

  /** Nothing is visited exactly when every list is empty. */
  lemma {:induction false} FlattenEmpty<T>(lists: seq<seq<T>>)
    ensures Flatten(lists) == [] <==> forall i :: 0 <= i < |lists| ==> lists[i] == []
  {
    if lists != [] {
      var init := lists[..|lists| - 1];
      FlattenEmpty(init);
      assert forall i :: 0 <= i < |init| ==> init[i] == lists[i];
    }
  }

  /** When no list repeats an element, an element is visited at most once per list. */
  lemma {:induction false} CountFlattenAtMost<T>(lists: seq<seq<T>>, x: T)
    requires forall i :: 0 <= i < |lists| ==> Distinct(lists[i])
    ensures Count(Flatten(lists), x) <= |lists|
  {
    if lists != [] {
      var init := lists[..|lists| - 1];
      var last := lists[|lists| - 1];
      assert forall i :: 0 <= i < |init| ==> init[i] == lists[i];
      CountFlattenAtMost(init, x);
      CountAppend(Flatten(init), last, x);
      CountDistinct(last, x);
    }
  }

  /** When no list repeats an element, an element found in every list is visited once per list. */
  lemma {:induction false} CountFlattenAll<T>(lists: seq<seq<T>>, x: T)
    requires forall i :: 0 <= i < |lists| ==> Distinct(lists[i]) && x in lists[i]
    ensures Count(Flatten(lists), x) == |lists|
  {
    if lists != [] {
      var init := lists[..|lists| - 1];
      var last := lists[|lists| - 1];
      assert forall i :: 0 <= i < |init| ==> init[i] == lists[i];
      CountFlattenAll(init, x);
      CountAppend(Flatten(init), last, x);
      CountDistinct(last, x);
    }
  }

  /** A key with its number of occurrences: one entry of `Object.entries(counts)`. */
  datatype Tallied<K> = Tallied(key: K, count: nat)

  /** `Object.entries` of the object built by `acc[x] = (acc[x] || 0) + 1` over `xs`. */
  function Tally<K(==)>(xs: seq<K>): (t: seq<Tallied<K>>)
    ensures |t| == |Keys(xs)|
    ensures forall i :: 0 <= i < |t| ==> t[i].key == Keys(xs)[i] && t[i].count == Count(xs, t[i].key)
  {
    TallyOf(Keys(xs), xs)
  }

  function TallyOf<K(==)>(ks: seq<K>, xs: seq<K>): (t: seq<Tallied<K>>)
    ensures |t| == |ks|
    ensures forall i :: 0 <= i < |t| ==> t[i] == Tallied(ks[i], Count(xs, ks[i]))
  {
    if ks == [] then [] else TallyOf(ks[..|ks| - 1], xs) + [Tallied(ks[|ks| - 1], Count(xs, ks[|ks| - 1]))]
  }

  /** A tally is empty exactly when the tallied sequence is. */
  lemma TallyEmpty<K>(xs: seq<K>)
    ensures Tally(xs) == [] <==> xs == []
  {
    if xs != [] {
      assert xs[0] in Keys(xs);
    }
  }

  /** Sum of the counts of a tally. */
  function SumCounts<K>(t: seq<Tallied<K>>): nat
  {
    if t == [] then 0 else SumCounts(t[..|t| - 1]) + t[|t| - 1].count
  }

  lemma {:induction false} SumCountsAppend<K>(a: seq<Tallied<K>>, b: seq<Tallied<K>>)
    ensures SumCounts(a + b) == SumCounts(a) + SumCounts(b)
    decreases |b|
  {
    if b == [] {
      assert a + b == a;
    } else {
      assert (a + b)[..|a + b| - 1] == a + b[..|b| - 1];
      SumCountsAppend(a, b[..|b| - 1]);
    }
  }

  /** Counting `xs + [x]` over distinct keys adds one exactly when `x` is one of the keys. */
  lemma {:induction false} SumCountsSnoc<K>(ks: seq<K>, xs: seq<K>, x: K)
    requires Distinct(ks)
    ensures SumCounts(TallyOf(ks, xs + [x])) == SumCounts(TallyOf(ks, xs)) + (if x in ks then 1 else 0)
  {
    if ks != [] {
      var init := ks[..|ks| - 1];
      var k := ks[|ks| - 1];
      assert Distinct(init);
      SumCountsSnoc(init, xs, x);
      assert (xs + [x])[..|xs|] == xs;
      assert Count(xs + [x], k) == Count(xs, k) + (if x == k then 1 else 0);
      assert x in ks <==> x in init || x == k;
      assert x == k ==> x !in init;
    }
  }

  /** Every element is counted under exactly one key: the counts of a tally add up to the length. */
  lemma {:induction false} TallySumsToLength<K>(xs: seq<K>)
    ensures SumCounts(Tally(xs)) == |xs|
  {
    if xs != [] {
      var init := xs[..|xs| - 1];
      var x := xs[|xs| - 1];
      assert xs == init + [x];
      TallySumsToLength(init);
      var ks := Keys(init);
      SumCountsSnoc(ks, init, x);
      if x !in ks {
        assert Keys(xs) == ks + [x];
        assert TallyOf(ks + [x], xs) == TallyOf(ks, xs) + [Tallied(x, Count(xs, x))] by {
          assert (ks + [x])[..|ks|] == ks;
        }
        SumCountsAppend(TallyOf(ks, xs), [Tallied(x, Count(xs, x))]);
        assert Count(init, x) == 0;
        assert SumCounts([Tallied(x, Count(xs, x))]) == 1;
      }
    }
  }

  /** Sum of `f` over a sequence. */
  function SumBy<T>(xs: seq<T>, f: T -> real): real
  {
    if xs == [] then 0.0 else f(xs[0]) + SumBy(xs[1..], f)
  }

  lemma {:induction false} SumByAppend<T>(a: seq<T>, b: seq<T>, f: T -> real)
    ensures SumBy(a + b, f) == SumBy(a, f) + SumBy(b, f)
  {
    if a != [] {
      assert (a + b)[1..] == a[1..] + b;
      SumByAppend(a[1..], b, f);
    } else {
      assert a + b == b;
    }
  }

  /** A sum does not depend on the order of its terms. */
  lemma {:induction false} SumByPermutation<T>(xs: seq<T>, ys: seq<T>, f: T -> real)
    requires multiset(xs) == multiset(ys)
    ensures SumBy(xs, f) == SumBy(ys, f)
    decreases |xs|
  {
    if xs == [] {
      assert |ys| == |multiset(ys)| == 0;
    } else {
      var x := xs[0];
      assert x in multiset(ys);
      var i :| 0 <= i < |ys| && ys[i] == x;
      var rest := ys[..i] + ys[i + 1..];
      assert ys == ys[..i] + [x] + ys[i + 1..];
      assert multiset(ys) == multiset(rest) + multiset{x};
      assert xs == [x] + xs[1..];
      assert multiset(xs) == multiset{x} + multiset(xs[1..]);
      assert multiset(xs[1..]) == multiset(xs) - multiset{x};
      assert multiset(rest) == multiset(ys) - multiset{x};
      SumByPermutation(xs[1..], rest, f);
      SumByAppend(ys[..i] + [x], ys[i + 1..], f);
      SumByAppend(ys[..i], [x], f);
      SumByAppend(ys[..i], ys[i + 1..], f);
    }
  }
  /** `(count / total) * 100`: a count as a percentage of a positive total. */
  function Percentage(count: nat, total: nat): real
    requires total > 0
  {
    (count as real / total as real) * 100.0
  }

  /** A positive part of the total is a percentage in (0, 100]. */
  lemma PercentageBounds(count: nat, total: nat)
    requires 0 < count <= total
    ensures 0.0 < Percentage(count, total) <= 100.0
  {
    var q := count as real / total as real;
    assert q * total as real == count as real;
    assert q > 0.0;
    assert (1.0 - q) * total as real >= 0.0;
  }

  /** Percentages of the same total add up like the counts. */
  lemma PercentageAdd(a: nat, b: nat, total: nat)
    requires total > 0
    ensures Percentage(a, total) + Percentage(b, total) == Percentage(a + b, total)
  {
    var d := total as real;
    var qa, qb := a as real / d, b as real / d;
    assert qa * d == a as real && qb * d == b as real;
    assert (qa + qb) * d == (a + b) as real;
  }

  /** The whole is 100 percent. */
  lemma PercentageWhole(total: nat)
    requires total > 0
    ensures Percentage(total, total) == 100.0
  {
  }
}
