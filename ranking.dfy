/**
 * Ranking by a numeric key. `Array.prototype.sort` is stable, so
 * `entries.sort((a, b) => key(b) - key(a))` orders by non-increasing key and
 * keeps equal keys in their original order; `slice(0, n)` and `slice(-n)` then
 * take the two ends.
 */
module Ranking {
  import opened Seqs

  predicate SortedDesc<T>(s: seq<T>, key: T -> real)
  {
    forall i, j :: 0 <= i < j < |s| ==> key(s[i]) >= key(s[j])
  }

  /** Inserts `x` into `s` after every element whose key is at least `key(x)`. */
  function InsertDesc<T>(x: T, s: seq<T>, key: T -> real): (r: seq<T>)
    ensures |r| == |s| + 1
  {
    if s == [] then [x]
    else if key(s[0]) < key(x) then [x] + s
    else
      assert s == [s[0]] + s[1..];
      [s[0]] + InsertDesc(x, s[1..], key)
  }

  /** The stable descending sort, as an insertion of each element in input order. */
  function SortDesc<T>(s: seq<T>, key: T -> real): (r: seq<T>)
    ensures |r| == |s|
  {
    if s == [] then []
    else
      InsertDesc(s[|s| - 1], SortDesc(s[..|s| - 1], key), key)
  }

  /** Insertion adds `x` and keeps everything else. */
  lemma {:induction false} InsertDescPerm<T>(x: T, s: seq<T>, key: T -> real)
    ensures multiset(InsertDesc(x, s, key)) == multiset(s) + multiset{x}
  {
    if s != [] && key(s[0]) >= key(x) {
      InsertDescPerm(x, s[1..], key);
      assert s == [s[0]] + s[1..];
    }
  }

  /** The sort is a permutation of its input. */
  lemma {:induction false} SortDescPerm<T>(s: seq<T>, key: T -> real)
    ensures multiset(SortDesc(s, key)) == multiset(s)
  {
    if s != [] {
      SortDescPerm(s[..|s| - 1], key);
      InsertDescPerm(s[|s| - 1], SortDesc(s[..|s| - 1], key), key);
      assert s == s[..|s| - 1] + [s[|s| - 1]];
    }
  }

  lemma {:induction false} InsertDescSorted<T>(x: T, s: seq<T>, key: T -> real)
    requires SortedDesc(s, key)
    ensures SortedDesc(InsertDesc(x, s, key), key)
  {
    if s != [] && key(s[0]) >= key(x) {
      InsertDescSorted(x, s[1..], key);
      var r := InsertDesc(x, s[1..], key);
      InsertDescPerm(x, s[1..], key);
      forall y | y in r
        ensures key(s[0]) >= key(y)
      {
        assert y in multiset(r);
        assert y == x || y in multiset(s[1..]);
      }
    }
  }

  /** The sort puts the keys in non-increasing order. */
  lemma {:induction false} SortDescSorted<T>(s: seq<T>, key: T -> real)
    ensures SortedDesc(SortDesc(s, key), key)
  {
    if s != [] {
      SortDescSorted(s[..|s| - 1], key);
      InsertDescSorted(s[|s| - 1], SortDesc(s[..|s| - 1], key), key);
    }
  }

  /** The elements whose key is `v`, in order. */
  function WithKey<T>(s: seq<T>, key: T -> real, v: real): seq<T>
  {
    if s == [] then [] else KeyPart(s[0], key, v) + WithKey(s[1..], key, v)
  }

  /** `[x]` when its key is `v`, nothing otherwise. */
  function KeyPart<T>(x: T, key: T -> real, v: real): seq<T>
  {
    if key(x) == v then [x] else []
  }

  lemma WithKeyCons<T>(x: T, s: seq<T>, key: T -> real, v: real)
    ensures WithKey([x] + s, key, v) == KeyPart(x, key, v) + WithKey(s, key, v)
  {
    assert ([x] + s)[1..] == s;
  }

  lemma {:induction false} WithKeyAppend<T>(a: seq<T>, b: seq<T>, key: T -> real, v: real)
    ensures WithKey(a + b, key, v) == WithKey(a, key, v) + WithKey(b, key, v)
  {
    if a == [] {
      assert a + b == b;
    } else {
      var h, t := KeyPart(a[0], key, v), a[1..];
      calc {
        WithKey(a + b, key, v);
        { assert a + b == [a[0]] + (t + b); WithKeyCons(a[0], t + b, key, v); }
        h + WithKey(t + b, key, v);
        { WithKeyAppend(t, b, key, v); }
        h + (WithKey(t, key, v) + WithKey(b, key, v));
        (h + WithKey(t, key, v)) + WithKey(b, key, v);
        { assert a == [a[0]] + t; WithKeyCons(a[0], t, key, v); }
        WithKey(a, key, v) + WithKey(b, key, v);
      }
    }
  }

  lemma {:induction false} WithKeyNone<T>(s: seq<T>, key: T -> real, v: real)
    requires forall i :: 0 <= i < |s| ==> key(s[i]) < v
    ensures WithKey(s, key, v) == []
  {
    if s != [] {
      WithKeyNone(s[1..], key, v);
    }
  }

  lemma {:induction false} WithKeyFirst<T>(s: seq<T>, key: T -> real, m: nat)
    requires m < |s|
    requires forall j :: 0 <= j < m ==> key(s[j]) != key(s[m])
    ensures WithKey(s, key, key(s[m])) != [] && WithKey(s, key, key(s[m]))[0] == s[m]
  {
    if m > 0 {
      WithKeyFirst(s[1..], key, m - 1);
    }
  }

  lemma {:induction false} InsertDescStable<T>(x: T, s: seq<T>, key: T -> real, v: real)
    requires SortedDesc(s, key)
    ensures WithKey(InsertDesc(x, s, key), key, v) == WithKey(s, key, v) + KeyPart(x, key, v)
  {
    if s == [] {
      WithKeyCons(x, [], key, v);
    } else if key(s[0]) < key(x) {
      InsertFrontStable(x, s, key, v);
    } else {
      assert SortedDesc(s[1..], key);
      InsertDescStable(x, s[1..], key, v);
      ConsStable(s[0], InsertDesc(x, s[1..], key), s[1..], KeyPart(x, key, v), key, v);
      assert s == [s[0]] + s[1..];
    }
  }

  /** Inserting in front of larger keys leaves the elements with key `v` in order. */
  lemma InsertFrontStable<T>(x: T, s: seq<T>, key: T -> real, v: real)
    requires s != [] && SortedDesc(s, key) && key(s[0]) < key(x)
    ensures WithKey([x] + s, key, v) == WithKey(s, key, v) + KeyPart(x, key, v)
  {
    WithKeyCons(x, s, key, v);
    if key(x) == v {
      assert forall i :: 0 <= i < |s| ==> key(s[i]) <= key(s[0]);
      WithKeyNone(s, key, v);
    }
  }

  /** Putting the same element in front of two sequences keeps the relation between their `v`-elements. */
  lemma ConsStable<T>(y: T, rest: seq<T>, t: seq<T>, tail: seq<T>, key: T -> real, v: real)
    requires WithKey(rest, key, v) == WithKey(t, key, v) + tail
    ensures WithKey([y] + rest, key, v) == WithKey([y] + t, key, v) + tail
  {
    var h := KeyPart(y, key, v);
    calc {
      WithKey([y] + rest, key, v);
      { WithKeyCons(y, rest, key, v); }
      h + (WithKey(t, key, v) + tail);
      (h + WithKey(t, key, v)) + tail;
      { WithKeyCons(y, t, key, v); }
      WithKey([y] + t, key, v) + tail;
    }
  }

  /** The sort is stable: the elements sharing a key keep their input order. */
  lemma {:induction false} SortDescStable<T>(s: seq<T>, key: T -> real, v: real)
    ensures WithKey(SortDesc(s, key), key, v) == WithKey(s, key, v)
  {
    if s != [] {
      var init, last := s[..|s| - 1], s[|s| - 1];
      var sortedInit := SortDesc(init, key);
      var lastPart := KeyPart(last, key, v);
      assert WithKey(InsertDesc(last, sortedInit, key), key, v) == WithKey(sortedInit, key, v) + lastPart by {
        SortDescSorted(init, key);
        InsertDescStable(last, sortedInit, key, v);
      }
      SortDescStable(init, key, v);
      assert s == init + [last];
      assert WithKey([last], key, v) == lastPart by {
        WithKeyCons(last, [], key, v);
      }
      WithKeyAppend(init, [last], key, v);
    }
  }

  /**
   * The head of the sorted sequence is the first input element with the
   * largest key: a maximum, and ties go to the earliest.
   */
  lemma SortDescHead<T>(s: seq<T>, key: T -> real, m: nat)
    requires m < |s|
    requires forall j :: 0 <= j < |s| ==> key(s[j]) <= key(s[m])
    requires forall j :: 0 <= j < m ==> key(s[j]) < key(s[m])
    ensures SortDesc(s, key)[0] == s[m]
  {
    var r := SortDesc(s, key);
    SortDescSorted(s, key);
    SortDescPerm(s, key);
    assert s[m] in multiset(r);
    assert r[0] in multiset(s);
    assert key(r[0]) == key(s[m]);
    WithKeyFirst(r, key, 0);
    WithKeyFirst(s, key, m);
    SortDescStable(s, key, key(s[m]));
  }

  /** `s.slice(0, n)`. */
  function Take<T>(s: seq<T>, n: nat): (r: seq<T>)
    ensures |r| == if n < |s| then n else |s|
    ensures r <= s
  {
    if n < |s| then s[..n] else s
  }

  /** `s.slice(-n)` for a positive `n`: the last `n` elements, or all of them when there are fewer. */
  function TakeLast<T>(s: seq<T>, n: nat): (r: seq<T>)
    requires n > 0
    ensures |r| == if n < |s| then n else |s|
    ensures forall i :: 0 <= i < |r| ==> r[i] == s[|s| - |r| + i]
  {
    if n < |s| then s[|s| - n..] else s
  }

  /** Cutting a suffix `s[a..]` at `b` and joining the two pieces gives the suffix back. */
  lemma SplitSuffix<T>(s: seq<T>, a: nat, b: nat)
    requires a <= b <= |s|
    ensures s[a..b] + s[b..] == s[a..]
  {
  }
}
