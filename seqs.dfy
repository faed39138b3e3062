/**
 * The Python list idioms the engine is built from: list comprehensions that
 * filter, the slice `xs[-limit:]`, and `sum` over a slice.
 */
module Seqs {
  import opened Types

  /** `ys` keeps some of the elements of `xs`, in their order. */
  ghost predicate IsSubsequence<T>(ys: seq<T>, xs: seq<T>)
    decreases |xs|
  {
    ys == [] ||
    (xs != [] &&
     ((ys[0] == xs[0] && IsSubsequence(ys[1..], xs[1..])) || IsSubsequence(ys, xs[1..])))
  }

  /** `[x for x in xs if keep(x)]` */
  function Filter<T>(xs: seq<T>, keep: T -> bool): (r: seq<T>)
    ensures |r| <= |xs|
    ensures forall i :: 0 <= i < |r| ==> keep(r[i]) && r[i] in xs
    ensures forall x :: x in xs && keep(x) ==> x in r
  {
    if xs == [] then []
    else (if keep(xs[0]) then [xs[0]] else []) + Filter(xs[1..], keep)
  }

  lemma {:induction false} FilterIsSubsequence<T>(xs: seq<T>, keep: T -> bool)
    ensures IsSubsequence(Filter(xs, keep), xs)
  {
    if xs != [] {
      FilterIsSubsequence(xs[1..], keep);
      var r := Filter(xs, keep);
      if keep(xs[0]) {
        assert r[0] == xs[0] && r[1..] == Filter(xs[1..], keep);
      } else {
        assert r == Filter(xs[1..], keep);
      }
    }
  }

  /** Appending to a list extends what a comprehension over it selects at the end, and only there. */
  lemma {:induction false} FilterAppend<T>(xs: seq<T>, x: T, keep: T -> bool)
    ensures Filter(xs + [x], keep) == Filter(xs, keep) + (if keep(x) then [x] else [])
  {
    if xs == [] {
      assert xs + [x] == [x];
    } else {
      assert (xs + [x])[0] == xs[0];
      assert (xs + [x])[1..] == xs[1..] + [x];
      FilterAppend(xs[1..], x, keep);
    }
  }

  /** A comprehension over a concatenation is the concatenation of the comprehensions. */
  lemma {:induction false} FilterConcat<T>(xs: seq<T>, ys: seq<T>, keep: T -> bool)
    ensures Filter(xs + ys, keep) == Filter(xs, keep) + Filter(ys, keep)
  {
    if xs == [] {
      assert xs + ys == ys;
    } else {
      assert (xs + ys)[0] == xs[0];
      assert (xs + ys)[1..] == xs[1..] + ys;
      FilterConcat(xs[1..], ys, keep);
    }
  }

  lemma {:induction false} SuffixIsSubsequence<T>(ys: seq<T>, xs: seq<T>, k: nat)
    requires IsSubsequence(ys, xs)
    requires k <= |ys|
    ensures IsSubsequence(ys[k..], xs)
    decreases |xs|
  {
    if k == 0 {
      assert ys[k..] == ys;
    } else if ys[k..] != [] {
      if ys[0] == xs[0] && IsSubsequence(ys[1..], xs[1..]) {
        SuffixIsSubsequence(ys[1..], xs[1..], k - 1);
        assert ys[1..][k - 1..] == ys[k..];
      } else {
        SuffixIsSubsequence(ys, xs[1..], k);
      }
    }
  }

  /**
   * The start index CPython uses for the slice `xs[start:]` on a list of
   * length `n`: a negative start counts from the end, and the result is
   * clamped to `0..n`.
   */
  function SliceStart(start: int, n: nat): (s: nat)
    ensures s <= n
    ensures 0 <= start <= n ==> s == start
    ensures -(n as int) <= start < 0 ==> s == n + start
    ensures start < -(n as int) ==> s == 0
    ensures n < start ==> s == n
  {
    if start < 0 then (if start + n < 0 then 0 else start + n)
    else if start > n then n
    else start
  }

  /**
   * What asking for the latest `limit` entries of `xs` means in Python: a
   * suffix of `xs`, which for a positive limit is the last min(limit, |xs|)
   * entries, for a zero limit all of `xs` (`-0 == 0`), and for a negative
   * limit everything but the first `-limit` entries.
   */
  ghost predicate IsLatest<T>(r: seq<T>, xs: seq<T>, limit: int) {
    && |r| <= |xs| && r == xs[|xs| - |r|..]
    && (limit > 0 ==> |r| == (if limit <= |xs| then limit else |xs|))
    && (limit == 0 ==> r == xs)
    && (limit < 0 ==> |r| == (if |xs| + limit < 0 then 0 else |xs| + limit))
  }

  /** IsLatest leaves no choice: it determines the result. */
  lemma IsLatestIsUnique<T>(r1: seq<T>, r2: seq<T>, xs: seq<T>, limit: int)
    requires IsLatest(r1, xs, limit) && IsLatest(r2, xs, limit)
    ensures r1 == r2
  {
  }

  /** `xs[-limit:]` */
  function TakeLast<T>(xs: seq<T>, limit: int): (r: seq<T>)
    ensures IsLatest(r, xs, limit)
  {
    xs[SliceStart(-limit, |xs|)..]
  }

  /** `sum(xs)` over exact reals. */
  function Sum(xs: seq<real>): real {
    if xs == [] then 0.0 else xs[0] + Sum(xs[1..])
  }

  lemma {:induction false} SumAtMost(xs: seq<real>, hi: real)
    requires forall i :: 0 <= i < |xs| ==> xs[i] <= hi
    ensures Sum(xs) <= |xs| as real * hi
  {
    if xs != [] {
      SumAtMost(xs[1..], hi);
    }
  }

  lemma {:induction false} SumAtLeast(xs: seq<real>, lo: real)
    requires forall i :: 0 <= i < |xs| ==> lo <= xs[i]
    ensures |xs| as real * lo <= Sum(xs)
  {
    if xs != [] {
      SumAtLeast(xs[1..], lo);
    }
  }

  /** Every entry multiplied by `k`. */
  function Scale(xs: seq<real>, k: real): (r: seq<real>)
    ensures |r| == |xs| && forall i :: 0 <= i < |xs| ==> r[i] == k * xs[i]
  {
    seq(|xs|, i requires 0 <= i < |xs| => k * xs[i])
  }

  lemma {:induction false} SumScale(xs: seq<real>, k: real)
    ensures Sum(Scale(xs, k)) == k * Sum(xs)
  {
    if xs != [] {
      assert forall i :: 0 <= i < |xs| - 1 ==> Scale(xs, k)[1..][i] == Scale(xs[1..], k)[i];
      assert Scale(xs, k)[1..] == Scale(xs[1..], k);
      SumScale(xs[1..], k);
    }
  }

  lemma ScaleSplit(xs: seq<real>, k: real, split: nat)
    requires split <= |xs|
    ensures Scale(xs, k)[split..] == Scale(xs[split..], k)
    ensures Scale(xs, k)[..split] == Scale(xs[..split], k)
  {
    assert forall i :: 0 <= i < |xs| - split ==> Scale(xs, k)[split..][i] == Scale(xs[split..], k)[i];
    assert forall i :: 0 <= i < split ==> Scale(xs, k)[..split][i] == Scale(xs[..split], k)[i];
  }

  /** `n` copies of `c`. */
  function Repeat(c: real, n: nat): (r: seq<real>)
    ensures |r| == n && forall i :: 0 <= i < n ==> r[i] == c
  {
    seq(n, i => c)
  }

  lemma {:induction false} SumRepeat(c: real, n: nat)
    ensures Sum(Repeat(c, n)) == n as real * c
  {
    if n > 0 {
      assert Repeat(c, n)[1..] == Repeat(c, n - 1);
      SumRepeat(c, n - 1);
    }
  }

  /** The dict a loop over `keys` builds when it stores `entry(k)` for every key whose entry exists. */
  function MapOf<K, V>(keys: set<K>, entry: K -> Option<V>): map<K, V> {
    map k | k in keys && entry(k).Some? :: entry(k).value
  }

  /** One more key handled by such a loop. */
  lemma MapOfInsert<K, V>(keys: set<K>, entry: K -> Option<V>, k: K)
    ensures MapOf(keys + {k}, entry)
         == if entry(k).Some? then MapOf(keys, entry)[k := entry(k).value] else MapOf(keys, entry)
  {
  }
}
