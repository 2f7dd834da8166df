/** The array operations the components compose: `filter`, `slice(0, n)` and the
    first-occurrence de-duplication of `Array.from(new Set(xs))`. */
module Seqs {
  import opened Common

  /** `r` is `s` with some elements dropped: an order-preserving subsequence. */
  ghost predicate SubsequenceOf<T>(r: seq<T>, s: seq<T>)
    decreases |s|
  {
    if r == [] then true
    else if s == [] then false
    else (r[0] == s[0] && SubsequenceOf(r[1..], s[1..])) || SubsequenceOf(r, s[1..])
  }

  lemma {:induction false} SubsequenceOfSelf<T>(s: seq<T>)
    ensures SubsequenceOf(s, s)
    decreases |s|
  {
    if s != [] {
      SubsequenceOfSelf(s[1..]);
    }
  }

  /** `s.filter(keep)`: the kept elements of `s`, in their original order. */
  function Filter<T(==,!new)>(s: seq<T>, keep: T -> bool): (r: seq<T>)
    ensures forall x :: x in r <==> x in s && keep(x)
    ensures |r| <= |s|
    decreases |s|
  {
    if s == [] then []
    else if keep(s[0]) then [s[0]] + Filter(s[1..], keep)
    else Filter(s[1..], keep)
  }

  /** A filtered sequence is an order-preserving subsequence of its input. */
  lemma {:induction false} FilterIsSubsequence<T(!new)>(s: seq<T>, keep: T -> bool)
    ensures SubsequenceOf(Filter(s, keep), s)
    decreases |s|
  {
    if s != [] {
      FilterIsSubsequence(s[1..], keep);
      var r := Filter(s, keep);
      if keep(s[0]) {
        assert r[0] == s[0] && r[1..] == Filter(s[1..], keep);
      }
    }
  }

  /** Each kept element occurs in the result as often as in the input; the rest not at all. */
  lemma {:induction false} FilterCount<T(!new)>(s: seq<T>, keep: T -> bool, x: T)
    ensures multiset(Filter(s, keep))[x] == if keep(x) then multiset(s)[x] else 0
    decreases |s|
  {
    if s != [] {
      FilterCount(s[1..], keep, x);
      assert s == [s[0]] + s[1..];
      assert multiset(s) == multiset([s[0]]) + multiset(s[1..]);
    }
  }

  /** A filter that rejects nothing is the identity. */
  lemma {:induction false} FilterKeepsAll<T(!new)>(s: seq<T>, keep: T -> bool)
    requires forall x :: x in s ==> keep(x)
    ensures Filter(s, keep) == s
    decreases |s|
  {
    if s != [] {
      FilterKeepsAll(s[1..], keep);
    }
  }

  /** Filtering distributes over concatenation. */
  lemma {:induction false} FilterConcat<T(!new)>(a: seq<T>, b: seq<T>, keep: T -> bool)
    ensures Filter(a + b, keep) == Filter(a, keep) + Filter(b, keep)
    decreases |a|
  {
    if a != [] {
      assert (a + b)[0] == a[0] && (a + b)[1..] == a[1..] + b;
      FilterConcat(a[1..], b, keep);
    } else {
      assert a + b == b;
    }
  }

  /** Filters that agree on the elements of `s` give the same result. */
  lemma {:induction false} FilterCongruent<T(!new)>(s: seq<T>, f: T -> bool, g: T -> bool)
    requires forall x :: x in s ==> f(x) == g(x)
    ensures Filter(s, f) == Filter(s, g)
    decreases |s|
  {
    if s != [] {
      FilterCongruent(s[1..], f, g);
    }
  }

  /** Filtering twice by the same predicate is filtering once. */
  lemma {:induction false} FilterIdempotent<T(!new)>(s: seq<T>, keep: T -> bool)
    ensures Filter(Filter(s, keep), keep) == Filter(s, keep)
    decreases |s|
  {
    if s != [] {
      FilterIdempotent(s[1..], keep);
      if keep(s[0]) {
        var t := Filter(s[1..], keep);
        assert ([s[0]] + t)[0] == s[0] && ([s[0]] + t)[1..] == t;
      }
    }
  }

  /** A relation that holds between every earlier and later element still holds after filtering. */
  lemma {:induction false} FilterKeepsPairwise<T(!new)>(s: seq<T>, keep: T -> bool, R: (T, T) -> bool)
    requires forall i, j :: 0 <= i < j < |s| ==> R(s[i], s[j])
    ensures forall i, j :: 0 <= i < j < |Filter(s, keep)| ==> R(Filter(s, keep)[i], Filter(s, keep)[j])
    decreases |s|
  {
    if s != [] {
      assert forall i, j :: 0 <= i < j < |s[1..]| ==> R(s[1..][i], s[1..][j]) by {
        forall i, j | 0 <= i < j < |s[1..]| ensures R(s[1..][i], s[1..][j]) {
          assert s[1..][i] == s[i + 1] && s[1..][j] == s[j + 1];
        }
      }
      FilterKeepsPairwise(s[1..], keep, R);
      var t := Filter(s[1..], keep);
      if keep(s[0]) {
        var r := [s[0]] + t;
        forall i, j | 0 <= i < j < |r| ensures R(r[i], r[j]) {
          assert r[j] == t[j - 1] && t[j - 1] in s[1..];
          if i == 0 {
            var k :| 0 <= k < |s[1..]| && s[1..][k] == t[j - 1];
            assert s[k + 1] == r[j];
          } else {
            assert r[i] == t[i - 1];
          }
        }
      }
    }
  }

  /** `s.slice(0, n)`: the first `n` elements, or all of `s` when it is shorter. */
  function Take<T>(s: seq<T>, n: nat): (r: seq<T>)
    ensures |r| == Min(n, |s|)
    ensures r == s[..|r|]
  {
    if n <= |s| then s[..n] else s
  }

  predicate NoDuplicates<T(==)>(s: seq<T>) {
    forall i, j :: 0 <= i < j < |s| ==> s[i] != s[j]
  }

  /** The index of the first occurrence of `x` in `s`. */
  function FirstIndex<T(==)>(s: seq<T>, x: T): (k: nat)
    requires x in s
    ensures k < |s| && s[k] == x
    ensures forall j :: 0 <= j < k ==> s[j] != x
    decreases |s|
  {
    if s[0] == x then 0 else 1 + FirstIndex(s[1..], x)
  }

  lemma {:induction false} FirstIndexOfPrefix<T>(s: seq<T>, n: nat, x: T)
    requires n <= |s| && x in s[..n]
    ensures FirstIndex(s, x) == FirstIndex(s[..n], x)
    decreases n
  {
    if s[0] != x {
      assert s[..n][1..] == s[1..][..n - 1];
      FirstIndexOfPrefix(s[1..], n - 1, x);
    }
  }

  /** The properties `Dedup` promises, of `r` against its input `s`. */
  ghost predicate DedupOf<T(!new)>(r: seq<T>, s: seq<T>) {
    && NoDuplicates(r)
    && (forall x :: x in r <==> x in s)
    && (forall i, j :: 0 <= i < j < |r| ==> FirstIndex(s, r[i]) < FirstIndex(s, r[j]))
  }

  /** Appending the next input element, when it is new, keeps `DedupOf`. */
  lemma DedupSnoc<T(!new)>(s: seq<T>, d: seq<T>)
    requires |s| > 0 && DedupOf(d, s[..|s| - 1])
    ensures DedupOf(if s[|s| - 1] in d then d else d + [s[|s| - 1]], s)
  {
    var init, last := s[..|s| - 1], s[|s| - 1];
    assert s == init + [last];
    forall i | 0 <= i < |d| ensures FirstIndex(s, d[i]) == FirstIndex(init, d[i]) {
      FirstIndexOfPrefix(s, |s| - 1, d[i]);
    }
    if last !in d {
      var r := d + [last];
      assert FirstIndex(s, last) == |s| - 1;
      forall i, j | 0 <= i < j < |r| ensures FirstIndex(s, r[i]) < FirstIndex(s, r[j]) {
        assert r[i] == d[i];
        if j < |d| {
          assert r[j] == d[j];
        }
      }
    }
  }

  /** `Array.from(new Set(s))`: every distinct element once, in order of first occurrence. */
  function Dedup<T(==,!new)>(s: seq<T>): (r: seq<T>)
    ensures NoDuplicates(r)
    ensures forall x :: x in r <==> x in s
    ensures forall i, j :: 0 <= i < j < |r| ==> FirstIndex(s, r[i]) < FirstIndex(s, r[j])
    decreases |s|
  {
    if s == [] then []
    else
      var d := Dedup(s[..|s| - 1]);
      DedupSnoc(s, d);
      if s[|s| - 1] in d then d else d + [s[|s| - 1]]
  }
}
