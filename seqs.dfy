/**
 * Sequence operations that the components use through JavaScript's array
 * methods: `filter`, `filter(...).length`, `reduce` sums, `map` with an index,
 * `filter` on an index, spreading an element onto the end, and the
 * "includes ? filter out : append" toggle.
 */
module Seqs {

  /** `s.filter(p)`: the elements of `s` that satisfy `p`, in their order. */
  function Filter<T>(s: seq<T>, p: T -> bool): (r: seq<T>)
    ensures |r| <= |s|
    ensures forall k :: 0 <= k < |r| ==> p(r[k])
  {
    if s == [] then [] else (if p(s[0]) then [s[0]] else []) + Filter(s[1..], p)
  }

  /** `r` can be obtained from `s` by deleting elements, keeping the order. */
  ghost predicate IsSubsequence<T>(r: seq<T>, s: seq<T>)
    decreases |s|
  {
    if s == [] then r == []
    else (r != [] && r[0] == s[0] && IsSubsequence(r[1..], s[1..])) || IsSubsequence(r, s[1..])
  }

  /** A filter result is an order-preserving subsequence of its input. */
  lemma {:induction false} FilterIsSubsequence<T>(s: seq<T>, p: T -> bool)
    ensures IsSubsequence(Filter(s, p), s)
  {
    if s != [] {
      FilterIsSubsequence(s[1..], p);
      if p(s[0]) {
        assert Filter(s, p)[1..] == Filter(s[1..], p);
      } else {
        assert Filter(s, p) == Filter(s[1..], p);
      }
    }
  }

  /** An element is in a filter result exactly when it is in the input and satisfies the predicate. */
  lemma {:induction false} FilterMembership<T>(s: seq<T>, p: T -> bool, x: T)
    ensures x in Filter(s, p) <==> x in s && p(x)
  {
    if s != [] {
      FilterMembership(s[1..], p, x);
      assert s == [s[0]] + s[1..];
    }
  }

  /** Filtering with a predicate that holds of every element keeps the whole input. */
  lemma {:induction false} FilterKeepsAll<T>(s: seq<T>, p: T -> bool)
    requires forall k :: 0 <= k < |s| ==> p(s[k])
    ensures Filter(s, p) == s
  {
    if s != [] {
      FilterKeepsAll(s[1..], p);
      assert s == [s[0]] + s[1..];
    }
  }

  /** Filtering twice is filtering once by the conjunction. */
  lemma {:induction false} FilterTwice<T>(s: seq<T>, p: T -> bool, q: T -> bool)
    ensures Filter(Filter(s, p), q) == Filter(s, x => p(x) && q(x))
  {
    if s != [] {
      FilterTwice(s[1..], p, q);
      FilterAppend(if p(s[0]) then [s[0]] else [], Filter(s[1..], p), q);
    }
  }

  /** Filtering distributes over concatenation. */
  lemma {:induction false} FilterAppend<T>(s: seq<T>, t: seq<T>, p: T -> bool)
    ensures Filter(s + t, p) == Filter(s, p) + Filter(t, p)
  {
    if s != [] {
      FilterAppend(s[1..], t, p);
      assert (s + t)[1..] == s[1..] + t;
    } else {
      assert s + t == t;
    }
  }

  /** A second pass by `q` over a pass by `p` is one pass by the conjunction `r`. */
  lemma FilterNarrow<T>(s: seq<T>, p: T -> bool, q: T -> bool, r: T -> bool)
    requires forall k :: 0 <= k < |s| ==> (r(s[k]) <==> p(s[k]) && q(s[k]))
    ensures Filter(Filter(s, p), q) == Filter(s, r)
  {
    FilterTwice(s, p, q);
    FilterCongruent(s, x => p(x) && q(x), r);
  }

  /**
   * A chain of conditional filter passes, as in `let filtered = [...xs];
   * if (c1) filtered = filtered.filter(t1); ...`: pass `j` (from 1) runs
   * when `runs[j - 1]` and keeps the elements satisfying `tests[j - 1]`.
   * An element survives passes 1..k when each pass that runs keeps it.
   */
  predicate SurvivesPasses<T>(x: T, runs: seq<bool>, tests: seq<T -> bool>, k: nat)
    requires k <= |runs| && k <= |tests|
    decreases k
  {
    k == 0 || (SurvivesPasses(x, runs, tests, k - 1) && (runs[k - 1] ==> tests[k - 1](x)))
  }

  function Survivors<T>(runs: seq<bool>, tests: seq<T -> bool>, k: nat): T -> bool
    requires k <= |runs| && k <= |tests|
  {
    x => SurvivesPasses(x, runs, tests, k)
  }

  /** Running pass `k` (or skipping it) turns the survivors of `k - 1` passes into those of `k`. */
  lemma PassStep<T>(s: seq<T>, runs: seq<bool>, tests: seq<T -> bool>, k: nat)
    requires 1 <= k <= |runs| && k <= |tests|
    ensures runs[k - 1] ==> Filter(Filter(s, Survivors(runs, tests, k - 1)), tests[k - 1]) == Filter(s, Survivors(runs, tests, k))
    ensures !runs[k - 1] ==> Filter(s, Survivors(runs, tests, k - 1)) == Filter(s, Survivors(runs, tests, k))
  {
    if runs[k - 1] {
      FilterNarrow(s, Survivors(runs, tests, k - 1), tests[k - 1], Survivors(runs, tests, k));
    } else {
      FilterCongruent(s, Survivors(runs, tests, k - 1), Survivors(runs, tests, k));
    }
  }

  /** Before any pass the list is the whole input. */
  lemma NoPassesKeepAll<T>(s: seq<T>, runs: seq<bool>, tests: seq<T -> bool>)
    ensures Filter(s, Survivors(runs, tests, 0)) == s
  {
    FilterKeepsAll(s, Survivors(runs, tests, 0));
  }

  /** Two predicates that agree on every element of `s` filter it the same way. */
  lemma {:induction false} FilterCongruent<T>(s: seq<T>, p: T -> bool, q: T -> bool)
    requires forall k :: 0 <= k < |s| ==> (p(s[k]) <==> q(s[k]))
    ensures Filter(s, p) == Filter(s, q)
  {
    if s != [] {
      FilterCongruent(s[1..], p, q);
    }
  }

  /** A weaker predicate keeps a superset: the stronger result is a subsequence of the weaker one. */
  lemma {:induction false} FilterMonotone<T>(s: seq<T>, p: T -> bool, q: T -> bool)
    requires forall k :: 0 <= k < |s| ==> p(s[k]) ==> q(s[k])
    ensures IsSubsequence(Filter(s, p), Filter(s, q))
  {
    if s != [] {
      FilterMonotone(s[1..], p, q);
      var fp, fq := Filter(s[1..], p), Filter(s[1..], q);
      if p(s[0]) {
        assert Filter(s, p) == [s[0]] + fp;
        assert Filter(s, q) == [s[0]] + fq;
        assert Filter(s, p)[1..] == fp;
        assert Filter(s, q)[1..] == fq;
      } else if q(s[0]) {
        assert Filter(s, p) == fp;
        assert Filter(s, q) == [s[0]] + fq;
        assert Filter(s, q)[1..] == fq;
      } else {
        assert Filter(s, p) == fp;
        assert Filter(s, q) == fq;
      }
    } else {
      assert Filter(s, p) == [];
    }
  }

  /** `s.filter(p).length`. */
  function Count<T>(s: seq<T>, p: T -> bool): nat {
    |Filter(s, p)|
  }

  /** `s.reduce((sum, x) => sum + f(x), 0)`: a left fold, so the last element is added last. */
  function SumOf<T>(s: seq<T>, f: T -> int): int
    decreases |s|
  {
    if s == [] then 0 else SumOf(s[..|s| - 1], f) + f(s[|s| - 1])
  }

  /** The sum of a concatenation is the sum of the parts. */
  lemma {:induction false} SumOfAppend<T>(s: seq<T>, t: seq<T>, f: T -> int)
    ensures SumOf(s + t, f) == SumOf(s, f) + SumOf(t, f)
    decreases |t|
  {
    if t == [] {
      assert s + t == s;
    } else {
      var u := t[..|t| - 1];
      assert (s + t)[..|s + t| - 1] == s + u;
      SumOfAppend(s, u, f);
    }
  }

  /** Summing non-negative terms gives a non-negative total. */
  lemma {:induction false} SumOfNonNegative<T>(s: seq<T>, f: T -> int)
    requires forall k :: 0 <= k < |s| ==> f(s[k]) >= 0
    ensures SumOf(s, f) >= 0
    decreases |s|
  {
    if s != [] {
      SumOfNonNegative(s[..|s| - 1], f);
    }
  }

  /** `s.map((item, i) => i === index ? value : item)`. */
  function SetAt<T>(s: seq<T>, index: int, value: T): (r: seq<T>)
    ensures |r| == |s|
    ensures 0 <= index < |s| ==> r[index] == value
    ensures forall k :: 0 <= k < |s| && k != index ==> r[k] == s[k]
  {
    seq(|s|, k requires 0 <= k < |s| => if k == index then value else s[k])
  }

  /** `s.filter((_, i) => i !== index)`, walked position by position from `from`. */
  function DropIndexFrom<T>(s: seq<T>, index: int, from: int): (r: seq<T>)
    ensures from <= index < from + |s| ==> r == s[..index - from] + s[index - from + 1..]
    ensures !(from <= index < from + |s|) ==> r == s
    decreases |s|
  {
    if s == [] then []
    else (if from == index then [] else [s[0]]) + DropIndexFrom(s[1..], index, from + 1)
  }

  /** `s.filter((_, i) => i !== index)`. */
  function RemoveAt<T>(s: seq<T>, index: int): seq<T> {
    DropIndexFrom(s, index, 0)
  }

  /** The list `s` holds no element twice. */
  ghost predicate NoDuplicates<T>(s: seq<T>) {
    forall i, j :: 0 <= i < j < |s| ==> s[i] != s[j]
  }

  /** `s.includes(x) ? s.filter(m => m !== x) : [...s, x]`. */
  function Toggle<T(==)>(s: seq<T>, x: T): seq<T> {
    if x in s then Filter(s, m => m != x) else s + [x]
  }

  /** Toggling flips the membership of `x`. */
  lemma ToggleFlips<T>(s: seq<T>, x: T)
    ensures x in Toggle(s, x) <==> x !in s
  {
    FilterMembership(s, m => m != x, x);
  }

  /** Toggling `x` leaves the membership of every other element as it was. */
  lemma ToggleKeepsOthers<T>(s: seq<T>, x: T, y: T)
    requires y != x
    ensures y in Toggle(s, x) <==> y in s
  {
    FilterMembership(s, m => m != x, y);
  }

  /** Toggling the same element twice restores the set of members. */
  lemma ToggleTwice<T>(s: seq<T>, x: T, y: T)
    ensures y in Toggle(Toggle(s, x), x) <==> y in s
  {
    ToggleFlips(s, x);
    ToggleFlips(Toggle(s, x), x);
    if y != x {
      ToggleKeepsOthers(s, x, y);
      ToggleKeepsOthers(Toggle(s, x), x, y);
    }
  }

  /** A filter of a duplicate-free list is duplicate-free. */
  lemma {:induction false} FilterNoDuplicates<T>(s: seq<T>, p: T -> bool)
    requires NoDuplicates(s)
    ensures NoDuplicates(Filter(s, p))
  {
    if s != [] {
      assert NoDuplicates(s[1..]) by {
        forall i, j | 0 <= i < j < |s[1..]| ensures s[1..][i] != s[1..][j] {
          assert s[1..][i] == s[i + 1] && s[1..][j] == s[j + 1];
        }
      }
      FilterNoDuplicates(s[1..], p);
      var rest := Filter(s[1..], p);
      if p(s[0]) {
        forall k | 0 <= k < |rest| ensures rest[k] != s[0] {
          assert rest[k] in rest;
          FilterMembership(s[1..], p, rest[k]);
          var j :| 0 <= j < |s[1..]| && s[1..][j] == rest[k];
          assert s[j + 1] == rest[k];
        }
        var r := Filter(s, p);
        assert r == [s[0]] + rest;
        forall i, j | 0 <= i < j < |r| ensures r[i] != r[j] {
          if i == 0 {
            assert r[j] == rest[j - 1];
          } else {
            assert r[i] == rest[i - 1] && r[j] == rest[j - 1];
          }
        }
      }
    }
  }

  /** Toggling keeps a duplicate-free list duplicate-free. */
  lemma ToggleNoDuplicates<T>(s: seq<T>, x: T)
    requires NoDuplicates(s)
    ensures NoDuplicates(Toggle(s, x))
  {
    if x in s {
      FilterNoDuplicates(s, m => m != x);
    } else {
      var r := s + [x];
      forall i, j | 0 <= i < j < |r| ensures r[i] != r[j] {
        if j == |s| {
          assert r[i] == s[i];
        }
      }
    }
  }
}
