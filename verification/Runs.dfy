/**
 Runs of consecutive block indices, and the maximal runs of a set of indices
 below a bound. Holes in a SACK, the have-runs of `accept` and the resume record
 are all prefixes of `RunsFrom`.
 */
module Runs {

  /** The indices start, start + 1, ..., start + length - 1. */
  datatype Run = Run(start: nat, length: nat)

  function Min(a: nat, b: nat): nat {
    if a <= b then a else b
  }

  function Max(a: nat, b: nat): nat {
    if a <= b then b else a
  }

  /** Every index below `n`. */
  function AllBelow(n: nat): (s: set<nat>)
    ensures forall k: nat :: k in s <==> k < n
    ensures |s| == n
  {
    if n == 0 then {} else AllBelow(n - 1) + {n - 1}
  }

  /** Subsets of the indices below `n` are full exactly when they have `n` members. */
  lemma FullIffSize(s: set<nat>, n: nat)
    requires s <= AllBelow(n)
    ensures |s| <= n
    ensures |s| == n <==> s == AllBelow(n)
  {
    SubsetSize(s, AllBelow(n));
  }

  lemma SubsetSize<T>(a: set<T>, b: set<T>)
    requires a <= b
    ensures |a| <= |b|
    ensures |a| == |b| ==> a == b
  {
    assert b == a + (b - a);
    assert |b| == |a| + |b - a|;
  }

  predicate InRun(r: Run, k: nat) {
    r.start <= k < r.start + r.length
  }

  /** `k` is covered by one of the runs. */
  predicate InRuns(runs: seq<Run>, k: nat) {
    runs != [] && (InRun(runs[0], k) || InRuns(runs[1..], k))
  }

  /** The indices below `n` that a list of runs covers. */
  function Marked(runs: seq<Run>, n: nat): set<nat> {
    set k | k in AllBelow(n) && InRuns(runs, k)
  }

  lemma {:induction false} InRunsConcat(a: seq<Run>, b: seq<Run>, k: nat)
    ensures InRuns(a + b, k) <==> InRuns(a, k) || InRuns(b, k)
  {
    if a == [] {
      assert a + b == b;
    } else {
      InRunsConcat(a[1..], b, k);
      assert (a + b)[1..] == a[1..] + b;
    }
  }

  /** The end of the stretch of members of `s` that begins at `i`. */
  function RunEnd(s: set<nat>, n: nat, i: nat): (e: nat)
    requires i <= n
    ensures i <= e <= n
    ensures forall k: nat | i <= k < e :: k in s
    ensures e == n || e !in s
    decreases n - i
  {
    if i < n && i in s then RunEnd(s, n, i + 1) else i
  }

  /** The maximal runs of members of `s` in [i, n), in ascending order. */
  function RunsFrom(s: set<nat>, n: nat, i: nat): seq<Run>
    decreases n - i
  {
    if i >= n then []
    else if i !in s then RunsFrom(s, n, i + 1)
    else
      var e := RunEnd(s, n, i);
      [Run(i, e - i)] + RunsFrom(s, n, e)
  }

  function FirstRuns(s: set<nat>, n: nat, i: nat, maxRuns: nat): seq<Run> {
    Take(RunsFrom(s, n, i), maxRuns)
  }

  function Take<T>(xs: seq<T>, k: nat): seq<T> {
    if |xs| <= k then xs else xs[..k]
  }

  /** Indices that are not members do not change the runs after them. */
  lemma {:induction false} SkipNonMembers(s: set<nat>, n: nat, i: nat, j: nat)
    requires i <= j
    requires forall k: nat | i <= k < j && k < n :: k !in s
    ensures RunsFrom(s, n, i) == RunsFrom(s, n, j)
    decreases j - i
  {
    if i < j && i < n {
      SkipNonMembers(s, n, i + 1, j);
    }
  }

  lemma RunEndAt(s: set<nat>, n: nat, i: nat, e: nat)
    requires i <= e <= n
    requires forall k: nat | i <= k < e :: k in s
    requires e == n || e !in s
    ensures RunEnd(s, n, i) == e
  {
    var r := RunEnd(s, n, i);
    assert r < e ==> r in s;
    assert e < r ==> e in s;
  }

  /** A left-to-right scan of [from, n) that has reached `i` and collected `out`. */
  ghost predicate Scanned(s: set<nat>, n: nat, from: nat, i: nat, out: seq<Run>) {
    RunsFrom(s, n, from) == out + RunsFrom(s, n, i)
  }

  lemma ScanSkip(s: set<nat>, n: nat, from: nat, i: nat, j: nat, out: seq<Run>)
    requires Scanned(s, n, from, i, out) && i <= j <= n
    requires forall k: nat | i <= k < j :: k !in s
    ensures Scanned(s, n, from, j, out)
  {
    SkipNonMembers(s, n, i, j);
  }

  lemma ScanRun(s: set<nat>, n: nat, from: nat, i: nat, e: nat, out: seq<Run>)
    requires Scanned(s, n, from, i, out) && i < e <= n
    requires forall k: nat | i <= k < e :: k in s
    requires e == n || e !in s
    ensures Scanned(s, n, from, e, out + [Run(i, e - i)])
  {
    RunEndAt(s, n, i, e);
    assert out + ([Run(i, e - i)] + RunsFrom(s, n, e)) == out + [Run(i, e - i)] + RunsFrom(s, n, e);
  }

  lemma ScanDone(s: set<nat>, n: nat, from: nat, i: nat, out: seq<Run>, maxRuns: nat)
    requires Scanned(s, n, from, i, out)
    requires |out| == maxRuns || (i >= n && |out| <= maxRuns)
    ensures out == FirstRuns(s, n, from, maxRuns)
  {}

  /**
   What a list of maximal runs is, without reference to a scan: each run is
   non-empty, lies inside [lo, hi), and leaves a gap before the next one.
   */
  ghost predicate Separated(runs: seq<Run>, lo: nat, hi: nat) {
    runs == [] ||
    var e := runs[0].start + runs[0].length;
    0 < runs[0].length && lo <= runs[0].start && e <= hi && Separated(runs[1..], e + 1, hi)
  }

  /** `RunsFrom` is separated and covers exactly the members of `s` in [i, n). */
  lemma {:induction false} RunsFromExact(s: set<nat>, n: nat, i: nat)
    ensures Separated(RunsFrom(s, n, i), i, n)
    ensures forall k: nat :: InRuns(RunsFrom(s, n, i), k) <==> i <= k < n && k in s
    decreases n - i
  {
    if i < n {
      if i !in s {
        RunsFromExact(s, n, i + 1);
      } else {
        var e := RunEnd(s, n, i);
        SkipNonMembers(s, n, e, e + 1);
        RunsFromExact(s, n, e + 1);
        assert RunsFrom(s, n, i)[1..] == RunsFrom(s, n, e + 1);
      }
    }
  }

  /** A separated list covers nothing below its lower bound. */
  lemma {:induction false} SeparatedBound(runs: seq<Run>, lo: nat, hi: nat, k: nat)
    requires Separated(runs, lo, hi) && k < lo
    ensures !InRuns(runs, k)
  {
    if runs != [] {
      SeparatedBound(runs[1..], runs[0].start + runs[0].length + 1, hi, k);
    }
  }

  /** Those two facts determine the list: any such list is `RunsFrom`. */
  lemma {:induction false} SeparatedUnique(s: set<nat>, n: nat, i: nat, runs: seq<Run>)
    requires Separated(runs, i, n)
    requires forall k: nat :: InRuns(runs, k) <==> i <= k < n && k in s
    ensures runs == RunsFrom(s, n, i)
    decreases |runs|
  {
    if runs == [] {
      SkipNonMembers(s, n, i, Max(i, n));
    } else {
      var first, rest := runs[0], runs[1..];
      var e := first.start + first.length;
      forall k: nat | k <= e ensures !InRuns(rest, k) {
        SeparatedBound(rest, e + 1, n, k);
      }
      assert forall k: nat :: InRuns(runs, k) <==> InRun(first, k) || InRuns(rest, k);
      SkipNonMembers(s, n, i, first.start);
      RunEndAt(s, n, first.start, e);
      SkipNonMembers(s, n, e, e + 1);
      SeparatedUnique(s, n, e + 1, rest);
    }
  }

  /** A prefix of the runs marks a subset; the full list marks everything. */
  lemma FirstRunsMarked(s: set<nat>, n: nat, maxRuns: nat)
    requires s <= AllBelow(n)
    ensures Marked(FirstRuns(s, n, 0, maxRuns), n) <= s
    ensures |RunsFrom(s, n, 0)| <= maxRuns ==> Marked(FirstRuns(s, n, 0, maxRuns), n) == s
  {
    RunsFromExact(s, n, 0);
    var all := RunsFrom(s, n, 0);
    forall k: nat ensures InRuns(Take(all, maxRuns), k) ==> InRuns(all, k) {
      InRunsTake(all, maxRuns, k);
    }
  }

  lemma InRunsTake(runs: seq<Run>, m: nat, k: nat)
    ensures InRuns(Take(runs, m), k) ==> InRuns(runs, k)
  {
    if m < |runs| {
      InRunsConcat(runs[..m], runs[m..], k);
      assert runs[..m] + runs[m..] == runs;
    }
  }
}
