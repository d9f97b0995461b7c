/**
 Selective acknowledgements: what the receiver reports about a file and what the
 sender resends because of it.
 */
module Sacks {
  import opened Runs
  import opened BlockBitmaps

  /** The hole runs that fit one datagram. */
  const MAX_RUNS: nat := 140

  datatype Sack = Sack(ackBase: nat, frontier: nat, count: nat, complete: bool, holes: seq<Run>)

  /** The runs without those that start at or beyond `frontier`. */
  function DropBeyond(runs: seq<Run>, frontier: nat): seq<Run> {
    if runs == [] || runs[|runs| - 1].start < frontier then runs
    else DropBeyond(runs[..|runs| - 1], frontier)
  }

  /** The last run cut off at `frontier`. */
  function CutLast(runs: seq<Run>, frontier: nat): seq<Run> {
    if runs == [] then []
    else
      var last := runs[|runs| - 1];
      if last.start + last.length > frontier >= last.start
      then runs[..|runs| - 1] + [Run(last.start, frontier - last.start)]
      else runs
  }

  /** The SACK for the received set `have` of `n` blocks. */
  function MakeSack(have: set<nat>, n: nat, frontier: nat): Sack {
    var ackBase := RunEnd(have, n, 0);
    var top := Max(frontier, ackBase);
    var complete := |have| == n;
    var holes := if complete then [] else FirstRuns(AllBelow(n) - have, n, ackBase, MAX_RUNS);
    Sack(ackBase, top, |have|, complete, CutLast(DropBeyond(holes, top), top))
  }

  method SendSack(bitmap: BlockBitmap, frontier: nat) returns (s: Sack)
    requires bitmap.Valid() && bitmap.size <= MAX_SCANNED
    modifies bitmap`ackBase
    ensures bitmap.Valid()
    ensures s == MakeSack(bitmap.have, bitmap.size, frontier)
  {
    hide Packed, FirstRuns, CutLast, DropBeyond, AllBelow, RunEnd;
    var ackBase := bitmap.AckBase();
    RunEndAt(bitmap.have, bitmap.size, 0, ackBase);
    var top := Max(frontier, ackBase);
    var complete := bitmap.count == bitmap.size;
    var holes := [];
    if !complete {
      holes := bitmap.Holes(ackBase, MAX_RUNS);
    }
    holes := ClipHoles(holes, top);
    s := Sack(ackBase, top, bitmap.count, complete, holes);
  }

  /** The holes that a SACK with frontier `top` lists. */
  method ClipHoles(all: seq<Run>, top: nat) returns (holes: seq<Run>)
    ensures holes == CutLast(DropBeyond(all, top), top)
  {
    holes := all;
    while holes != [] && holes[|holes| - 1].start >= top
      invariant DropBeyond(holes, top) == DropBeyond(all, top)
      decreases |holes|
    {
      holes := holes[..|holes| - 1];
    }
    if holes != [] {
      var last := holes[|holes| - 1];
      if last.start + last.length > top {
        holes := holes[|holes| - 1 := Run(last.start, top - last.start)];
      }
    }
  }

  /** A separated list ends before its upper bound. */
  lemma {:induction false} SeparatedUpper(runs: seq<Run>, lo: nat, hi: nat, k: nat)
    requires Separated(runs, lo, hi) && InRuns(runs, k)
    ensures lo <= k < hi
  {
    if !InRun(runs[0], k) {
      SeparatedUpper(runs[1..], runs[0].start + runs[0].length + 1, hi, k);
    }
  }

  /** Everything before the last run lies below its start. */
  lemma {:induction false} SeparatedInit(runs: seq<Run>, lo: nat, hi: nat)
    requires runs != [] && Separated(runs, lo, hi)
    ensures var m := |runs| - 1;
            && Separated(runs[..m], lo, runs[m].start)
            && 0 < runs[m].length && lo <= runs[m].start && runs[m].start + runs[m].length <= hi
  {
    var m := |runs| - 1;
    if m > 0 {
      SeparatedInit(runs[1..], runs[0].start + runs[0].length + 1, hi);
      assert runs[..m][1..] == runs[1..][..m - 1];
    }
  }

  lemma InRunsLast(runs: seq<Run>, k: nat)
    requires runs != []
    ensures InRuns(runs, k) <==> InRuns(runs[..|runs| - 1], k) || InRun(runs[|runs| - 1], k)
  {
    var m := |runs| - 1;
    assert runs == runs[..m] + [runs[m]];
    InRunsConcat(runs[..m], [runs[m]], k);
  }

  /** Dropping and cutting keep exactly the indices below the frontier. */
  lemma {:induction false} ClippedCovers(runs: seq<Run>, lo: nat, hi: nat, frontier: nat, k: nat)
    requires Separated(runs, lo, hi)
    ensures InRuns(CutLast(DropBeyond(runs, frontier), frontier), k) <==> InRuns(runs, k) && k < frontier
    decreases |runs|
  {
    if runs != [] {
      var m := |runs| - 1;
      SeparatedInit(runs, lo, hi);
      InRunsLast(runs, k);
      if runs[m].start >= frontier {
        SeparatedRaise(runs[..m], lo, runs[m].start, hi);
        ClippedCovers(runs[..m], lo, hi, frontier, k);
      } else {
        var cut := CutLast(runs, frontier);
        InRunsLast(cut, k);
        if InRuns(runs[..m], k) { SeparatedUpper(runs[..m], lo, runs[m].start, k); }
      }
    }
  }

  lemma {:induction false} SeparatedRaise(runs: seq<Run>, lo: nat, mid: nat, hi: nat)
    requires Separated(runs, lo, mid) && mid <= hi
    ensures Separated(runs, lo, hi)
  {
    if runs != [] { SeparatedRaise(runs[1..], runs[0].start + runs[0].length + 1, mid, hi); }
  }

  /** No run of a SACK is empty, and at most `MAX_RUNS` are sent. */
  lemma {:induction false} ClippedNonEmpty(runs: seq<Run>, lo: nat, hi: nat, frontier: nat)
    requires Separated(runs, lo, hi)
    ensures var c := CutLast(DropBeyond(runs, frontier), frontier);
            |c| <= |runs| && forall r | r in c :: 0 < r.length && r.start + r.length <= hi
    decreases |runs|
  {
    if runs != [] {
      var m := |runs| - 1;
      SeparatedInit(runs, lo, hi);
      if runs[m].start >= frontier {
        SeparatedRaise(runs[..m], lo, runs[m].start, hi);
        ClippedNonEmpty(runs[..m], lo, hi, frontier);
      } else {
        SeparatedLengths(runs, lo, hi);
      }
    }
  }

  lemma {:induction false} SeparatedLengths(runs: seq<Run>, lo: nat, hi: nat)
    requires Separated(runs, lo, hi)
    ensures forall r | r in runs :: 0 < r.length && r.start + r.length <= hi
  {
    if runs != [] {
      SeparatedLengths(runs[1..], runs[0].start + runs[0].length + 1, hi);
      assert runs == [runs[0]] + runs[1..];
    }
  }

  lemma {:induction false} SeparatedTake(runs: seq<Run>, lo: nat, hi: nat, m: nat)
    requires Separated(runs, lo, hi)
    ensures Separated(Take(runs, m), lo, hi)
    decreases |runs|
  {
    if m < |runs| && 0 < m {
      SeparatedTake(runs[1..], runs[0].start + runs[0].length + 1, hi, m - 1);
      assert Take(runs, m)[1..] == Take(runs[1..], m - 1);
    }
  }

  /** What a SACK the receiver builds looks like on the wire. */
  lemma SackRunsValid(have: set<nat>, n: nat, frontier: nat)
    ensures var s := MakeSack(have, n, frontier);
            |s.holes| <= MAX_RUNS && forall r | r in s.holes :: 0 < r.length && r.start + r.length <= n
  {
    var a := RunEnd(have, n, 0);
    var missing := AllBelow(n) - have;
    RunsFromExact(missing, n, a);
    SeparatedTake(RunsFrom(missing, n, a), a, n, MAX_RUNS);
    ClippedNonEmpty(FirstRuns(missing, n, a, MAX_RUNS), a, n, Max(frontier, a));
  }

  /** The missing blocks form few enough runs to be reported all at once. */
  predicate FewHoles(have: set<nat>, n: nat) {
    |RunsFrom(AllBelow(n) - have, n, RunEnd(have, n, 0))| <= MAX_RUNS
  }

  /** The holes of a SACK, as a set. */
  lemma SackHoles(have: set<nat>, n: nat, frontier: nat, k: nat)
    requires have <= AllBelow(n) && |have| < n
    ensures var s := MakeSack(have, n, frontier);
            && (InRuns(s.holes, k) ==> s.ackBase <= k < s.frontier && k < n && k !in have)
            && (FewHoles(have, n) && s.ackBase <= k < Min(s.frontier, n) && k !in have ==> InRuns(s.holes, k))
            && (s.ackBase == k && k < s.frontier && k < n ==> InRuns(s.holes, k))
  {
    var a := RunEnd(have, n, 0);
    var missing := AllBelow(n) - have;
    var all, some := RunsFrom(missing, n, a), FirstRuns(missing, n, a, MAX_RUNS);
    RunsFromExact(missing, n, a);
    SeparatedTake(all, a, n, MAX_RUNS);
    InRunsTake(all, MAX_RUNS, k);
    ClippedCovers(some, a, n, Max(frontier, a), k);
    FirstRunKept(missing, n, a);
  }

  /**
   The counts of a SACK: the first missing block, the number received and whether that is
   all; the frontier is the receiver's own, or the first missing block if that is higher.
   */
  lemma SackCounts(have: set<nat>, n: nat, frontier: nat)
    requires have <= AllBelow(n)
    ensures var s := MakeSack(have, n, frontier);
            && s.ackBase <= n && (forall k: nat | k < s.ackBase :: k in have) && (s.ackBase < n ==> s.ackBase !in have)
            && s.count == |have| && (s.complete <==> have == AllBelow(n)) && (s.complete ==> s.holes == [])
            && s.frontier == Max(frontier, s.ackBase)
  {
    FullIffSize(have, n);
  }

  /** Every hole of a SACK lies below a received block. */
  lemma HolesBelowHeld(have: set<nat>, n: nat, frontier: nat, k: nat)
    requires have <= AllBelow(n) && |have| < n && FrontierHeld(have, frontier)
    requires InRuns(MakeSack(have, n, frontier).holes, k)
    ensures exists held: nat :: held in have && k < held
  {
    SackHoles(have, n, frontier, k);
    assert frontier - 1 in have && k !in have;
  }

  lemma FirstRunKept(missing: set<nat>, n: nat, a: nat)
    ensures a < n && a in missing ==> InRuns(FirstRuns(missing, n, a, MAX_RUNS), a)
  {}

  /**
   The blocks `RepairFile` considers for the latest SACK: its holes and, once the
   file is swept, everything from the frontier on, without the blocks the receiver
   reported in `accept`.
   */
  predicate Candidate(s: Sack, swept: bool, n: nat, skip: set<nat>, k: nat) {
    && !s.complete
    && k < n && k !in skip
    && (InRuns(s.holes, k) || (swept && Max(s.frontier, s.ackBase) <= k))
  }

  /** A frontier that has been moved lies right after a received block. */
  predicate FrontierHeld(have: set<nat>, frontier: nat) {
    frontier == 0 || frontier - 1 in have
  }

  /** The received set a SACK is made from: resumed blocks, and others only below the frontier. */
  ghost predicate Received(have: set<nat>, resumed: set<nat>, n: nat, frontier: nat) {
    && have <= AllBelow(n)
    && FrontierHeld(have, frontier)
    && resumed <= have
    && forall k | k in have :: k < frontier || k in resumed
  }

  /** Repair is never stuck: the lowest missing block of an incomplete file is resent. */
  lemma LowestMissingIsCandidate(have: set<nat>, resumed: set<nat>, n: nat, frontier: nat, skip: set<nat>)
    requires Received(have, resumed, n, frontier) && |have| < n && skip <= resumed
    ensures var a := RunEnd(have, n, 0);
            && a < n && a !in have
            && Candidate(MakeSack(have, n, frontier), true, n, skip, a)
  {
    FullIffSize(have, n);
    var a := RunEnd(have, n, 0);
    assert a == n ==> AllBelow(n) <= have;
    SackHoles(have, n, frontier, a);
  }

  /** Repair is exact: no received block is resent and, with few holes, every missing one is. */
  lemma CandidatesAreMissing(have: set<nat>, resumed: set<nat>, n: nat, frontier: nat, k: nat)
    requires Received(have, resumed, n, frontier) && |have| < n
    ensures Candidate(MakeSack(have, n, frontier), true, n, resumed, k) ==> k !in have
    ensures FewHoles(have, n) ==>
              (Candidate(MakeSack(have, n, frontier), true, n, resumed, k) <==> k < n && k !in have)
  {
    SackHoles(have, n, frontier, k);
  }
}
