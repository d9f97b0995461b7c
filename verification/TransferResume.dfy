/** Stopping a transfer and starting it again from its resume record. */
module TransferResume {
  import opened Wrappers
  import opened Manifest
  import opened Runs
  import opened Receiver
  import opened Sender
  import opened Transfer
  import opened TransferInvariant
  import opened TransferIntegrity

  /** The record `Snapshot` makes of a file. */
  function Snapshot(f: FileRx): Record {
    Record(if f.verified then [] else HaveRuns(f), f.verified)
  }

  /** The file as a new receiver finds it: the part file, or the final file once verified. */
  function Restarted(f: FileRx): FileRx {
    if f.verified then StartRx(f.size, None, Some(f.part), Some(Snapshot(f)))
    else StartRx(f.size, if f.open then Some(f.part) else None, None, Some(Snapshot(f)))
  }

  /** A run beyond the first `m` starts with an index the first `m` do not cover. */
  lemma {:induction false} DroppedRunMissing(runs: seq<Run>, lo: nat, hi: nat, m: nat)
    requires Separated(runs, lo, hi) && m < |runs|
    ensures lo <= runs[m].start && InRuns(runs, runs[m].start) && !InRuns(runs[..m], runs[m].start)
  {
    if m > 0 {
      var rest := runs[1..];
      DroppedRunMissing(rest, runs[0].start + runs[0].length + 1, hi, m - 1);
      assert rest[..m - 1] == runs[..m][1..];
    } else {
      assert InRun(runs[0], runs[0].start);
    }
  }

  /** Truncating the runs loses members exactly when there are too many runs. */
  lemma TruncationExact(s: set<nat>, n: nat, m: nat)
    requires s <= AllBelow(n)
    ensures Marked(FirstRuns(s, n, 0, m), n) == s <==> |RunsFrom(s, n, 0)| <= m
  {
    FirstRunsMarked(s, n, m);
    var all := RunsFrom(s, n, 0);
    if m < |all| {
      RunsFromExact(s, n, 0);
      DroppedRunMissing(all, 0, n, m);
      var k := all[m].start;
      assert InRuns(all, k) && k in s;
      assert k !in Marked(all[..m], n);
    }
  }

  /**
   Resume round trip: a restarted receiver has the same verdict and bytes, never
   claims a block it did not have, and has exactly the same blocks if and only if
   they form at most 2^20 runs. The sender is then told exactly those blocks.
   */
  lemma ResumeRoundTrip(f: FileRx)
    requires Wf(f)
    ensures var g := Restarted(f);
            && g.verified == f.verified && g.size == f.size
            && (f.open || f.verified ==> g.part == f.part)
            && g.have <= f.have
            && (g.have == f.have <==> f.verified || |RunsFrom(f.have, f.Blocks(), 0)| <= MAX_HAVE_RUNS)
  {
    hide BlockCount, HaveRuns, FirstRuns, Marked;
    if f.verified {
      FullIffSize(f.have, f.Blocks());
    } else if f.open {
      RestartedBlocks(f);
      assert Extend(f.part, f.size) == f.part;
    } else {
      EmptyFileRuns(f);
    }
  }

  lemma RestartedBlocks(f: FileRx)
    requires Wf(f) && f.open
    ensures Restarted(f).have == Marked(HaveRuns(f), f.Blocks()) <= f.have
    ensures Restarted(f).have == f.have <==> |RunsFrom(f.have, f.Blocks(), 0)| <= MAX_HAVE_RUNS
  {
    hide FirstRuns, Marked;
    FirstRunsMarked(f.have, f.Blocks(), MAX_HAVE_RUNS);
    TruncationExact(f.have, f.Blocks(), MAX_HAVE_RUNS);
  }

  lemma EmptyFileRuns(f: FileRx)
    requires Wf(f) && !f.verified && !f.open
    ensures f.Blocks() == 0 && f.have == {} && |RunsFrom(f.have, f.Blocks(), 0)| == 0
    ensures Restarted(f).have == {}
  {}

  /** The sender that starts from the receiver's `accept` skips exactly the resumed blocks. */
  lemma AcceptTellsResumed(size: nat, part: Option<seq<Byte>>, final: Option<seq<Byte>>, record: Option<Record>)
    ensures var l := StartLane(size, part, final, record);
            && (l.rx.verified ==> l.tx.ok)
            && (!l.rx.verified ==> l.tx.skip <= l.rx.have)
            && (!l.rx.verified ==>
                  (l.tx.skip == l.rx.have <==> |RunsFrom(l.rx.have, BlockCount(size), 0)| <= MAX_HAVE_RUNS))
  {
    StartRxWf(size, part, final, record);
    var rx := StartRx(size, part, final, record);
    hide StartRx, FirstRuns, Marked, Wf;
    FirstRunsMarked(rx.have, BlockCount(size), MAX_HAVE_RUNS);
    TruncationExact(rx.have, BlockCount(size), MAX_HAVE_RUNS);
  }

  /**
   A record taken at any earlier point of an honest run is true of the part file as a
   later crash leaves it, so the next run starts honest again.
   */
  lemma ResumeStaysTruthful(hash: Hash, source: seq<Byte>, l: Lane, steps: seq<Step>)
    requires Inv(hash, source, l) && AllHonest(source, l) && IsRun(hash, source, l, steps)
    requires !After(hash, source, l, steps).rx.verified
    ensures var m := After(hash, source, l, steps);
            AllHonest(source, StartLane(|source|, Some(m.rx.part), None, Some(Snapshot(l.rx))))
  {
    var m := After(hash, source, l, steps);
    HonestRun(hash, source, l, steps);
    InvWf(hash, source, l);
    SnapshotWithin(l.rx);
    hide IsRun, After, Inv, Wf, Marked, HaveRuns, Honest;
    var g := StartRx(|source|, Some(m.rx.part), None, Some(Snapshot(l.rx)));
    forall k | k in Marked(Snapshot(l.rx).have, BlockCount(|source|))
      ensures Honest(source, g, k)
    {
      SameBytesHonest(source, m.rx, g, k);
    }
    HonestStart(source, Some(m.rx.part), None, Some(Snapshot(l.rx)));
  }

  lemma SnapshotWithin(f: FileRx)
    requires Wf(f)
    ensures Marked(Snapshot(f).have, f.Blocks()) <= f.have
  {
    FirstRunsMarked(f.have, f.Blocks(), MAX_HAVE_RUNS);
  }

  lemma SameBytesHonest(source: seq<Byte>, f: FileRx, g: FileRx, k: nat)
    requires Honest(source, f, k)
    requires g.size == f.size && g.part == f.part
    ensures Honest(source, g, k)
  {}

  // ---- a record that loses blocks ------------------------------------------------------------------

  /** Every other block below `2 * m`. */
  function Evens(m: nat): set<nat> {
    set k | k in AllBelow(2 * m) && k % 2 == 0
  }

  /** From an even index on, each even index is a run of its own. */
  lemma {:induction false} EvenRuns(m: nat, i: nat)
    requires i <= m
    ensures |RunsFrom(Evens(m), 2 * m, 2 * i)| == m - i
    decreases m - i
  {
    hide AllBelow;
    var s, n := Evens(m), 2 * m;
    if i < m {
      assert 2 * i in s && 2 * i + 1 !in s;
      RunEndAt(s, n, 2 * i, 2 * i + 1);
      SkipNonMembers(s, n, 2 * i + 1, 2 * i + 2);
      EvenRuns(m, i + 1);
    }
  }

  /** A receiver of a large file that has every other block. */
  function EveryOther(part: seq<Byte>, m: nat): FileRx {
    FileRx(2 * m * PAYLOAD, part, Evens(m), 2 * m, false, false, false, true, None)
  }

  lemma EveryOtherWf(part: seq<Byte>, m: nat)
    requires m > 0 && |part| == 2 * m * PAYLOAD
    ensures Wf(EveryOther(part, m)) && EveryOther(part, m).Blocks() == 2 * m
  {
    ManyBlocks(2 * m);
    assert 1 in AllBelow(2 * m) && 1 !in Evens(m);
  }

  lemma ManyBlocks(n: nat)
    ensures BlockCount(n * PAYLOAD) == n
  {}

  /** With 2^20 + 1 runs the restarted receiver has lost blocks. */
  lemma RecordLosesBlocks(part: seq<Byte>)
    requires |part| == 2 * (MAX_HAVE_RUNS + 1) * PAYLOAD
    ensures var f := EveryOther(part, MAX_HAVE_RUNS + 1);
            Wf(f) && Restarted(f).have < f.have
  {
    hide Restarted, Evens, Wf, RunsFrom;
    var m := MAX_HAVE_RUNS + 1;
    EveryOtherWf(part, m);
    EvenRuns(m, 0);
    ResumeRoundTrip(EveryOther(part, m));
  }

  // ---- the list of verified files in `accept` ---------------------------------------------------------

  /** Indices in ascending order. */
  ghost predicate Ascending(xs: seq<nat>) {
    forall a, b | 0 <= a < b < |xs| :: xs[a] < xs[b]
  }

  /** The files that `accept` lists as verified: each once. */
  method VerifiedFiles(files: seq<FileRx>) returns (out: seq<nat>)
    ensures Ascending(out)
    ensures forall i: nat :: i in out <==> i < |files| && files[i].verified
  {
    out := [];
    for i := 0 to |files|
      invariant Ascending(out) && forall a | 0 <= a < |out| :: out[a] < i
      invariant forall j: nat :: j in out <==> j < i && files[j].verified
    {
      if files[i].verified { out := out + [i]; }
    }
  }

  /** So the credit the sender takes from it is right. */
  lemma ListIsCredited(tx: seq<FileTx>, verified: seq<nat>)
    requires Ascending(verified)
    ensures ListedOnce(tx, verified) && Listed(tx, verified) == SumSizes(tx, Flags(|tx|, verified))
  {
    ListedExact(tx, verified);
  }
}
