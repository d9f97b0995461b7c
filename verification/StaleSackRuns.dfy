/**
 Runs that reach a state in which a stale SACK is fatal: once with a SACK of a complete
 file, once with a SACK that still reports a hole.
 */
module StaleSackRuns {
  import opened Wrappers
  import opened Manifest
  import opened Runs
  import opened Receiver
  import opened Sacks
  import opened Transfer
  import opened TransferInvariant
  import opened TransferIntegrity
  import opened TransferProgress
  import opened StaleSack

  /** `p` arrives late at the end of the run and, with everything else lost, is fatal. */
  ghost predicate Fatal(hash: Hash, source: seq<Byte>, start: Lane, steps: seq<Step>, p: Packet) {
    && IsRun(hash, source, start, steps)
    && var l := After(hash, source, start, steps);
       p in l.sacks && p.epoch < l.txEpoch && !CanVerify(hash, source, Blackout(TakePacket(l, p)))
  }

  // ---- a file of three blocks of which the first was wrongly resumed ------------------------

  const SIZE: nat := 2 * PAYLOAD + 1

  const RECORD := Record([Run(0, 1)], false)

  ghost predicate Example(source: seq<Byte>, part: seq<Byte>) {
    |source| == |part| == SIZE && BlockOf(part, SIZE, 0) != BlockOf(source, SIZE, 0)
  }

  lemma ThreeBlocks()
    ensures BlockCount(SIZE) == 3 && AllBelow(3) == {0, 1, 2}
  {}

  /** Where the run is, while the receiver still relies on the record. */
  ghost predicate At(hash: Hash, source: seq<Byte>, l: Lane, pos: nat, swept: bool, have: set<nat>, dirty: bool) {
    && Going(hash, source, l) && |source| == SIZE
    && l.rx.have == have && l.rx.dirty == dirty && !l.rx.verified
    && l.tx.pos == pos && l.tx.swept == swept && !l.tx.ok && l.tx.skip == {0}
    && l.resumed == {0} && l.acks == [] && l.epoch == 0 && l.txEpoch == 0
    && l.done == (if swept then InFlight else NotSent)
    && !Honest(source, l.rx, 0)
  }

  lemma ExampleStart(hash: Hash, source: seq<Byte>, part: seq<Byte>)
    requires Example(source, part)
    ensures At(hash, source, StartLane(SIZE, Some(part), None, Some(RECORD)), 0, false, {0}, false)
  {
    var l := StartLane(SIZE, Some(part), None, Some(RECORD));
    ThreeBlocks();
    var runs := [Run(0, 1)];
    assert forall k: nat :: InRuns(runs, k) <==> k == 0;
    assert Marked(runs, 3) == {0};
    assert RunsFrom({0}, 3, 0) == [Run(0, 1)] + RunsFrom({0}, 3, 1);
    assert RunsFrom({0}, 3, 1) == RunsFrom({0}, 3, 2) == RunsFrom({0}, 3, 3) == [];
    FirstRunsMarked({0}, 3, MAX_HAVE_RUNS);
    StartInv(hash, source, Some(part), None, Some(RECORD));
    StartOneReset(source, Some(part), None, Some(RECORD));
  }

  lemma ExampleSweep(hash: Hash, source: seq<Byte>, l: Lane, pos: nat, have: set<nat>, dirty: bool)
    requires At(hash, source, l, pos, false, have, dirty) && pos < 3
    ensures Wf(l.rx) && Enabled(source, l, SweepBlock) && BlockCount(|source|) == 3
    ensures var m := Apply(hash, source, l, SweepBlock);
            && At(hash, source, m, pos + 1, false, have, dirty) && l.data <= m.data
            && (pos > 0 ==> SourceBlock(source, pos) in m.data)
  {
    ThreeBlocks();
    hide Going, Wf, Honest, SourceBlock, BlockCount;
    GoingStep(hash, source, l, SweepBlock);
  }

  lemma ExampleFinish(hash: Hash, source: seq<Byte>, l: Lane, have: set<nat>, dirty: bool)
    requires At(hash, source, l, 3, false, have, dirty)
    ensures Wf(l.rx) && Enabled(source, l, FinishSweep)
    ensures var m := Apply(hash, source, l, FinishSweep);
            At(hash, source, m, 3, true, have, dirty) && m.sacks == l.sacks
  {
    ThreeBlocks();
    hide Going, Wf, Honest, SourceBlock, BlockCount;
    GoingStep(hash, source, l, FinishSweep);
  }

  /** A further block arrives; the wrong one stays as it is. */
  lemma ExampleBlock(hash: Hash, source: seq<Byte>, l: Lane, pos: nat, have: set<nat>, dirty: bool, k: nat)
    requires At(hash, source, l, pos, false, have, dirty) && 0 < k < 3 && k !in have
    requires BlockCount(|source|) == 3 && SourceBlock(source, k) in l.data
    ensures Wf(l.rx) && Enabled(source, l, DeliverBlock(SourceBlock(source, k)))
    ensures var m := Apply(hash, source, l, DeliverBlock(SourceBlock(source, k)));
            && At(hash, source, m, pos, false, have + {k}, have + {k} != {0, 1, 2})
            && m.data == l.data && l.sacks <= m.sacks
            && (have + {k} == {0, 1, 2} ==> exists q :: q in m.sacks && Reported(q, {0, 1, 2}))
  {
    var b := SourceBlock(source, k);
    ThreeBlocks();
    GoingStep(hash, source, l, DeliverBlock(b));
    ArrivalMarked(hash, source, l, k);
    ArrivalStored(hash, source, l, k);
    NotExpected(hash, source, l);
    hide Inv, Wf, Absorbed, BlockCount, SourceBlock, Honest, MakeSack;
    assert l.acks + [] == l.acks;
    var q := Report(Absorbed(l.rx, b), 0);
    assert have + {k} == {0, 1, 2} ==> Reported(q, {0, 1, 2});
  }

  /** `q` was sent, before the reset, by a receiver that had `have`. */
  ghost predicate Reported(q: Packet, have: set<nat>) {
    q.epoch == 0 && q.had == have && q.sack == MakeSack(have, 3, q.seen)
  }

  lemma NotExpected(hash: Hash, source: seq<Byte>, l: Lane)
    requires Inv(hash, source, l) && l.done != Arrived
    ensures l.rx.expected.None?
  {
    hide Wf, DataInv, AckInv, TxInv, SackInv, Received, Honest;
  }

  lemma ArrivalStored(hash: Hash, source: seq<Byte>, l: Lane, k: nat)
    requires Inv(hash, source, l) && |source| == SIZE && !l.rx.verified && 0 < k < 3 && k !in l.rx.have
    requires BlockCount(|source|) == 3 && AllBelow(3) == {0, 1, 2}
    ensures var g := Absorbed(l.rx, SourceBlock(source, k));
            && (g.dirty <==> l.rx.have + {k} != {0, 1, 2}) && (g.complete <==> !g.dirty) && !l.rx.complete
            && g.size == SIZE && g.expected == l.rx.expected && !g.verified
            && (Honest(source, g, 0) <==> Honest(source, l.rx, 0))
  {
    hide DataInv, AckInv, TxInv, SackInv, Received, Overwrite;
    var b := SourceBlock(source, k);
    var h := Touched(l.rx, b);
    assert Acceptable(l.rx, b);
    TouchedFits(l.rx, b);
    StoredBlock(h, b, 0);
    var have := l.rx.have + {k};
    assert Between(k, k + 1) == {k};
    assert Full(have, 3) <==> have == {0, 1, 2};
  }

  lemma ExampleReport(hash: Hash, source: seq<Byte>, l: Lane, pos: nat, have: set<nat>)
    requires At(hash, source, l, pos, false, have, true)
    ensures Wf(l.rx) && Enabled(source, l, SendSack)
    ensures var m := Apply(hash, source, l, SendSack);
            At(hash, source, m, pos, false, have, false) && m.data == l.data && Report(l.rx, 0) in m.sacks
  {
    hide Going, Wf, BlockCount, MakeSack;
    GoingStep(hash, source, l, SendSack);
  }

  /** The hash does not match: the receiver starts over, and the sender hears of it. */
  lemma ExampleRejected(hash: Hash, source: seq<Byte>, l: Lane)
    requires Injective(hash) && At(hash, source, l, 3, true, {0, 1, 2}, false)
    ensures Wf(l.rx) && Enabled(source, l, DeliverDone)
    ensures var m := Apply(hash, source, l, DeliverDone);
            && Wf(m.rx) && Enabled(source, m, DeliverAck)
            && var k := Apply(hash, source, m, DeliverAck);
               Going(hash, source, k) && k.rx.have == {} && k.txEpoch == 1 && k.sacks == l.sacks
  {
    ThreeBlocks();
    GoingStep(hash, source, l, DeliverDone);
    assert l.rx.complete && l.rx.Blocks() == 3 by { FullIsComplete(l.rx); }
    WrongPart(source, l.rx);
    var m := Apply(hash, source, l, DeliverDone);
    assert m.acks == [FileBad] && m.rx.have == {} && m.txEpoch == 0 && m.sacks == l.sacks;
    hide Going, Wf, Honest, BlockCount;
    GoingStep(hash, source, m, DeliverAck);
  }

  lemma FullIsComplete(f: FileRx)
    requires Wf(f) && f.size == SIZE && f.have == {0, 1, 2}
    ensures f.complete && f.Blocks() == 3
  {
    ThreeBlocks();
  }

  lemma WrongPart(source: seq<Byte>, f: FileRx)
    requires |source| == SIZE == f.size <= |f.part| && !Honest(source, f, 0)
    ensures f.part != source
  {
    ThreeBlocks();
  }

  /**
   Two reports of one run are fatal when they arrive late. With the one of the complete
   file the sender resends nothing; with the one of blocks 0 and 1 it resends block 2
   and ignores every later report, which counts one block only.
   */
  lemma LateSackHappens(hash: Hash, source: seq<Byte>, part: seq<Byte>)
    requires Injective(hash) && Example(source, part)
    ensures var start := StartLane(|source|, Some(part), None, Some(RECORD));
            exists steps: seq<Step>, p: Packet, q: Packet ::
              && !p.sack.complete && Fatal(hash, source, start, steps, p)
              && q.sack.complete && Fatal(hash, source, start, steps, q)
  {
    var start := StartLane(SIZE, Some(part), None, Some(RECORD));
    ExampleStart(hash, source, part);
    hide At, Fatal, StartLane, Wf, Enabled, Apply, Report, RunsTo, SourceBlock, BlockCount, MakeSack;
    var steps, l, p := ExampleReported(hash, source, start);
    var more, m, q := ExampleEnds(hash, source, start, steps, l, p);
    FatalByCount(hash, source, start, more, m, p);
    FatalByCount(hash, source, start, more, m, q);
    assert 2 !in {0, 1};
  }

  lemma ExampleReported(hash: Hash, source: seq<Byte>, l0: Lane) returns (steps: seq<Step>, l: Lane, p: Packet)
    requires At(hash, source, l0, 0, false, {0}, false)
    ensures RunsTo(hash, source, l0, steps, l) && At(hash, source, l, 3, false, {0, 1}, false)
    ensures BlockCount(|source|) == 3 && SourceBlock(source, 2) in l.data
    ensures p in l.sacks && Reported(p, {0, 1}) && p.seen == 2
  {
    hide At, Wf, Enabled, Apply, RunsTo, SourceBlock, BlockCount;
    RunsNowhere(hash, source, l0);
    ExampleSweep(hash, source, l0, 0, {0}, false);
    RunsOn(hash, source, l0, [], l0, SweepBlock);
    var l1 := Apply(hash, source, l0, SweepBlock);
    ExampleSweep(hash, source, l1, 1, {0}, false);
    RunsOn(hash, source, l0, [] + [SweepBlock], l1, SweepBlock);
    var l2 := Apply(hash, source, l1, SweepBlock);
    ExampleSweep(hash, source, l2, 2, {0}, false);
    RunsOn(hash, source, l0, [] + [SweepBlock] + [SweepBlock], l2, SweepBlock);
    var l3 := Apply(hash, source, l2, SweepBlock);
    ExampleBlock(hash, source, l3, 3, {0}, false, 1);
    var b := SourceBlock(source, 1);
    RunsOn(hash, source, l0, [] + [SweepBlock] + [SweepBlock] + [SweepBlock], l3, DeliverBlock(b));
    var l4 := Apply(hash, source, l3, DeliverBlock(b));
    assert {0} + {1} == {0, 1} != {0, 1, 2} by { assert 2 !in {0, 1}; }
    ExampleReport(hash, source, l4, 3, {0, 1});
    steps := [] + [SweepBlock] + [SweepBlock] + [SweepBlock] + [DeliverBlock(b)] + [SendSack];
    RunsOn(hash, source, l0, [] + [SweepBlock] + [SweepBlock] + [SweepBlock] + [DeliverBlock(b)], l4, SendSack);
    l := Apply(hash, source, l4, SendSack);
    p := Report(l4.rx, 0);
    ReportSeen(hash, source, l4);
  }

  lemma ReportSeen(hash: Hash, source: seq<Byte>, l: Lane)
    requires At(hash, source, l, 3, false, {0, 1}, true)
    ensures var p := Report(l.rx, 0);
            Reported(p, {0, 1}) && p.seen == 2
  {
    ThreeBlocks();
    hide DataInv, AckInv, SackInv, Honest, MakeSack, Wf;
    assert 1 in l.rx.have && 1 !in Trusted(l);
  }

  lemma ExampleEnds(hash: Hash, source: seq<Byte>, l0: Lane, steps: seq<Step>, l: Lane, p: Packet)
    returns (more: seq<Step>, m: Lane, q: Packet)
    requires Injective(hash) && RunsTo(hash, source, l0, steps, l) && At(hash, source, l, 3, false, {0, 1}, false)
    requires BlockCount(|source|) == 3 && SourceBlock(source, 2) in l.data && p in l.sacks
    ensures RunsTo(hash, source, l0, more, m)
    ensures Going(hash, source, m) && m.rx.have == {} && m.txEpoch == 1 && p in m.sacks
    ensures q in m.sacks && Reported(q, {0, 1, 2})
  {
    hide At, Wf, Enabled, Apply, RunsTo, SourceBlock, BlockCount, Going;
    var b := SourceBlock(source, 2);
    ExampleBlock(hash, source, l, 3, {0, 1}, false, 2);
    RunsOn(hash, source, l0, steps, l, DeliverBlock(b));
    var l1 := Apply(hash, source, l, DeliverBlock(b));
    assert {0, 1} + {2} == {0, 1, 2};
    q :| q in l1.sacks && Reported(q, {0, 1, 2});
    ExampleFinish(hash, source, l1, {0, 1, 2}, false);
    RunsOn(hash, source, l0, steps + [DeliverBlock(b)], l1, FinishSweep);
    var l2 := Apply(hash, source, l1, FinishSweep);
    ExampleRejected(hash, source, l2);
    RunsOn(hash, source, l0, steps + [DeliverBlock(b)] + [FinishSweep], l2, DeliverDone);
    var l3 := Apply(hash, source, l2, DeliverDone);
    RunsOn(hash, source, l0, steps + [DeliverBlock(b)] + [FinishSweep] + [DeliverDone], l3, DeliverAck);
    more := steps + [DeliverBlock(b)] + [FinishSweep] + [DeliverDone] + [DeliverAck];
    m := Apply(hash, source, l3, DeliverAck);
  }

  lemma FatalByCount(hash: Hash, source: seq<Byte>, start: Lane, steps: seq<Step>, l: Lane, p: Packet)
    requires RunsTo(hash, source, start, steps, l) && Going(hash, source, l) && BlockCount(|source|) == 3
    requires l.rx.have == {} && l.txEpoch == 1 && p in l.sacks
    requires Reported(p, {0, 1, 2}) || (Reported(p, {0, 1}) && p.seen == 2)
    ensures p.sack.complete <==> p.had == {0, 1, 2}
    ensures Fatal(hash, source, start, steps, p)
  {
    hide CanVerify, IsRun, After, Going, BlockCount;
    StaleSackIff(hash, source, l, p);
    var reach := Reach(source, Blackout(l), p.sack);
    assert |{0, 1}| == 2 && |{0, 1, 2}| == 3 && 2 !in {0, 1};
    forall k | k in reach ensures k == 2 {
      if p.had == {0, 1} { CandidatesAreMissing({0, 1}, {}, 3, p.seen, k); }
    }
    SubsetSize(reach, {2});
  }
}
