/**
 The batching receiver inside the two-ended machine: a batch does what some of its blocks,
 delivered one by one, do. The blocks left out are duplicates that came while the run
 that completes their file was still to be written; the network may lose a block anyway,
 so everything proved of single deliveries holds of batches.
 */
module BatchLanes {
  import opened Wrappers
  import opened Manifest
  import opened Runs
  import opened Receiver
  import B = ReceiverBatch
  import opened Sacks
  import opened Transfer
  import opened TransferInvariant
  import opened TransferIntegrity

  // ---- the blocks that count ---------------------------------------------------------------

  /** `f` is `g`, or complete like `g` and only with a higher frontier. */
  ghost predicate Like(f: FileRx, g: FileRx) {
    f == g || (f.complete && g.complete && f == g.(frontier := f.frontier) && g.frontier <= f.frontier)
  }

  ghost predicate LikeAll(a: B.Engine, b: B.Engine) {
    && |a.files| == |b.files| && a.notes == b.notes
    && forall i | 0 <= i < |a.files| :: Like(a.files[i], b.files[i])
  }

  lemma LikeTransitive(a: B.Engine, b: B.Engine, c: B.Engine)
    requires LikeAll(a, b) && LikeAll(b, c)
    ensures LikeAll(a, c)
  {
    forall i | 0 <= i < |a.files| ensures Like(a.files[i], c.files[i]) {
      assert Like(a.files[i], b.files[i]) && Like(b.files[i], c.files[i]);
    }
  }

  lemma AcceptLike(hash: Hash, f: FileRx, g: FileRx, b: Block)
    requires Wf(f) && Wf(g) && Like(f, g)
    ensures Like(AcceptOne(hash, f, b).file, AcceptOne(hash, g, b).file)
    ensures AcceptOne(hash, f, b).acks == AcceptOne(hash, g, b).acks
  {
    hide FlushRun;
    if f != g { B.CompleteHasAll(f, b); }
  }

  lemma DeliverLike(hash: Hash, a: B.Engine, b: B.Engine, p: B.Item)
    requires B.EngineWf(a) && B.EngineWf(b) && LikeAll(a, b) && p.file < |a.files|
    ensures LikeAll(B.Deliver(hash, a, p), B.Deliver(hash, b, p))
  {
    hide AcceptOne, Wf, Like;
    AcceptLike(hash, a.files[p.file], b.files[p.file], p.block);
  }

  /** A duplicate that comes while the run that completes its file is still to be written. */
  ghost predicate Redundant(l: B.Loop, p: B.Item)
    requires B.LoopOk(l) && p.file < |l.engine.files|
  {
    && B.Joins(l.run, p) && B.IsDuplicate(l.engine, p)
    && Stored(l.engine.files[p.file], l.run.run).complete
  }

  /** The blocks of the batch that count. */
  ghost function Counted(hash: Hash, start: B.Engine, batch: seq<B.Item>, k: nat): (sub: seq<B.Item>)
    requires B.EngineWf(start) && B.InRange(start, batch) && k <= |batch|
    ensures B.InRange(start, sub)
  {
    if k == 0 then []
    else
      var before, p := Counted(hash, start, batch, k - 1), batch[k - 1];
      if Redundant(B.Looped(hash, start, batch, k - 1), p) then before else before + [p]
  }

  ghost predicate Subsequence(a: seq<B.Item>, b: seq<B.Item>) {
    a == [] ||
    (b != [] &&
     (Subsequence(a, b[..|b| - 1])
      || (a[|a| - 1] == b[|b| - 1] && Subsequence(a[..|a| - 1], b[..|b| - 1]))))
  }

  lemma {:induction false} CountedIsSubsequence(hash: Hash, start: B.Engine, batch: seq<B.Item>, k: nat)
    requires B.EngineWf(start) && B.InRange(start, batch) && k <= |batch|
    ensures Subsequence(Counted(hash, start, batch, k), batch[..k])
  {
    hide Counted, Subsequence, B.EngineWf, B.InRange;
    CountedNext(hash, start, batch, k);
    if k == 0 {
      NothingCounted(batch[..0]);
    } else {
      CountedIsSubsequence(hash, start, batch, k - 1);
      assert batch[..k] == batch[..k - 1] + [batch[k - 1]];
      SubsequenceSnoc(Counted(hash, start, batch, k - 1), batch[..k - 1], batch[k - 1]);
    }
  }

  lemma CountedNext(hash: Hash, start: B.Engine, batch: seq<B.Item>, k: nat)
    requires B.EngineWf(start) && B.InRange(start, batch) && k <= |batch|
    ensures k == 0 ==> Counted(hash, start, batch, k) == []
    ensures k > 0 ==>
              var before := Counted(hash, start, batch, k - 1);
              Counted(hash, start, batch, k) == before || Counted(hash, start, batch, k) == before + [batch[k - 1]]
  {
    hide Redundant, B.EngineWf, B.InRange;
  }

  lemma NothingCounted(b: seq<B.Item>)
    ensures Subsequence([], b)
  {}

  lemma SubsequenceSnoc(a: seq<B.Item>, b: seq<B.Item>, p: B.Item)
    requires Subsequence(a, b)
    ensures Subsequence(a, b + [p]) && Subsequence(a + [p], b + [p])
  {
    assert (b + [p])[..|b|] == b && (a + [p])[..|a|] == a;
  }

  /** A redundant duplicate only moves the frontier of a file that is then complete. */
  lemma RedundantTouches(hash: Hash, l: B.Loop, p: B.Item)
    requires B.LoopOk(l) && p.file < |l.engine.files| && Redundant(l, p)
    ensures var r := B.LoopStep(hash, l, p);
            LikeAll(B.Settled(hash, r.engine, r.run), B.Settled(hash, l.engine, l.run))
  {
    hide RunFits, Acceptable, Wf, Overwrite, Between;
    var f := l.engine.files[p.file];
    B.TouchedStored(f, l.run.run, p.block);
    var g := Stored(f, l.run.run);
    LikeJudged(hash, Touched(g, p.block).(dirty := false), g);
    var r := B.LoopStep(hash, l, p);
    assert r == B.Loop(B.Touch(l.engine, p), l.run);
    TouchedClean(f, l.run.run);
  }

  lemma TouchedClean(f: FileRx, run: Pending)
    requires Wf(f) && RunFits(f, run)
    ensures Stored(f, run).complete ==> !Stored(f, run).dirty
  {}

  lemma LikeJudged(hash: Hash, f: FileRx, g: FileRx)
    requires Like(f, g)
    ensures Like(MaybeVerify(hash, f).file, MaybeVerify(hash, g).file)
    ensures MaybeVerify(hash, f).acks == MaybeVerify(hash, g).acks
  {}

  /** A duplicate whose file stays incomplete is noted before the write as after it. */
  lemma IncompleteSkip(hash: Hash, e: B.Engine, c: B.Collected, p: B.Item)
    requires B.EngineWf(e) && B.Fits(e, c) && p.file < |e.files| && (c.file < 0 || c.file == p.file)
    requires B.IsDuplicate(e, p) && (0 <= c.file ==> !Stored(e.files[p.file], c.run).complete)
    ensures B.EngineWf(B.Settled(hash, e, c)) && p.file < |B.Settled(hash, e, c).files|
    ensures B.EngineWf(B.Touch(e, p)) && B.Fits(B.Touch(e, p), c)
    ensures B.Settled(hash, B.Touch(e, p), c) == B.Deliver(hash, B.Settled(hash, e, c), p)
  {
    hide RunFits, Acceptable, Wf, Overwrite, Between;
    B.SettledWf(hash, e, c);
    B.TouchFits(e, c, p);
    var f := e.files[p.file];
    if 0 <= c.file {
      B.TouchedStored(f, c.run, p.block);
      B.StoredAcceptable(f, c.run, p.block);
      StillHeld(f, c.run, p.block);
      B.PutTwice(e, p.file, Reply(Stored(f, c.run), []), Reply(Touched(Stored(f, c.run), p.block), []));
      B.PutTwice(e, p.file, Reply(Touched(f, p.block), []), Reply(Touched(Stored(f, c.run), p.block), []));
      NoNotes(e, p.file);
    } else {
      NoNotes(e, p.file);
    }
  }

  lemma StillHeld(f: FileRx, run: Pending, b: Block)
    requires Wf(f) && RunFits(f, run) && b.index in f.have
    ensures b.index in Stored(f, run).have
  {}

  lemma NoNotes(e: B.Engine, file: nat)
    ensures e.notes + B.Tagged(file, []) == e.notes
  {}

  /** A block that counts does in the batch what it does on its own. */
  lemma CountedDelivers(hash: Hash, l: B.Loop, p: B.Item)
    requires B.LoopOk(l) && p.file < |l.engine.files| && !Redundant(l, p)
    ensures B.EngineWf(B.Settled(hash, l.engine, l.run)) && p.file < |B.Settled(hash, l.engine, l.run).files|
    ensures var r := B.LoopStep(hash, l, p);
            B.Settled(hash, r.engine, r.run) == B.Deliver(hash, B.Settled(hash, l.engine, l.run), p)
  {
    hide B.Settled, B.Deliver, B.Decided, Stored, B.Contiguous, B.EngineWf, B.Fits;
    B.SettledWf(hash, l.engine, l.run);
    if B.Joins(l.run, p) {
      DecidedDelivers(hash, l, p);
    } else {
      var m := B.Flushed(hash, l);
      B.SettledNothing(hash, m.engine, m.run);
      DecidedDelivers(hash, m, p);
    }
  }

  lemma DecidedDelivers(hash: Hash, l: B.Loop, p: B.Item)
    requires B.LoopOk(l) && p.file < |l.engine.files| && (l.run.file < 0 || B.Joins(l.run, p))
    requires 0 <= l.run.file && B.IsDuplicate(l.engine, p) ==> !Stored(l.engine.files[p.file], l.run.run).complete
    ensures B.EngineWf(B.Settled(hash, l.engine, l.run)) && p.file < |B.Settled(hash, l.engine, l.run).files|
    ensures var r := B.Decided(hash, l, p);
            B.Settled(hash, r.engine, r.run) == B.Deliver(hash, B.Settled(hash, l.engine, l.run), p)
  {
    hide B.Settled, B.Deliver, Stored, B.Contiguous, B.EngineWf, B.Fits, Acceptable, B.Touch;
    B.SettledWf(hash, l.engine, l.run);
    if !Acceptable(l.engine.files[p.file], p.block) {
      B.Reject(hash, l.engine, l.run, p);
    } else if p.block.index in l.engine.files[p.file].have {
      IncompleteSkip(hash, l.engine, l.run, p);
    } else {
      B.FreshSimulates(hash, l, p);
      var r := B.Loop(B.Touch(l.engine, p), B.Added(l.run, p));
      if |r.run.run.data| >= B.FLUSH_BYTES {
        var m := B.Flushed(hash, r);
        B.SettledNothing(hash, m.engine, m.run);
      }
    }
  }

  /**
   For every batch, whatever it holds and whatever is verified or reset on the way: the
   files and verdicts are those of a subsequence of its blocks delivered one by one.
   */
  lemma {:induction false} BatchIsSubsequence(hash: Hash, start: B.Engine, batch: seq<B.Item>, k: nat)
    requires B.EngineWf(start) && B.InRange(start, batch) && k <= |batch|
    ensures var sub := Counted(hash, start, batch, k);
            && Subsequence(sub, batch[..k])
            && LikeAll(B.Batched(hash, start, batch, k), B.DeliverAll(hash, start, sub))
  {
    hide B.LoopOk, B.EngineWf, B.LoopStep, B.Settled, LikeAll, Redundant, B.Deliver, B.Fits;
    CountedIsSubsequence(hash, start, batch, k);
    if k == 0 {
      B.SettledNothing(hash, start, B.NOTHING);
      LikeItself(start);
    } else {
      BatchIsSubsequence(hash, start, batch, k - 1);
      var l, p := B.Looped(hash, start, batch, k - 1), batch[k - 1];
      var before := Counted(hash, start, batch, k - 1);
      var e := B.DeliverAll(hash, start, before);
      B.LoopedNext(hash, start, batch, k - 1);
      OkParts(l);
      var r := B.LoopStep(hash, l, p);
      OkParts(r);
      if Redundant(l, p) {
        RedundantTouches(hash, l, p);
        LikeTransitive(B.Settled(hash, r.engine, r.run), B.Settled(hash, l.engine, l.run), e);
      } else {
        CountedDelivers(hash, l, p);
        DeliverLike(hash, B.Settled(hash, l.engine, l.run), e, p);
        assert (before + [p])[..|before|] == before;
      }
    }
  }

  lemma OkParts(l: B.Loop)
    requires B.LoopOk(l)
    ensures B.EngineWf(l.engine) && B.Fits(l.engine, l.run)
  {}

  lemma LikeItself(e: B.Engine)
    ensures LikeAll(e, e)
  {}

  // ---- batches in the lanes -----------------------------------------------------------------

  /** The files of all lanes as the receiving engine holds them. */
  function EngineOf(lanes: seq<Lane>): B.Engine {
    B.Engine(seq(|lanes|, i requires 0 <= i < |lanes| => lanes[i].rx), [])
  }

  ghost predicate AllWf(lanes: seq<Lane>) {
    forall i | 0 <= i < |lanes| :: Wf(lanes[i].rx)
  }

  /** Every block of the batch is in flight to its file. */
  ghost predicate Genuine(lanes: seq<Lane>, batch: seq<B.Item>) {
    forall k | 0 <= k < |batch| :: batch[k].file < |lanes| && batch[k].block in lanes[batch[k].file].data
  }

  lemma EngineOfWf(lanes: seq<Lane>, batch: seq<B.Item>)
    requires AllWf(lanes) && Genuine(lanes, batch)
    ensures B.EngineWf(EngineOf(lanes)) && B.InRange(EngineOf(lanes), batch)
  {}

  /** The verdicts about one file. */
  function AcksOf(notes: seq<B.Note>, file: nat): seq<Ack> {
    if notes == [] then []
    else
      var m := |notes| - 1;
      AcksOf(notes[..m], file) + if notes[m].file == file then [notes[m].ack] else []
  }

  lemma {:induction false} AcksOfTagged(notes: seq<B.Note>, p: nat, acks: seq<Ack>, file: nat)
    ensures AcksOf(notes + B.Tagged(p, acks), file) == AcksOf(notes, file) + if p == file then acks else []
    decreases |acks|
  {
    var all := notes + B.Tagged(p, acks);
    if acks == [] {
      assert all == notes;
    } else {
      var m := |acks| - 1;
      AcksOfTagged(notes, p, acks[..m], file);
      assert all[..|all| - 1] == notes + B.Tagged(p, acks[..m]);
      assert acks[..m] + [acks[m]] == acks;
    }
  }

  /** One delivery, in the lane and in the engine. */
  lemma DeliveryAgrees(hash: Hash, source: seq<Byte>, l: Lane, b: Block)
    requires Wf(l.rx) && b in l.data
    ensures Enabled(source, l, DeliverBlock(b))
    ensures var m := Apply(hash, source, l, DeliverBlock(b));
            && m.rx == AcceptOne(hash, l.rx, b).file && m.acks == l.acks + AcceptOne(hash, l.rx, b).acks
            && m.data == l.data
  {
    hide Absorbed, MaybeVerify, AcceptOne, Wf;
    AcceptIsJudged(hash, l.rx, b);
  }

  /** The blocks of a batch that are for one file, as steps of its lane. */
  function StepsOf(batch: seq<B.Item>, file: nat): seq<Step> {
    if batch == [] then []
    else
      var m := |batch| - 1;
      StepsOf(batch[..m], file) + if batch[m].file == file then [DeliverBlock(batch[m].block)] else []
  }

  /** One more block: a step of its file's lane, and nothing for the others. */
  lemma OneMoreDelivery(hash: Hash, source: seq<Byte>, start: Lane, steps: seq<Step>, l: Lane,
                        e: B.Engine, p: B.Item, i: nat)
    returns (m: Lane)
    requires B.EngineWf(e) && i < |e.files| && p.file < |e.files| && (p.file == i ==> p.block in start.data)
    requires RunsTo(hash, source, start, steps, l) && l.rx == e.files[i] && l.data == start.data && Wf(l.rx)
    requires l.acks == start.acks + AcksOf(e.notes, i)
    ensures RunsTo(hash, source, start, steps + (if p.file == i then [DeliverBlock(p.block)] else []), m)
    ensures var d := B.Deliver(hash, e, p);
            m.rx == d.files[i] && m.data == start.data && m.acks == start.acks + AcksOf(d.notes, i)
  {
    hide Wf, B.EngineWf, RunsTo, Enabled, Apply, AcceptOne, AcksOf;
    EngineFileWf(e, p.file);
    AcksOfTagged(e.notes, p.file, AcceptOne(hash, e.files[p.file], p.block).acks, i);
    if p.file == i {
      DeliveryAgrees(hash, source, l, p.block);
      RunsOn(hash, source, start, steps, l, DeliverBlock(p.block));
      m := Apply(hash, source, l, DeliverBlock(p.block));
    } else {
      m := l;
      assert steps + [] == steps;
    }
  }

  /** Delivering blocks one by one to the engine is a run of each lane. */
  lemma {:induction false} DeliverAllIsRun(hash: Hash, sources: seq<seq<Byte>>, lanes: seq<Lane>,
                                           batch: seq<B.Item>, i: nat)
    returns (m: Lane)
    requires |sources| == |lanes| && AllWf(lanes) && Genuine(lanes, batch) && i < |lanes|
    ensures RunsTo(hash, sources[i], lanes[i], StepsOf(batch, i), m)
    ensures B.EngineWf(EngineOf(lanes)) && B.InRange(EngineOf(lanes), batch)
    ensures var e := B.DeliverAll(hash, EngineOf(lanes), batch);
            && m.rx == e.files[i] && m.data == lanes[i].data
            && m.acks == lanes[i].acks + AcksOf(e.notes, i)
    decreases |batch|
  {
    EngineOfWf(lanes, batch);
    hide Wf, B.EngineWf, RunsTo, B.Deliver, AllWf;
    if batch == [] {
      m := lanes[i];
      RunsNowhere(hash, sources[i], m);
      assert m.acks + [] == m.acks;
    } else {
      var n := |batch| - 1;
      var p := batch[n];
      assert Genuine(lanes, batch[..n]);
      var l := DeliverAllIsRun(hash, sources, lanes, batch[..n], i);
      var e := B.DeliverAll(hash, EngineOf(lanes), batch[..n]);
      EngineFileWf(e, i);
      m := OneMoreDelivery(hash, sources[i], lanes[i], StepsOf(batch[..n], i), l, e, p, i);
    }
  }

  lemma EngineFileWf(e: B.Engine, i: nat)
    requires B.EngineWf(e) && i < |e.files|
    ensures Wf(e.files[i])
  {}

  /** A higher frontier of a complete file keeps a lane sound. */
  lemma LikeInv(hash: Hash, source: seq<Byte>, l: Lane, f: FileRx)
    requires Inv(hash, source, l) && Like(f, l.rx) && Wf(f)
    ensures Inv(hash, source, l.(rx := f))
  {
    hide Wf, RxInv, DataInv, AckInv, TxInv, SackInv, Like;
    LikeRx(hash, source, l, f);
    LikeSacks(source, l, f);
    LikeTx(source, l, f);
  }

  lemma LikeRx(hash: Hash, source: seq<Byte>, l: Lane, f: FileRx)
    requires RxInv(hash, source, l) && Like(f, l.rx) && Wf(f)
    ensures RxInv(hash, source, l.(rx := f))
  {
    assert forall k | k in f.have && k !in Trusted(l) :: Honest(source, l.rx, k) && Honest(source, f, k);
  }

  lemma LikeSacks(source: seq<Byte>, l: Lane, f: FileRx)
    requires SackInv(source, l) && Like(f, l.rx)
    ensures SackInv(source, l.(rx := f))
  {
    hide PacketOk;
    var m := l.(rx := f);
    assert Packets(m) == Packets(l);
    forall p | p in Packets(m) ensures PacketOk(source, m, p) {
      assert PacketOk(source, l, p);
      KeptPacket(source, l, m, p);
    }
  }

  lemma LikeTx(source: seq<Byte>, l: Lane, f: FileRx)
    requires AckInv(l) && TxInv(source, l) && DataInv(source, l) && Like(f, l.rx)
    ensures var m := l.(rx := f); AckInv(m) && TxInv(source, m) && DataInv(source, m)
  {
    hide Marked, FirstRuns, SourceBlock, Bads;
  }

  /** The frontier of a complete file does not show in its SACK. */
  lemma LikeReports(f: FileRx, g: FileRx)
    requires Wf(f) && Wf(g) && Like(f, g)
    ensures MakeSack(f.have, f.Blocks(), f.frontier) == MakeSack(g.have, g.Blocks(), g.frontier)
  {
    if f != g {
      RunEndAt(f.have, f.Blocks(), 0, f.Blocks());
      FullIffSize(f.have, f.Blocks());
    }
  }

  // ---- a batch as one step of all lanes ------------------------------------------------------

  ghost predicate CanBatch(sources: seq<seq<Byte>>, lanes: seq<Lane>, batch: seq<B.Item>) {
    |sources| == |lanes| && AllWf(lanes) && Genuine(lanes, batch)
  }

  /** The single deliveries to file `i` that the batch amounts to. */
  ghost function BatchSteps(hash: Hash, lanes: seq<Lane>, batch: seq<B.Item>, i: nat): seq<Step>
    requires AllWf(lanes) && Genuine(lanes, batch)
  {
    EngineOfWf(lanes, batch);
    StepsOf(Counted(hash, EngineOf(lanes), batch, |batch|), i)
  }

  /** File `i` and the verdicts about it after `HandleBatch`. */
  ghost function BatchFile(hash: Hash, lanes: seq<Lane>, batch: seq<B.Item>, i: nat): FileRx
    requires AllWf(lanes) && Genuine(lanes, batch) && i < |lanes|
  {
    EngineOfWf(lanes, batch);
    B.Batched(hash, EngineOf(lanes), batch, |batch|).files[i]
  }

  ghost function BatchAcks(hash: Hash, lanes: seq<Lane>, batch: seq<B.Item>, i: nat): seq<Ack>
    requires AllWf(lanes) && Genuine(lanes, batch)
  {
    EngineOfWf(lanes, batch);
    AcksOf(B.Batched(hash, EngineOf(lanes), batch, |batch|).notes, i)
  }

  /**
   For every batch of blocks in flight and every file: the single deliveries are a run
   of the file's lane, and lead to the batch's verdicts and to the batch's file, but for
   the frontier of a complete one.
   */
  lemma BatchIsRun(hash: Hash, sources: seq<seq<Byte>>, lanes: seq<Lane>, batch: seq<B.Item>, i: nat)
    requires CanBatch(sources, lanes, batch) && i < |lanes|
    ensures var steps := BatchSteps(hash, lanes, batch, i);
            && (forall s | s in steps :: s.DeliverBlock?)
            && IsRun(hash, sources[i], lanes[i], steps)
            && var m := After(hash, sources[i], lanes[i], steps);
               && Like(BatchFile(hash, lanes, batch, i), m.rx) && Wf(BatchFile(hash, lanes, batch, i))
               && m.acks == lanes[i].acks + BatchAcks(hash, lanes, batch, i)
  {
    EngineOfWf(lanes, batch);
    hide Wf, B.EngineWf, IsRun, After, LikeAll, Like, Genuine, AllWf;
    var start := EngineOf(lanes);
    BatchIsSubsequence(hash, start, batch, |batch|);
    var sub := Counted(hash, start, batch, |batch|);
    assert batch[..|batch|] == batch;
    SubsequenceGenuine(lanes, sub, batch);
    var m := DeliverAllIsRun(hash, sources, lanes, sub, i);
    StepsDeliver(sub, i);
    var e, d := B.Batched(hash, start, batch, |batch|), B.DeliverAll(hash, start, sub);
    LikeParts(e, d, i);
    EngineFileWf(e, i);
  }

  /** The lane of file `i` after the batch. */
  ghost function BatchLane(hash: Hash, sources: seq<seq<Byte>>, lanes: seq<Lane>, batch: seq<B.Item>, i: nat): Lane
    requires CanBatch(sources, lanes, batch) && i < |lanes|
  {
    BatchIsRun(hash, sources, lanes, batch, i);
    After(hash, sources[i], lanes[i], BatchSteps(hash, lanes, batch, i)).(rx := BatchFile(hash, lanes, batch, i))
  }

  /**
   Whatever the batch holds, a sound lane stays sound: what holds of the content of
   verified files, of set bits and of how often a file is rejected is kept, and the
   sender's side is not touched.
   */
  lemma BatchLaneKeeps(hash: Hash, sources: seq<seq<Byte>>, lanes: seq<Lane>, batch: seq<B.Item>, i: nat)
    requires CanBatch(sources, lanes, batch) && i < |lanes| && Inv(hash, sources[i], lanes[i])
    ensures var l, m := lanes[i], BatchLane(hash, sources, lanes, batch, i);
            && Inv(hash, sources[i], m)
            && (ContentInv(hash, sources[i], l) ==> ContentInv(hash, sources[i], m))
            && (OneReset(sources[i], l) ==> OneReset(sources[i], m))
            && (AllHonest(sources[i], l) ==> AllHonest(sources[i], m) && m.epoch == l.epoch)
            && m.tx == l.tx && m.early == l.early && (l.rx.verified ==> m.rx.verified)
  {
    BatchIsRun(hash, sources, lanes, batch, i);
    hide IsRun, After, Inv, AllHonest, ContentInv, OneReset, Wf, Like, BatchSteps, BatchFile, BatchAcks, CanBatch;
    var l, steps, f := lanes[i], BatchSteps(hash, lanes, batch, i), BatchFile(hash, lanes, batch, i);
    RunKeepsAll(hash, sources[i], l, steps);
    var m := After(hash, sources[i], l, steps);
    DeliveriesKeep(hash, sources[i], l, steps);
    LikeInv(hash, sources[i], m, f);
    LikeKeeps(hash, sources[i], m, f);
  }

  lemma InvAllWf(hash: Hash, sources: seq<seq<Byte>>, lanes: seq<Lane>)
    requires |sources| == |lanes| && forall j | 0 <= j < |lanes| :: Inv(hash, sources[j], lanes[j])
    ensures AllWf(lanes)
  {
    hide Wf, RxInv, DataInv, AckInv, TxInv, SackInv;
    forall j | 0 <= j < |lanes| ensures Wf(lanes[j].rx) {
      assert Inv(hash, sources[j], lanes[j]);
    }
  }

  lemma {:induction false} SubsequenceGenuine(lanes: seq<Lane>, a: seq<B.Item>, b: seq<B.Item>)
    requires Subsequence(a, b) && Genuine(lanes, b)
    ensures Genuine(lanes, a)
    decreases |b|
  {
    if a != [] {
      var n := |b| - 1;
      assert Genuine(lanes, b[..n]);
      if Subsequence(a, b[..n]) {
        SubsequenceGenuine(lanes, a, b[..n]);
      } else {
        SubsequenceGenuine(lanes, a[..|a| - 1], b[..n]);
        assert forall k | 0 <= k < |a| - 1 :: a[k] == a[..|a| - 1][k];
      }
    }
  }

  lemma {:induction false} StepsDeliver(batch: seq<B.Item>, file: nat)
    ensures forall s | s in StepsOf(batch, file) :: s.DeliverBlock?
  {
    if batch != [] { StepsDeliver(batch[..|batch| - 1], file); }
  }

  lemma LikeParts(a: B.Engine, b: B.Engine, i: nat)
    requires LikeAll(a, b) && i < |b.files|
    ensures |a.files| == |b.files| && Like(a.files[i], b.files[i]) && a.notes == b.notes
  {}

  lemma RunKeepsAll(hash: Hash, source: seq<Byte>, l: Lane, steps: seq<Step>)
    requires Inv(hash, source, l) && IsRun(hash, source, l, steps)
    ensures var m := After(hash, source, l, steps);
            && Inv(hash, source, m)
            && (ContentInv(hash, source, l) ==> ContentInv(hash, source, m))
            && (OneReset(source, l) ==> OneReset(source, m))
            && (AllHonest(source, l) ==> AllHonest(source, m) && m.epoch == l.epoch)
  {
    hide Inv, IsRun, After, OneReset, AllHonest, ContentInv;
    RunInv(hash, source, l, steps);
    if ContentInv(hash, source, l) { RunContent(hash, source, l, steps); }
    if OneReset(source, l) { RejectedAtMostOnce(hash, source, l, steps); }
    if AllHonest(source, l) { HonestRun(hash, source, l, steps); }
  }

  /** Deliveries of blocks leave the sender alone and take no verdict back. */
  lemma {:induction false} DeliveriesKeep(hash: Hash, source: seq<Byte>, l: Lane, steps: seq<Step>)
    requires IsRun(hash, source, l, steps) && forall s | s in steps :: s.DeliverBlock?
    ensures var m := After(hash, source, l, steps);
            m.tx == l.tx && m.early == l.early && (l.rx.verified ==> m.rx.verified)
    decreases |steps|
  {
    if steps != [] {
      DeliveryKeeps(hash, source, l, steps[0]);
      hide Wf, Enabled, Apply;
      DeliveriesKeep(hash, source, Apply(hash, source, l, steps[0]), steps[1..]);
    }
  }

  lemma DeliveryKeeps(hash: Hash, source: seq<Byte>, l: Lane, step: Step)
    requires Wf(l.rx) && Enabled(source, l, step) && step.DeliverBlock?
    ensures var m := Apply(hash, source, l, step);
            m.tx == l.tx && m.early == l.early && (l.rx.verified ==> m.rx.verified)
  {
    hide Wf, Absorbed;
    AbsorbedVerified(l.rx, step.b);
  }

  lemma LikeKeeps(hash: Hash, source: seq<Byte>, l: Lane, f: FileRx)
    requires Like(f, l.rx)
    ensures var m := l.(rx := f);
            && (ContentInv(hash, source, l) ==> ContentInv(hash, source, m))
            && (OneReset(source, l) ==> OneReset(source, m))
            && (AllHonest(source, l) ==> AllHonest(source, m))
            && f.verified == l.rx.verified
  {
    if AllHonest(source, l) { HonestSameBytes(source, l, l.(rx := f)); }
  }
}
