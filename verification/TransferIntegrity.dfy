/**
 What whole runs of a file's transfer guarantee about the received bytes, for any
 loss, repetition and reordering of blocks and SACKs.
 */
module TransferIntegrity {
  import opened Wrappers
  import opened Manifest
  import opened Runs
  import opened Receiver
  import opened Sacks
  import opened Transfer
  import opened TransferInvariant

  /** `steps` can be taken one after the other from `l`. */
  ghost predicate IsRun(hash: Hash, source: seq<Byte>, l: Lane, steps: seq<Step>)
    decreases |steps|
  {
    steps == [] ||
    (Wf(l.rx) && Enabled(source, l, steps[0]) && IsRun(hash, source, Apply(hash, source, l, steps[0]), steps[1..]))
  }

  ghost function After(hash: Hash, source: seq<Byte>, l: Lane, steps: seq<Step>): Lane
    requires IsRun(hash, source, l, steps)
    decreases |steps|
  {
    if steps == [] then l else After(hash, source, Apply(hash, source, l, steps[0]), steps[1..])
  }

  /** `steps` lead from `l` to `m`. */
  ghost predicate RunsTo(hash: Hash, source: seq<Byte>, l: Lane, steps: seq<Step>, m: Lane) {
    IsRun(hash, source, l, steps) && After(hash, source, l, steps) == m
  }

  lemma RunsNowhere(hash: Hash, source: seq<Byte>, l: Lane)
    ensures RunsTo(hash, source, l, [], l)
  {}

  lemma {:induction false} RunsOn(hash: Hash, source: seq<Byte>, l: Lane, steps: seq<Step>, m: Lane, step: Step)
    requires RunsTo(hash, source, l, steps, m) && Wf(m.rx) && Enabled(source, m, step)
    ensures RunsTo(hash, source, l, steps + [step], Apply(hash, source, m, step))
    decreases |steps|
  {
    hide Wf, Enabled, Apply;
    var all := steps + [step];
    if steps == [] {
      assert all[1..] == [];
      RunsNowhere(hash, source, Apply(hash, source, m, step));
    } else {
      RunsOn(hash, source, Apply(hash, source, l, steps[0]), steps[1..], m, step);
      assert all[1..] == steps[1..] + [step];
    }
  }

  lemma {:induction false} RunInv(hash: Hash, source: seq<Byte>, l: Lane, steps: seq<Step>)
    requires Inv(hash, source, l) && IsRun(hash, source, l, steps)
    ensures Inv(hash, source, After(hash, source, l, steps))
    decreases |steps|
  {
    hide Inv, Apply, Wf, Enabled;
    if steps != [] {
      StepInv(hash, source, l, steps[0]);
      RunInv(hash, source, Apply(hash, source, l, steps[0]), steps[1..]);
    }
  }

  ghost predicate Injective(hash: Hash) {
    forall a, b :: hash(a) == hash(b) ==> a == b
  }

  // ---- a verified file has the hash the sender computed ------------------------

  ghost predicate ContentInv(hash: Hash, source: seq<Byte>, l: Lane) {
    l.rx.verified && !l.early ==> hash(l.rx.part) == hash(source)
  }

  lemma JudgedContent(hash: Hash, source: seq<Byte>, l: Lane)
    requires Unjudged(hash, source, l) && ContentInv(hash, source, l)
    ensures ContentInv(hash, source, Judged(hash, l, l.rx))
    ensures Judged(hash, l, l.rx).early == l.early
  {
    hide Wf, DataInv, AckInv, TxInv, SackInv, Received, Honest;
    assert l.rx.Blocks() == 0 ==> source == [];
  }

  lemma AbsorbedVerified(f: FileRx, b: Block)
    requires Wf(f)
    ensures Absorbed(f, b).verified == f.verified
    ensures f.verified ==> Absorbed(f, b) == f
  {}

  lemma TakeBlockRest(l: Lane, b: Block)
    requires Wf(l.rx)
    ensures var m := TakeBlock(l, b);
            m.rx == Absorbed(l.rx, b) && m.early == l.early && m.epoch == l.epoch
  {}

  lemma ContentStep(hash: Hash, source: seq<Byte>, l: Lane, step: Step)
    requires Inv(hash, source, l) && ContentInv(hash, source, l) && Enabled(source, l, step)
    ensures ContentInv(hash, source, Apply(hash, source, l, step))
  {
    hide Inv, Judged, Absorbed, Wf, TakePacket, TakeBlock;
    match step
    case DeliverBlock(b) =>
      InvWf(hash, source, l);
      AbsorbedVerified(l.rx, b);
      InvHasData(hash, source, l, b);
      TakeBlockInv(hash, source, l, b);
      TakeBlockRest(l, b);
      JudgedContent(hash, source, TakeBlock(l, b));
    case DeliverDone =>
      var m := l.(done := Arrived, rx := l.rx.(expected := Some(hash(source))));
      DoneInv(hash, source, l);
      JudgedContent(hash, source, m);
      JudgedIgnoresRx(hash, l.(done := Arrived), m.rx);
    case DeliverSack(p) =>
      assert TakePacket(l, p).rx == l.rx && TakePacket(l, p).early == l.early by { TakePacketSides(l, p); }
    case _ =>
  }

  lemma TakePacketSides(l: Lane, p: Packet)
    ensures TakePacket(l, p).rx == l.rx && TakePacket(l, p).early == l.early
  {}

  lemma InvWf(hash: Hash, source: seq<Byte>, l: Lane)
    requires Inv(hash, source, l)
    ensures Wf(l.rx)
  {}

  lemma InvHasData(hash: Hash, source: seq<Byte>, l: Lane, b: Block)
    requires Inv(hash, source, l) && b in l.data
    ensures b.index < BlockCount(|source|) && b == SourceBlock(source, b.index)
  {}

  lemma {:induction false} RunContent(hash: Hash, source: seq<Byte>, l: Lane, steps: seq<Step>)
    requires Inv(hash, source, l) && ContentInv(hash, source, l) && IsRun(hash, source, l, steps)
    ensures ContentInv(hash, source, After(hash, source, l, steps))
    decreases |steps|
  {
    hide Inv, Apply, Wf, Enabled, ContentInv;
    if steps != [] {
      StepInv(hash, source, l, steps[0]);
      ContentStep(hash, source, l, steps[0]);
      RunContent(hash, source, Apply(hash, source, l, steps[0]), steps[1..]);
    }
  }

  lemma {:induction false} RunKeepsEarly(hash: Hash, source: seq<Byte>, l: Lane, steps: seq<Step>)
    requires IsRun(hash, source, l, steps)
    ensures After(hash, source, l, steps).early == l.early
    decreases |steps|
  {
    if steps != [] {
      RunKeepsEarly(hash, source, Apply(hash, source, l, steps[0]), steps[1..]);
    }
  }

  /**
   Whatever the part file and the resume record held at the start, and whatever the
   network does: a file verified in this run is the source, byte for byte.
   */
  lemma VerifiedIsSource(hash: Hash, source: seq<Byte>, part: Option<seq<Byte>>, final: Option<seq<Byte>>,
                         record: Option<Record>, steps: seq<Step>)
    requires Injective(hash)
    requires IsRun(hash, source, StartLane(|source|, part, final, record), steps)
    ensures var start := StartLane(|source|, part, final, record);
            var m := After(hash, source, start, steps);
            m.rx.verified && !start.rx.verified ==> m.rx.part == source
  {
    var start := StartLane(|source|, part, final, record);
    StartInv(hash, source, part, final, record);
    hide StartLane, Apply, Enabled, Inv;
    assert ContentInv(hash, source, start) by { StartEarly(|source|, part, final, record); }
    RunContent(hash, source, start, steps);
    RunKeepsEarly(hash, source, start, steps);
    StartEarly(|source|, part, final, record);
  }

  lemma StartEarly(size: nat, part: Option<seq<Byte>>, final: Option<seq<Byte>>, record: Option<Record>)
    ensures var l := StartLane(size, part, final, record);
            l.early == l.rx.verified && l.epoch == 0 && l.rx.size == size
  {}

  // ---- set bits tell the truth -------------------------------------------------

  /** Every received block holds the source's bytes, and the part file has the right length. */
  ghost predicate AllHonest(source: seq<Byte>, l: Lane) {
    && !l.early
    && |l.rx.part| == |source| == l.rx.size
    && forall k | k in l.rx.have :: Honest(source, l.rx, k)
  }

  /** A complete file of honest blocks is the source. */
  lemma CompleteIsSource(source: seq<Byte>, l: Lane)
    requires AllHonest(source, l) && Full(l.rx.have, BlockCount(|source|))
    ensures l.rx.part == source
  {
    forall k: nat | k < BlockCount(|source|)
      ensures BlockOf(l.rx.part, |source|, k) == BlockOf(source, |source|, k)
    {
      assert k in l.rx.have;
      assert Honest(source, l.rx, k);
    }
    BlocksDetermineFile(l.rx.part, source);
  }

  /** Judging a file of honest blocks never rejects it. */
  lemma JudgedHonest(hash: Hash, source: seq<Byte>, l: Lane)
    requires Unjudged(hash, source, l) && AllHonest(source, l)
    ensures var m := Judged(hash, l, l.rx);
            && AllHonest(source, m) && m.epoch == l.epoch
            && m.rx.have == l.rx.have && m.rx.part == l.rx.part
            && (m.rx.complete && m.rx.expected.Some? ==> m.rx.verified)
  {
    hide DataInv, AckInv, TxInv, SackInv, Received;
    if l.rx.complete { CompleteIsSource(source, l); }
    var m := Judged(hash, l, l.rx);
    assert forall k | k in m.rx.have :: Honest(source, l.rx, k) && Honest(source, m.rx, k);
  }

  /** An absorbed source block keeps blocks honest and only adds to them. */
  lemma AbsorbedAllHonest(source: seq<Byte>, l: Lane, b: Block)
    requires Wf(l.rx) && AllHonest(source, l)
    requires b.index < BlockCount(|source|) && b == SourceBlock(source, b.index)
    ensures AllHonest(source, l.(rx := Absorbed(l.rx, b)))
  {
    hide Wf, Absorbed, Honest, AllBelow, BlockCount;
    var bare := l.(resumed := {});
    assert Trusted(bare) == {};
    AbsorbedHonest(source, bare, b);
    AbsorbedLength(l.rx, b);
  }

  lemma AbsorbedLength(f: FileRx, b: Block)
    requires Wf(f)
    ensures |Absorbed(f, b).part| == |f.part| && Absorbed(f, b).size == f.size && f.have <= Absorbed(f, b).have
  {}

  /** No step ever rejects an honest file, and its bits stay honest. */
  lemma HonestStep(hash: Hash, source: seq<Byte>, l: Lane, step: Step)
    requires Inv(hash, source, l) && AllHonest(source, l) && Enabled(source, l, step)
    ensures var m := Apply(hash, source, l, step);
            AllHonest(source, m) && m.epoch == l.epoch && l.rx.have <= m.rx.have
  {
    hide Inv, Judged, Absorbed, Wf, TakePacket, Honest, TakeBlock;
    InvWf(hash, source, l);
    match step
    case DeliverBlock(b) =>
      InvHasData(hash, source, l, b);
      AbsorbedAllHonest(source, l, b);
      AbsorbedLength(l.rx, b);
      TakeBlockInv(hash, source, l, b);
      TakeBlockRest(l, b);
      HonestSameBytes(source, l.(rx := Absorbed(l.rx, b)), TakeBlock(l, b));
      JudgedHonest(hash, source, TakeBlock(l, b));
    case DeliverDone =>
      var m := l.(done := Arrived, rx := l.rx.(expected := Some(hash(source))));
      DoneInv(hash, source, l);
      HonestSameBytes(source, l, m);
      JudgedHonest(hash, source, m);
      JudgedIgnoresRx(hash, l.(done := Arrived), m.rx);
    case SendSack =>
      HonestSameBytes(source, l, Apply(hash, source, l, step));
    case DeliverSack(p) =>
      TakePacketRest(l, p);
      HonestSameBytes(source, l, Apply(hash, source, l, step));
    case _ =>
      HonestSameBytes(source, l, Apply(hash, source, l, step));
  }

  lemma TakePacketRest(l: Lane, p: Packet)
    ensures TakePacket(l, p).rx == l.rx && TakePacket(l, p).early == l.early && TakePacket(l, p).epoch == l.epoch
  {}

  lemma HonestSameBytes(source: seq<Byte>, l: Lane, m: Lane)
    requires AllHonest(source, l) && m.early == l.early
    requires m.rx.part == l.rx.part && m.rx.size == l.rx.size && m.rx.have == l.rx.have
    ensures AllHonest(source, m)
  {
    assert forall k | k in m.rx.have :: Honest(source, l.rx, k) && Honest(source, m.rx, k);
  }

  lemma {:induction false} HonestRun(hash: Hash, source: seq<Byte>, l: Lane, steps: seq<Step>)
    requires Inv(hash, source, l) && AllHonest(source, l) && IsRun(hash, source, l, steps)
    ensures var m := After(hash, source, l, steps);
            AllHonest(source, m) && m.epoch == l.epoch && l.rx.have <= m.rx.have
    decreases |steps|
  {
    hide Inv, Apply, Wf, Enabled, AllHonest;
    if steps != [] {
      StepInv(hash, source, l, steps[0]);
      HonestStep(hash, source, l, steps[0]);
      HonestRun(hash, source, Apply(hash, source, l, steps[0]), steps[1..]);
    }
  }

  /**
   End-to-end integrity: if the part file is not longer than the file and the resume
   record is true of it, then in every run each set bit means the part file holds
   that block of the source, a complete file is the source, and as soon as its hash
   has arrived it is verified. No `file_bad` is ever sent.
   */
  lemma IntegrityOfRun(hash: Hash, source: seq<Byte>, part: Option<seq<Byte>>, final: Option<seq<Byte>>,
                       record: Option<Record>, steps: seq<Step>)
    requires var start := StartLane(|source|, part, final, record);
             AllHonest(source, start) && IsRun(hash, source, start, steps)
    ensures var start := StartLane(|source|, part, final, record);
            var m := After(hash, source, start, steps);
            && (forall k | k in m.rx.have :: Honest(source, m.rx, k))
            && m.epoch == 0 && FileBad !in m.acks
            && (m.rx.complete ==> m.rx.part == source)
            && (m.rx.complete && m.done == Arrived ==> m.rx.verified)
  {
    var start := StartLane(|source|, part, final, record);
    StartInv(hash, source, part, final, record);
    StartEarly(|source|, part, final, record);
    HonestRun(hash, source, start, steps);
    RunInv(hash, source, start, steps);
    var m := After(hash, source, start, steps);
    hide StartLane, IsRun, After, Enabled, Received, DataInv, SackInv;
    if m.rx.complete { CompleteIsSource(source, m); }
  }

  /** When a start is honest: the record is true of the part file, which is not too long. */
  lemma HonestStart(source: seq<Byte>, part: Option<seq<Byte>>, final: Option<seq<Byte>>, record: Option<Record>)
    requires !StartRx(|source|, part, final, record).verified
    requires part.Some? ==> |part.value| <= |source|
    requires record.Some? && part.Some? ==>
               forall k | k in Marked(record.value.have, BlockCount(|source|)) ::
                 Honest(source, StartRx(|source|, part, final, record), k)
    ensures AllHonest(source, StartLane(|source|, part, final, record))
  {}

  // ---- how often a file can be rejected ------------------------------------------

  /** The part file keeps its length, and a step rejects a file at most once. */
  lemma StepKeepsLength(hash: Hash, source: seq<Byte>, l: Lane, step: Step)
    requires Inv(hash, source, l) && Enabled(source, l, step)
    ensures var m := Apply(hash, source, l, step);
            && (0 < BlockCount(|source|) ==> |m.rx.part| == |l.rx.part|)
            && (|l.rx.part| == |source| ==> |m.rx.part| == |source|)
            && l.epoch <= m.epoch <= l.epoch + 1 && m.early == l.early
  {
    hide DataInv, AckInv, TxInv, SackInv, Received, Honest, Absorbed, Wf;
    if step.DeliverBlock? { AbsorbedLength(l.rx, step.b); }
  }

  /** A part file of the right length is rejected at most once. */
  ghost predicate OneReset(source: seq<Byte>, l: Lane) {
    !l.early && |l.rx.part| == |source| && l.epoch <= 1
  }

  lemma OneResetStep(hash: Hash, source: seq<Byte>, l: Lane, step: Step)
    requires Inv(hash, source, l) && OneReset(source, l) && Enabled(source, l, step)
    ensures OneReset(source, Apply(hash, source, l, step))
  {
    hide Apply, Enabled, Honest, AckInv, TxInv, DataInv, SackInv;
    StepKeepsLength(hash, source, l, step);
    if l.epoch == 1 {
      assert AllHonest(source, l);
      HonestStep(hash, source, l, step);
    }
  }

  /**
   With a part file that is not too long, the receiver rejects a file at most once,
   however wrong the resume record was: what it receives afterwards is genuine.
   */
  lemma {:induction false} RejectedAtMostOnce(hash: Hash, source: seq<Byte>, l: Lane, steps: seq<Step>)
    requires Inv(hash, source, l) && OneReset(source, l) && IsRun(hash, source, l, steps)
    ensures OneReset(source, After(hash, source, l, steps))
    decreases |steps|
  {
    hide Inv, Apply, Wf, Enabled, OneReset;
    if steps != [] {
      StepInv(hash, source, l, steps[0]);
      OneResetStep(hash, source, l, steps[0]);
      RejectedAtMostOnce(hash, source, Apply(hash, source, l, steps[0]), steps[1..]);
    }
  }

  lemma {:induction false} RunKeepsLength(hash: Hash, source: seq<Byte>, l: Lane, steps: seq<Step>)
    requires Inv(hash, source, l) && IsRun(hash, source, l, steps) && 0 < BlockCount(|source|)
    ensures |After(hash, source, l, steps).rx.part| == |l.rx.part|
    decreases |steps|
  {
    hide Inv, Apply, Wf, Enabled;
    if steps != [] {
      StepInv(hash, source, l, steps[0]);
      StepKeepsLength(hash, source, l, steps[0]);
      RunKeepsLength(hash, source, Apply(hash, source, l, steps[0]), steps[1..]);
    }
  }

  /** A part file left longer than the file is never verified: nothing shortens it. */
  lemma OverlongNeverVerifies(hash: Hash, source: seq<Byte>, part: seq<Byte>, final: Option<seq<Byte>>,
                              record: Option<Record>, steps: seq<Step>)
    requires Injective(hash) && 0 < |source| < |part|
    requires !StartRx(|source|, Some(part), final, record).verified
    requires IsRun(hash, source, StartLane(|source|, Some(part), final, record), steps)
    ensures !After(hash, source, StartLane(|source|, Some(part), final, record), steps).rx.verified
  {
    VerifiedIsSource(hash, source, Some(part), final, record, steps);
    StartInv(hash, source, Some(part), final, record);
    RunKeepsLength(hash, source, StartLane(|source|, Some(part), final, record), steps);
  }

  /** A complete file of genuine blocks passes its check exactly when the part file has the file's length. */
  lemma VerdictOnGenuineBlocks(hash: Hash, source: seq<Byte>, f: FileRx)
    requires Injective(hash) && 0 < |source| && f.size == |source| <= |f.part|
    requires f.complete && !f.verified && f.expected == Some(hash(source))
    requires forall k: nat | k < BlockCount(|source|) :: Honest(source, f, k)
    ensures MaybeVerify(hash, f).acks == [FileOk] <==> |f.part| == |source|
  {
    if |f.part| == |source| {
      assert forall k: nat | k < BlockCount(|source|) ::
          Honest(source, f, k) && BlockOf(f.part, |source|, k) == BlockOf(source, |source|, k);
      BlocksDetermineFile(f.part, source);
    }
  }
}
