/** Every step of a file's transfer keeps the invariant `Transfer.Inv`. */
module TransferInvariant {
  import opened Wrappers
  import opened Manifest
  import opened Runs
  import opened Receiver
  import opened Sacks
  import opened Sender
  import opened Transfer

  /** The invariant with the receiver's file not yet judged. */
  ghost predicate Unjudged(hash: Hash, source: seq<Byte>, l: Lane) {
    && Wf(l.rx.(expected := None))
    && RxInv(hash, source, l)
    && DataInv(source, l)
    && AckInv(l)
    && TxInv(source, l)
    && SackInv(source, l)
  }

  // ---- start ---------------------------------------------------------------

  lemma StartInv(hash: Hash, source: seq<Byte>, part: Option<seq<Byte>>, final: Option<seq<Byte>>,
                 record: Option<Record>)
    ensures Inv(hash, source, StartLane(|source|, part, final, record))
  {
    var l := StartLane(|source|, part, final, record);
    StartRxWf(|source|, part, final, record);
    if !l.early { StartSkip(source, l); }
  }

  lemma StartRxWf(size: nat, part: Option<seq<Byte>>, final: Option<seq<Byte>>, record: Option<Record>)
    ensures var f := StartRx(size, part, final, record);
            Wf(f) && f.size == size && f.expected == None && f.have <= AllBelow(BlockCount(size))
  {}

  lemma StartSkip(source: seq<Byte>, l: Lane)
    requires !l.early && l.txEpoch == 0 && l.rx.size == |source| && l.resumed == l.rx.have
    ensures StartFile(|source|, HaveRuns(l.rx)).skip == SkipOf(source, l)
  {}

  // ---- the receiver judges a file -------------------------------------------

  lemma JudgedInv(hash: Hash, source: seq<Byte>, l: Lane)
    requires Unjudged(hash, source, l)
    ensures Inv(hash, source, Judged(hash, l, l.rx))
  {
    hide Received, Honest, PacketOk, AllBelow, MakeSack, Marked, FirstRuns, SourceBlock;
    MaybeVerifyWf(hash, l.rx);
    var r := MaybeVerify(hash, l.rx);
    if r.acks == [] {
      assert l.acks + r.acks == l.acks;
    } else if r.acks == [FileOk] {
      VerifiedInv(hash, source, l);
    } else {
      ResetInv(hash, source, l);
    }
  }

  lemma VerifiedInv(hash: Hash, source: seq<Byte>, l: Lane)
    requires Unjudged(hash, source, l) && MaybeVerify(hash, l.rx).acks == [FileOk]
    ensures var m := Judged(hash, l, l.rx);
            RxInv(hash, source, m) && DataInv(source, m) && AckInv(m) && TxInv(source, m) && SackInv(source, m)
  {
    hide Received, AllBelow, MakeSack, Marked, FirstRuns, SourceBlock;
    var m := Judged(hash, l, l.rx);
    assert l.rx.Blocks() > 0 ==> m.rx.part == l.rx.part;
    assert forall k | k in m.rx.have && k !in Trusted(m) :: Honest(source, l.rx, k) && Honest(source, m.rx, k);
    forall p | p in Packets(m) ensures PacketOk(source, m, p) {
      assert PacketOk(source, l, p);
    }
  }

  lemma ResetInv(hash: Hash, source: seq<Byte>, l: Lane)
    requires Unjudged(hash, source, l) && MaybeVerify(hash, l.rx).acks == [FileBad]
    ensures var m := Judged(hash, l, l.rx);
            RxInv(hash, source, m) && DataInv(source, m) && AckInv(m) && TxInv(source, m) && SackInv(source, m)
  {
    hide AllBelow, MakeSack, Marked, FirstRuns, SourceBlock, Honest;
    var m := Judged(hash, l, l.rx);
    assert BlockCount(|source|) == 0 ==> source == [];
    assert Bads(l.epoch - l.txEpoch) + [FileBad] == Bads(m.epoch - m.txEpoch);
    forall p | p in Packets(m) ensures PacketOk(source, m, p) {
      assert PacketOk(source, l, p);
    }
  }

  // ---- the receiver takes a block ---------------------------------------------

  lemma AbsorbedInv(hash: Hash, source: seq<Byte>, l: Lane, b: Block)
    requires Inv(hash, source, l) && b in l.data
    ensures Unjudged(hash, source, l.(rx := Absorbed(l.rx, b)))
  {
    hide Absorbed, Wf, Received, Honest, PacketOk, AllBelow, MakeSack, Marked, FirstRuns, SourceBlock;
    var m := l.(rx := Absorbed(l.rx, b));
    AbsorbedFile(source, l.rx, b);
    AbsorbedReceived(source, l, b);
    AbsorbedHonest(source, l, b);
    forall p | p in Packets(m) ensures PacketOk(source, m, p) {
      AbsorbedPacket(source, l, b, p);
    }
  }

  lemma TakeBlockInv(hash: Hash, source: seq<Byte>, l: Lane, b: Block)
    requires Inv(hash, source, l) && b in l.data
    ensures Unjudged(hash, source, TakeBlock(l, b))
  {
    hide Absorbed, Wf, Received, Honest, PacketOk, AllBelow, MakeSack, Marked, FirstRuns, SourceBlock;
    AbsorbedInv(hash, source, l, b);
    VerifiedIsComplete(l.rx);
    var k, m := l.(rx := Absorbed(l.rx, b)), TakeBlock(l, b);
    forall p | p in Packets(m) ensures PacketOk(source, m, p) {
      if p in Packets(k) { KeptPacket(source, k, m, p); } else { NewPacket(hash, source, k, m, p); }
    }
  }

  lemma VerifiedIsComplete(f: FileRx)
    requires Wf(f)
    ensures f.verified ==> f.complete
  {}

  lemma AbsorbedFile(source: seq<Byte>, f: FileRx, b: Block)
    requires Wf(f)
    ensures var g := Absorbed(f, b);
            && Wf(g.(expected := None))
            && g.size == f.size && g.expected == f.expected && g.verified == f.verified
            && f.have <= g.have && (f.complete ==> g.complete)
  {
    if Acceptable(f, b) {
      TouchedFits(f, b);
      if b.index !in f.have {
        StoredWf(Touched(f, b), One(b));
      }
    }
  }

  lemma TouchedFits(f: FileRx, b: Block)
    requires Wf(f) && Acceptable(f, b)
    ensures Wf(Touched(f, b))
    ensures b.index !in f.have ==> RunFits(Touched(f, b), One(b))
  {}

  lemma AbsorbedReceived(source: seq<Byte>, l: Lane, b: Block)
    requires Wf(l.rx) && l.rx.size == |source|
    requires Received(l.rx.have, Trusted(l), BlockCount(|source|), l.rx.frontier)
    ensures var g := Absorbed(l.rx, b);
            Received(g.have, Trusted(l), BlockCount(|source|), g.frontier)
  {
    hide Overwrite, BlockCount, BlockLen, AllBelow, Trusted;
    if Acceptable(l.rx, b) {
      TouchedFits(l.rx, b);
      assert b.index !in l.rx.have ==> Stored(Touched(l.rx, b), One(b)).have == l.rx.have + {b.index} by {
        assert Between(b.index, b.index + 1) == {b.index};
      }
    }
  }

  /** Only the written block changes, and it becomes the source's block. */
  lemma AbsorbedHonest(source: seq<Byte>, l: Lane, b: Block)
    requires Wf(l.rx) && l.rx.size == |source|
    requires b.index < BlockCount(|source|) && b == SourceBlock(source, b.index)
    requires forall k | k in l.rx.have && k !in Trusted(l) :: Honest(source, l.rx, k)
    ensures var g := Absorbed(l.rx, b);
            forall k | k in g.have && k !in Trusted(l) :: Honest(source, g, k)
  {
    var g := Absorbed(l.rx, b);
    if Acceptable(l.rx, b) && b.index !in l.rx.have {
      TouchedFits(l.rx, b);
      forall k | k in g.have && k !in Trusted(l) ensures Honest(source, g, k) {
        hide Wf, AllBelow, Overwrite, BlockCount;
        StoredBlock(Touched(l.rx, b), b, k);
      }
    }
  }

  lemma StoredBlock(f: FileRx, b: Block, k: nat)
    requires Wf(f) && RunFits(f, One(b)) && |b.payload| == BlockLen(f.size, b.index)
    ensures Stored(f, One(b)).size == f.size && |Stored(f, One(b)).part| == |f.part|
    ensures k in Stored(f, One(b)).have ==> k == b.index || k in f.have
    ensures f.size <= |f.part| && k < f.Blocks() ==>
              (BlockOf(Stored(f, One(b)).part, f.size, k)
               == if k == b.index then b.payload else BlockOf(f.part, f.size, k))
  {
    if k < f.Blocks() {
      WriteBlock(f.part, f.size, b.index, b.payload, k);
    }
  }

  lemma AbsorbedPacket(source: seq<Byte>, l: Lane, b: Block, p: Packet)
    requires Wf(l.rx) && PacketOk(source, l, p) && l.rx.have <= Absorbed(l.rx, b).have
    ensures PacketOk(source, l.(rx := Absorbed(l.rx, b)), p)
  {
    hide Absorbed, Wf, Received, MakeSack;
  }

  // ---- the other steps --------------------------------------------------------

  lemma DoneInv(hash: Hash, source: seq<Byte>, l: Lane)
    requires Inv(hash, source, l) && l.done == InFlight
    ensures Unjudged(hash, source, l.(done := Arrived, rx := l.rx.(expected := Some(hash(source)))))
  {
    hide Wf, Received, AllBelow, MakeSack, Marked, FirstRuns, SourceBlock;
    var m := l.(done := Arrived, rx := l.rx.(expected := Some(hash(source))));
    assert m.rx.(expected := None) == l.rx;
    assert forall k | k in m.rx.have && k !in Trusted(m) :: Honest(source, l.rx, k) && Honest(source, m.rx, k);
    forall p | p in Packets(m) ensures PacketOk(source, m, p) {
      assert PacketOk(source, l, p);
    }
  }

  lemma SendDataInv(hash: Hash, source: seq<Byte>, l: Lane, k: nat)
    requires Inv(hash, source, l) && k < BlockCount(|source|)
    ensures Inv(hash, source, l.(data := l.data + {SourceBlock(source, k)}))
  {
    hide Wf, Received, Honest, AllBelow, MakeSack, Marked, FirstRuns;
    var m := l.(data := l.data + {SourceBlock(source, k)});
    forall p | p in Packets(m) ensures PacketOk(source, m, p) {
      assert PacketOk(source, l, p);
    }
  }

  /** Changes on the sender's side that leave SACK, skip set and verdict alone. */
  lemma SweepInv(hash: Hash, source: seq<Byte>, l: Lane, pos: nat, finish: bool)
    requires Inv(hash, source, l) && !l.tx.swept && !l.tx.ok
    requires pos <= BlockCount(|source|) && (finish ==> pos == BlockCount(|source|))
    ensures Inv(hash, source, l.(tx := l.tx.(pos := pos, swept := finish), done := if finish then InFlight else l.done))
  {
    hide Wf, Received, AllBelow, MakeSack, Marked, FirstRuns, SourceBlock;
    var m := l.(tx := l.tx.(pos := pos, swept := finish), done := if finish then InFlight else l.done);
    assert forall k | k in m.rx.have && k !in Trusted(m) :: Honest(source, l.rx, k) && Honest(source, m.rx, k);
    forall p | p in Packets(m) ensures PacketOk(source, m, p) {
      assert PacketOk(source, l, p);
    }
  }

  lemma SendSackInv(hash: Hash, source: seq<Byte>, l: Lane)
    requires Inv(hash, source, l) && Enabled(source, l, SendSack)
    ensures Inv(hash, source, Apply(hash, source, l, SendSack))
  {
    hide Wf, Received, AllBelow, MakeSack, Marked, FirstRuns, SourceBlock, RxInv, PacketOk;
    var m := Apply(hash, source, l, SendSack);
    SameButDirty(hash, source, l);
    forall p | p in Packets(m) ensures PacketOk(source, m, p) {
      if p in Packets(l) {
        KeptPacket(source, l, m, p);
      } else {
        NewPacket(hash, source, l, m, p);
      }
    }
  }

  lemma SameButDirty(hash: Hash, source: seq<Byte>, l: Lane)
    requires Wf(l.rx) && RxInv(hash, source, l)
    ensures Wf(l.rx.(dirty := false))
    ensures forall s :: RxInv(hash, source, l.(rx := l.rx.(dirty := false), sacks := s))
  {
    assert forall k | k in l.rx.have && k !in Trusted(l) :: Honest(source, l.rx, k);
  }

  lemma SameAcks(l: Lane, m: Lane)
    requires AckInv(l) && m.acks == l.acks && m.epoch == l.epoch && m.txEpoch == l.txEpoch
    requires m.rx == l.rx && m.tx.ok == l.tx.ok
    ensures AckInv(m)
  {}

  lemma KeptPacket(source: seq<Byte>, l: Lane, m: Lane, p: Packet)
    requires PacketOk(source, l, p) && m.epoch == l.epoch && m.resumed == l.resumed && l.rx.have <= m.rx.have
    ensures PacketOk(source, m, p)
  {
    hide MakeSack, Received;
  }

  lemma NewPacket(hash: Hash, source: seq<Byte>, l: Lane, m: Lane, p: Packet)
    requires RxInv(hash, source, l)
    requires m.epoch == l.epoch && m.resumed == l.resumed && m.rx.have == l.rx.have
    requires p == Packet(MakeSack(l.rx.have, l.rx.Blocks(), l.rx.frontier), l.epoch, l.rx.have, l.rx.frontier)
    ensures PacketOk(source, m, p)
  {
    hide MakeSack, Honest;
  }

  lemma TakePacketInv(hash: Hash, source: seq<Byte>, l: Lane, p: Packet)
    requires Inv(hash, source, l) && p in l.sacks && l.txEpoch <= p.epoch
    ensures Inv(hash, source, TakePacket(l, p))
  {
    hide Wf, Received, AllBelow, MakeSack, Marked, FirstRuns, SourceBlock, AckedBy;
    var m := TakePacket(l, p);
    BookedStep(hash, source, l, p);
    assert forall k | k in m.rx.have && k !in Trusted(m) :: Honest(source, l.rx, k) && Honest(source, m.rx, k);
    forall q | q in Packets(m) ensures PacketOk(source, m, q) {
      assert PacketOk(source, l, q);
    }
  }

  /** Stored SACKs count more and more, so that the last one is the best. */
  lemma BookedStep(hash: Hash, source: seq<Byte>, l: Lane, p: Packet)
    requires Inv(hash, source, l) && p in l.sacks
    ensures TakePacket(l, p).tx.acked == Booked(source, TakePacket(l, p))
  {
    hide Wf, RxInv, DataInv, AckInv, AckedBy, Reports, MakeSack;
    assert PacketOk(source, l, p);
    MadeReports(|source|, p.had, p.seen);
    AckedGrows(|source|, p.sack, p.had, p.sack, p.had);
    if l.heard.Some? {
      var q := l.heard.value;
      assert PacketOk(source, l, q);
      MadeReports(|source|, q.had, q.seen);
      if !Outdated(l.tx, p.sack) { AckedGrows(|source|, q.sack, q.had, p.sack, p.had); }
    }
  }

  lemma DeliverAckInv(hash: Hash, source: seq<Byte>, l: Lane)
    requires Inv(hash, source, l) && Enabled(source, l, DeliverAck)
    ensures Inv(hash, source, Apply(hash, source, l, DeliverAck))
  {
    hide Wf, Received, AllBelow, MakeSack, Marked, FirstRuns, SourceBlock;
    var m := Apply(hash, source, l, DeliverAck);
    HeadOfAcks(l);
    assert forall k | k in m.rx.have && k !in Trusted(m) :: Honest(source, l.rx, k) && Honest(source, m.rx, k);
    forall p | p in Packets(m) ensures PacketOk(source, m, p) {
      assert PacketOk(source, l, p);
    }
  }

  /** Verdicts arrive in order: first every `file_bad`, then the one `file_ok`. */
  lemma HeadOfAcks(l: Lane)
    requires AckInv(l) && l.acks != []
    ensures !l.tx.ok
    ensures l.acks[0] == FileBad <==> l.txEpoch < l.epoch
    ensures l.acks[0] == FileBad ==>
              l.acks[1..] == Bads(l.epoch - l.txEpoch - 1) + (if l.rx.verified then [FileOk] else [])
    ensures l.acks[0] == FileOk ==> l.acks[1..] == [] && l.rx.verified
  {}

  /** Every enabled step keeps the invariant. */
  lemma StepInv(hash: Hash, source: seq<Byte>, l: Lane, step: Step)
    requires Inv(hash, source, l) && Enabled(source, l, step)
    ensures Inv(hash, source, Apply(hash, source, l, step))
  {
    hide RxInv, DataInv, AckInv, TxInv, SackInv, Wf, Judged, Absorbed, Repairable, SourceBlock;
    match step
    case SweepBlock =>
      SweepInv(hash, source, l, l.tx.pos + 1, false);
      var m := l.(tx := l.tx.(pos := l.tx.pos + 1, swept := false), done := l.done);
      if l.tx.pos !in l.tx.skip {
        SendDataInv(hash, source, m, l.tx.pos);
      } else {
        assert l.data + {} == l.data;
      }
    case FinishSweep =>
      SweepInv(hash, source, l, l.tx.pos, true);
    case Resend(k) =>
      SendDataInv(hash, source, l, k);
    case DeliverBlock(b) =>
      TakeBlockInv(hash, source, l, b);
      JudgedInv(hash, source, TakeBlock(l, b));
    case DeliverDone =>
      DoneInv(hash, source, l);
      JudgedInv(hash, source, l.(done := Arrived, rx := l.rx.(expected := Some(hash(source)))));
      JudgedIgnoresRx(hash, l.(done := Arrived), l.rx.(expected := Some(hash(source))));
    case SendSack =>
      SendSackInv(hash, source, l);
    case DeliverSack(p) =>
      TakePacketInv(hash, source, l, p);
    case DeliverAck =>
      DeliverAckInv(hash, source, l);
  }

  lemma JudgedIgnoresRx(hash: Hash, l: Lane, f: FileRx)
    ensures Judged(hash, l.(rx := f), f) == Judged(hash, l, f)
  {}
}
