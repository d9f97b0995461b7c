/**
 What the sender's repair rests on in every reachable state: the state kept at the
 two ends, and the SACKs between them, fit together.
 */
module TransferRepair {
  import opened Wrappers
  import opened Manifest
  import opened Runs
  import opened Receiver
  import opened Sacks
  import opened Sender
  import opened Transfer
  import opened TransferInvariant
  import opened TransferIntegrity

  /** The sender skips only blocks that came from the resume record. */
  lemma SkipWithinTrusted(hash: Hash, source: seq<Byte>, l: Lane)
    requires Inv(hash, source, l) && !l.early && l.txEpoch == l.epoch
    ensures l.tx.skip <= Trusted(l)
    ensures |RunsFrom(l.resumed, BlockCount(|source|), 0)| <= MAX_HAVE_RUNS ==> l.tx.skip == Trusted(l)
  {
    hide Wf, DataInv, AckInv, SackInv, Honest, Marked, FirstRuns;
    if l.epoch == 0 {
      FirstRunsMarked(l.resumed, BlockCount(|source|), MAX_HAVE_RUNS);
    }
  }

  /**
   The joint invariant behind repair: unless a `file_bad` is in flight the sender
   skips only blocks the receiver holds; and every block the receiver holds lies
   below its frontier or came from the resume record of this epoch.
   */
  lemma SkipIsHeld(hash: Hash, source: seq<Byte>, l: Lane)
    requires Inv(hash, source, l) && !l.early
    ensures FileBad in l.acks <==> l.txEpoch < l.epoch
    ensures FileBad !in l.acks ==> l.tx.skip <= l.rx.have
    ensures forall k | k in l.rx.have :: k < l.rx.frontier || k in Trusted(l)
  {
    assert l.txEpoch < l.epoch ==> l.acks[0] == FileBad;
    if l.txEpoch == l.epoch {
      SkipWithinTrusted(hash, source, l);
    }
  }

  /**
   Repair in any reachable state, once the sender has handled every `file_bad`: the
   candidates contain the lowest block missing when the stored SACK was made; they
   contain no block received by then, and with few holes they are exactly the
   missing blocks, provided the resumed blocks fitted into `accept`.
   */
  lemma RepairIsExact(hash: Hash, source: seq<Byte>, l: Lane)
    requires Inv(hash, source, l) && !l.early && l.txEpoch == l.epoch && l.tx.swept
    requires l.heard.Some? && |l.heard.value.had| < BlockCount(|source|)
    ensures var had, n := l.heard.value.had, BlockCount(|source|);
            && RunEnd(had, n, 0) < n && RunEnd(had, n, 0) !in had && Repairable(l.tx, RunEnd(had, n, 0))
            && (|RunsFrom(l.resumed, n, 0)| <= MAX_HAVE_RUNS ==>
                  forall k: nat :: (Repairable(l.tx, k) ==> k !in had)
                                && (FewHoles(had, n) ==> (Repairable(l.tx, k) <==> k < n && k !in had)))
  {
    var p, n := l.heard.value, BlockCount(|source|);
    SkipWithinTrusted(hash, source, l);
    HeardIsCurrent(hash, source, l);
    hide Inv, MakeSack, FewHoles, Candidate, Trusted;
    LowestMissingIsCandidate(p.had, Trusted(l), n, p.seen, l.tx.skip);
    if |RunsFrom(l.resumed, n, 0)| <= MAX_HAVE_RUNS {
      forall k: nat
        ensures Repairable(l.tx, k) ==> k !in p.had
        ensures FewHoles(p.had, n) ==> (Repairable(l.tx, k) <==> k < n && k !in p.had)
      {
        CandidatesAreMissing(p.had, Trusted(l), n, p.seen, k);
      }
    }
  }

  /** Before the first SACK everything is repaired but what the receiver resumed. */
  lemma RepairBeforeReport(hash: Hash, source: seq<Byte>, l: Lane, k: nat)
    requires Inv(hash, source, l) && !l.early && l.txEpoch == l.epoch && l.tx.swept && l.heard.None?
    ensures k < BlockCount(|source|) && k !in Trusted(l) ==> Repairable(l.tx, k)
    ensures |RunsFrom(l.resumed, BlockCount(|source|), 0)| <= MAX_HAVE_RUNS ==>
              (Repairable(l.tx, k) <==> k < BlockCount(|source|) && k !in Trusted(l))
  {
    SkipWithinTrusted(hash, source, l);
    hide Wf, RxInv, DataInv, AckInv, Marked, FirstRuns, BlockCount, Trusted, Candidate;
  }

  lemma HeardIsCurrent(hash: Hash, source: seq<Byte>, l: Lane)
    requires Inv(hash, source, l) && l.txEpoch == l.epoch && l.heard.Some?
    ensures var p, n := l.heard.value, BlockCount(|source|);
            && l.tx.sack == Some(MakeSack(p.had, n, p.seen)) && l.tx.Blocks() == n
            && Received(p.had, Trusted(l), n, p.seen) && p.had <= l.rx.have
  {
    hide Wf, RxInv, DataInv, AckInv, MakeSack, Received, Marked, FirstRuns;
    assert PacketOk(source, l, l.heard.value);
  }

  // ---- reordered SACKs ---------------------------------------------------------

  /** The received sets reported between two resets form a growing chain. */
  ghost predicate ChainInv(l: Lane) {
    forall p, q | p in Packets(l) && q in Packets(l) && p.epoch == q.epoch :: p.had <= q.had || q.had <= p.had
  }

  lemma ChainStep(hash: Hash, source: seq<Byte>, l: Lane, step: Step)
    requires Inv(hash, source, l) && ChainInv(l) && Enabled(source, l, step)
    ensures ChainInv(Apply(hash, source, l, step))
  {
    hide Wf, RxInv, DataInv, AckInv, TxInv, Received, MakeSack, Absorbed;
    var m := Apply(hash, source, l, step);
    if step.SendSack? || step.DeliverBlock? {
      forall p | p in Packets(l) && p.epoch == l.epoch ensures p.had <= l.rx.have {
        assert PacketOk(source, l, p);
      }
      if step.DeliverBlock? { AbsorbedFile(source, l.rx, step.b); }
    } else {
      assert Packets(m) <= Packets(l);
    }
  }

  /** The stored SACK is at least as far as `p`. */
  ghost predicate Ahead(l: Lane, p: Packet) {
    l.heard.Some? && l.tx.sack == Some(l.heard.value.sack) && p.sack.count <= l.heard.value.sack.count
  }

  /** Until a `file_bad` is handled the stored count and the acked bytes only grow. */
  lemma AheadStep(hash: Hash, source: seq<Byte>, l: Lane, step: Step, p: Packet)
    requires Wf(l.rx) && Enabled(source, l, step)
    ensures var m := Apply(hash, source, l, step);
            && l.txEpoch <= m.txEpoch
            && l.sacks <= m.sacks
            && (m.txEpoch == l.txEpoch && Ahead(l, p) ==> Ahead(m, p))
            && (m.txEpoch == l.txEpoch ==> l.tx.acked <= m.tx.acked)
  {
    hide Wf, Absorbed, MakeSack, AckedBy;
  }

  lemma {:induction false} AheadRun(hash: Hash, source: seq<Byte>, l: Lane, steps: seq<Step>, p: Packet)
    requires IsRun(hash, source, l, steps)
    ensures var m := After(hash, source, l, steps);
            && l.txEpoch <= m.txEpoch
            && l.sacks <= m.sacks
            && (m.txEpoch == l.txEpoch && Ahead(l, p) ==> Ahead(m, p))
            && (m.txEpoch == l.txEpoch ==> l.tx.acked <= m.tx.acked)
    decreases |steps|
  {
    hide Apply, Enabled, Wf, Ahead;
    if steps != [] {
      AheadStep(hash, source, l, steps[0], p);
      AheadRun(hash, source, Apply(hash, source, l, steps[0]), steps[1..], p);
    }
  }

  lemma {:induction false} ChainRun(hash: Hash, source: seq<Byte>, l: Lane, steps: seq<Step>)
    requires Inv(hash, source, l) && ChainInv(l) && IsRun(hash, source, l, steps)
    ensures ChainInv(After(hash, source, l, steps))
    decreases |steps|
  {
    hide Inv, Apply, Enabled, Wf, ChainInv;
    if steps != [] {
      StepInv(hash, source, l, steps[0]);
      ChainStep(hash, source, l, steps[0]);
      ChainRun(hash, source, Apply(hash, source, l, steps[0]), steps[1..]);
    }
  }

  /**
   Reordering and repeating SACKs is harmless between resets: whatever arrives after
   `p`, the stored SACK reports everything `p` reported if both stem from the same
   epoch, and the acked bytes never fall below what `p` confirmed.
   */
  lemma SackReorderHarmless(hash: Hash, source: seq<Byte>, l: Lane, p: Packet, steps: seq<Step>)
    requires Inv(hash, source, l) && ChainInv(l) && Enabled(source, l, DeliverSack(p))
    requires IsRun(hash, source, TakePacket(l, p), steps)
    requires After(hash, source, TakePacket(l, p), steps).txEpoch == l.txEpoch
    ensures var m := After(hash, source, TakePacket(l, p), steps);
            && m.heard.Some? && m.tx.sack == Some(m.heard.value.sack)
            && (p.epoch == m.heard.value.epoch ==> p.had <= m.heard.value.had)
            && m.tx.acked >= TakeSack(l.tx, p.sack).acked >= l.tx.acked
  {
    hide Inv, Apply, Wf, ChainInv, IsRun, After, TakePacket, TakeSack;
    var k := TakePacket(l, p);
    TakenIsAhead(hash, source, l, p);
    TakePacketInv(hash, source, l, p);
    TakenChain(hash, source, l, p);
    AheadRun(hash, source, k, steps, p);
    ChainRun(hash, source, k, steps);
    RunInv(hash, source, k, steps);
    SameEpochContained(hash, source, After(hash, source, k, steps), p);
  }

  lemma TakenChain(hash: Hash, source: seq<Byte>, l: Lane, p: Packet)
    requires Inv(hash, source, l) && ChainInv(l) && Enabled(source, l, DeliverSack(p))
    ensures ChainInv(TakePacket(l, p))
  {
    hide RxInv, DataInv, AckInv, TxInv, SackInv, TakeSack, ChainInv;
    ChainStep(hash, source, l, DeliverSack(p));
  }

  lemma TakenIsAhead(hash: Hash, source: seq<Byte>, l: Lane, p: Packet)
    requires Inv(hash, source, l) && p in l.sacks
    ensures var m := TakePacket(l, p);
            && Ahead(m, p) && p in m.sacks && m.txEpoch == l.txEpoch
            && m.tx.acked == TakeSack(l.tx, p.sack).acked >= l.tx.acked
  {
    hide Wf, RxInv, DataInv, AckInv, TxInv, PacketOk;
  }

  lemma SameEpochContained(hash: Hash, source: seq<Byte>, m: Lane, p: Packet)
    requires Inv(hash, source, m) && ChainInv(m) && Ahead(m, p) && p in m.sacks
    ensures p.epoch == m.heard.value.epoch ==> p.had <= m.heard.value.had
  {
    hide Wf, RxInv, DataInv, AckInv, TxInv;
    var q := m.heard.value;
    assert PacketOk(source, m, p) && PacketOk(source, m, q);
    assert p.sack.count == |p.had| && q.sack.count == |q.had|;
    if p.epoch == q.epoch && q.had <= p.had {
      SubsetSize(q.had, p.had);
    }
  }
}
