/**
 What the two ends of a file tell about it is exact: over every run the receiver's set and
 frontier are those of the blocks delivered since its last reset, and the bytes the sender
 books are those of the blocks behind the best SACK it has heard since.
 */
module TransferReports {
  import opened Wrappers
  import opened Manifest
  import opened Runs
  import opened Receiver
  import opened Sacks
  import opened Sender
  import opened Transfer
  import opened TransferInvariant
  import opened TransferIntegrity

  // ---- the receiver ------------------------------------------------------------------------

  /** The indices of the delivered blocks, in order. */
  function Delivered(steps: seq<Step>): seq<nat> {
    if steps == [] then []
    else (if steps[0].DeliverBlock? then [steps[0].b.index] else []) + Delivered(steps[1..])
  }

  function Indices(ks: seq<nat>): set<nat> {
    set k | k in ks
  }

  /** One more than the highest index of `ks`, and at least `from`. */
  function Above(from: nat, ks: seq<nat>): nat
    decreases |ks|
  {
    if ks == [] then from else Above(Max(from, ks[0] + 1), ks[1..])
  }

  /** What one step does to the receiver's set and frontier while it goes on. */
  lemma StepArrives(hash: Hash, source: seq<Byte>, l: Lane, step: Step)
    requires Inv(hash, source, l) && Enabled(source, l, step)
    ensures var m := Apply(hash, source, l, step);
            && l.epoch <= m.epoch && (l.rx.verified ==> m.rx.verified)
            && (m.epoch == l.epoch && !m.rx.verified ==>
                  var ks := Delivered([step]);
                  m.rx.have == l.rx.have + Indices(ks) && m.rx.frontier == Above(l.rx.frontier, ks))
            && (m.epoch > l.epoch ==> m.rx.have == {} && m.rx.frontier == 0)
  {
    hide Inv, Apply, Enabled, Wf, Indices, Above;
    assert Delivered([step][1..]) == [];
    if step.DeliverBlock? {
      InFlightIsEnabled(source, l, step.b);
      BlockArrives(hash, source, l, step.b);
      assert Delivered([step]) == [step.b.index];
    } else {
      assert Delivered([step]) == [];
      NothingDelivered(l.rx.frontier);
      InvWf(hash, source, l);
      NothingArrives(hash, source, l, step);
    }
  }

  lemma InFlightIsEnabled(source: seq<Byte>, l: Lane, b: Block)
    ensures Enabled(source, l, DeliverBlock(b)) <==> b in l.data
  {}

  /** Other steps leave the set and the frontier alone, unless the hash that arrives resets the file. */
  lemma NothingArrives(hash: Hash, source: seq<Byte>, l: Lane, step: Step)
    requires Wf(l.rx) && Enabled(source, l, step) && !step.DeliverBlock?
    ensures var m := Apply(hash, source, l, step);
            && l.epoch <= m.epoch && (l.rx.verified ==> m.rx.verified)
            && if m.epoch == l.epoch then m.rx.have == l.rx.have && m.rx.frontier == l.rx.frontier
               else m.rx.have == {} && m.rx.frontier == 0
  {
    hide MakeSack, MaybeVerify, Absorbed, Wf;
    if step.DeliverDone? { VerdictKeeps(hash, l.rx.(expected := Some(hash(source)))); }
  }

  lemma BlockArrives(hash: Hash, source: seq<Byte>, l: Lane, b: Block)
    requires Inv(hash, source, l) && b in l.data
    ensures var m := Apply(hash, source, l, DeliverBlock(b));
            && l.epoch <= m.epoch && (l.rx.verified ==> m.rx.verified)
            && (m.epoch == l.epoch && !m.rx.verified ==>
                  && m.rx.have == l.rx.have + Indices([b.index])
                  && m.rx.frontier == Above(l.rx.frontier, [b.index]))
            && (m.epoch > l.epoch ==> m.rx.have == {} && m.rx.frontier == 0)
  {
    hide AckInv, TxInv, SackInv, MakeSack, Honest, Wf, Absorbed, MaybeVerify, Indices, Above;
    if !l.rx.verified { GenuineAcceptable(hash, source, l, b); }
    TakesBlock(l.rx, b);
    VerdictKeeps(hash, Absorbed(l.rx, b));
  }

  lemma GenuineAcceptable(hash: Hash, source: seq<Byte>, l: Lane, b: Block)
    requires Inv(hash, source, l) && b in l.data && !l.rx.verified
    ensures Acceptable(l.rx, b)
  {
    hide Wf, AckInv, TxInv, SackInv, Honest;
    assert b.index < BlockCount(|source|) && b == SourceBlock(source, b.index);
  }

  lemma TakesBlock(f: FileRx, b: Block)
    requires Wf(f)
    ensures var g := Absorbed(f, b);
            && g.verified == f.verified
            && (Acceptable(f, b) ==>
                  g.have == f.have + Indices([b.index]) && g.frontier == Above(f.frontier, [b.index]))
  {
    hide Overwrite, BlockLen, BlockCount;
    assert Indices([b.index]) == {b.index} && Above(f.frontier, [b.index]) == Max(f.frontier, b.index + 1);
    if Acceptable(f, b) && b.index !in f.have { TouchedFits(f, b); }
  }

  lemma VerdictKeeps(hash: Hash, f: FileRx)
    ensures var r := MaybeVerify(hash, f);
            && (f.verified ==> r.file.verified)
            && if r.acks == [FileBad] then r.file.have == {} && r.file.frontier == 0
               else r.file.have == f.have && r.file.frontier == f.frontier
  {}

  /**
   Between two resets the receiver has exactly what it had and what was delivered, and its
   frontier is one more than the highest of these arrivals, or where it was.
   */
  lemma {:induction false} ReceivedOfRun(hash: Hash, source: seq<Byte>, l: Lane, steps: seq<Step>)
    requires Inv(hash, source, l) && IsRun(hash, source, l, steps)
    ensures var m := After(hash, source, l, steps);
            && l.epoch <= m.epoch && (l.rx.verified ==> m.rx.verified)
            && (m.epoch == l.epoch && !m.rx.verified ==>
                  && m.rx.have == l.rx.have + Indices(Delivered(steps))
                  && m.rx.frontier == Above(l.rx.frontier, Delivered(steps)))
    decreases |steps|
  {
    hide Inv, Apply, Wf, Enabled, Above, Indices, Delivered;
    if steps != [] {
      var step, rest := steps[0], steps[1..];
      var k := Apply(hash, source, l, step);
      StepInv(hash, source, l, step);
      StepArrives(hash, source, l, step);
      ReceivedOfRun(hash, source, k, rest);
      DeliveredFirst(steps);
      AboveJoin(l.rx.frontier, Delivered([step]), Delivered(rest));
    } else {
      NothingDelivered(l.rx.frontier);
    }
  }

  lemma DeliveredFirst(steps: seq<Step>)
    requires steps != []
    ensures Delivered(steps) == Delivered([steps[0]]) + Delivered(steps[1..])
    ensures Indices(Delivered(steps)) == Indices(Delivered([steps[0]])) + Indices(Delivered(steps[1..]))
  {
    assert Delivered([steps[0]][1..]) == [];
  }

  lemma NothingDelivered(from: nat)
    ensures Delivered([]) == [] && Indices([]) == {} && Above(from, []) == from
  {}

  lemma {:induction false} AboveJoin(from: nat, a: seq<nat>, b: seq<nat>)
    ensures Above(from, a + b) == Above(Above(from, a), b)
    decreases |a|
  {
    if a == [] {
      assert a + b == b;
    } else {
      AboveJoin(Max(from, a[0] + 1), a[1..], b);
      assert (a + b)[1..] == a[1..] + b;
    }
  }

  /** The least number that is at least `from` and beyond all of `ks`. */
  lemma {:induction false} AboveIsLeast(from: nat, ks: seq<nat>)
    ensures from <= Above(from, ks) && forall k | k in ks :: k < Above(from, ks)
    ensures Above(from, ks) == from || Above(from, ks) - 1 in ks
    decreases |ks|
  {
    if ks != [] {
      AboveIsLeast(Max(from, ks[0] + 1), ks[1..]);
      assert forall k | k in ks :: k == ks[0] || k in ks[1..];
      assert forall k | k in ks[1..] :: k in ks;
    }
  }

  /**
   A receiver starts with its resumed blocks and the frontier at the first one missing; it
   owes a report exactly if it has all of them and the file is not verified yet.
   */
  lemma StartReceived(source: seq<Byte>, part: Option<seq<Byte>>, final: Option<seq<Byte>>, record: Option<Record>)
    ensures var l := StartLane(|source|, part, final, record);
            && l.rx.have == l.resumed
            && (l.rx.dirty <==> l.rx.complete && !l.rx.verified)
            && (!l.rx.verified ==> forall k: nat | k < l.rx.frontier :: k in l.rx.have)
            && (!l.rx.verified && l.rx.frontier < BlockCount(|source|) ==> l.rx.frontier !in l.rx.have)
  {}

  /**
   The block that completes a file is reported with everything else at once, no report is
   owed after it, and the file is judged if its hash is known.
   */
  lemma CompletingBlock(hash: Hash, source: seq<Byte>, l: Lane, b: Block)
    requires Inv(hash, source, l) && b in l.data && !l.rx.complete
    requires l.rx.have + {b.index} == AllBelow(BlockCount(|source|))
    ensures var m, f := Apply(hash, source, l, DeliverBlock(b)), Absorbed(l.rx, b);
            && !m.rx.dirty
            && Report(f, l.epoch) in m.sacks && Report(f, l.epoch).sack.complete
            && f.have == AllBelow(BlockCount(|source|))
            && (l.done == Arrived ==> |m.acks| == |l.acks| + 1 && (m.rx.verified || m.epoch == l.epoch + 1))
            && (l.done != Arrived ==> m.acks == l.acks && m.rx.complete && !m.rx.verified)
  {
    hide DataInv, AckInv, TxInv, SackInv, Received, Honest, BlockCount, MakeSack, Absorbed, Wf, AllBelow, Acceptable;
    VerifiedIsComplete(l.rx);
    GenuineAcceptable(hash, source, l, b);
    CompletedFile(l.rx, b);
    var f := Absorbed(l.rx, b);
    CompleteReport(f.have, f.Blocks(), f.frontier);
  }

  lemma CompletedFile(f: FileRx, b: Block)
    requires Wf(f) && Acceptable(f, b) && !f.complete && f.have + {b.index} == AllBelow(f.Blocks())
    ensures var g := Absorbed(f, b);
            && g.have == AllBelow(f.Blocks()) && g.size == f.size && g.complete && !g.dirty
            && g.verified == f.verified && g.expected == f.expected
  {
    hide Overwrite, BlockLen, BlockCount, AllBelow;
    TouchedFits(f, b);
    assert b.index in f.have ==> f.have + {b.index} == f.have;
    assert Between(b.index, b.index + 1) == {b.index};
  }

  lemma CompleteReport(have: set<nat>, n: nat, frontier: nat)
    requires have == AllBelow(n)
    ensures MakeSack(have, n, frontier).complete
  {}

  /** A report is owed only if a block has arrived since the last one, or from the start. */
  lemma {:induction false} OwedOfRun(hash: Hash, source: seq<Byte>, l: Lane, steps: seq<Step>)
    requires IsRun(hash, source, l, steps) && steps != [] && steps[0].SendSack?
    ensures After(hash, source, l, steps).rx.dirty ==> Delivered(steps) != []
  {
    hide Wf, Apply, Enabled;
    OwedStep(hash, source, l, steps[0]);
    OwedLater(hash, source, Apply(hash, source, l, steps[0]), steps[1..]);
  }

  lemma OwedStep(hash: Hash, source: seq<Byte>, l: Lane, step: Step)
    requires Wf(l.rx) && Enabled(source, l, step)
    ensures var m := Apply(hash, source, l, step);
            (step.SendSack? ==> !m.rx.dirty) && (m.rx.dirty ==> l.rx.dirty || step.DeliverBlock?)
  {
    hide Absorbed, Wf, MakeSack;
  }

  lemma {:induction false} OwedLater(hash: Hash, source: seq<Byte>, l: Lane, steps: seq<Step>)
    requires IsRun(hash, source, l, steps) && !l.rx.dirty
    ensures After(hash, source, l, steps).rx.dirty ==> Delivered(steps) != []
    decreases |steps|
  {
    hide Wf, Apply, Enabled;
    if steps != [] {
      OwedStep(hash, source, l, steps[0]);
      if !steps[0].DeliverBlock? { OwedLater(hash, source, Apply(hash, source, l, steps[0]), steps[1..]); }
    }
  }

  /** In every reachable lane each hole of a SACK is a block missing then, below one held then. */
  lemma HolesAreBelowHeld(hash: Hash, source: seq<Byte>, l: Lane, p: Packet, k: nat)
    requires Inv(hash, source, l) && p in Packets(l) && InRuns(p.sack.holes, k)
    ensures k !in p.had && exists held: nat :: held in p.had && k < held
  {
    hide Wf, RxInv, DataInv, AckInv, TxInv, MakeSack;
    assert PacketOk(source, l, p);
    var n := BlockCount(|source|);
    FullIffSize(p.had, n);
    NoHolesWhenFull(p.had, n, p.seen);
    SackHoles(p.had, n, p.seen, k);
    HolesBelowHeld(p.had, n, p.seen, k);
  }

  lemma NoHolesWhenFull(had: set<nat>, n: nat, seen: nat)
    ensures |had| == n ==> MakeSack(had, n, seen).holes == []
  {}

  // ---- the sender --------------------------------------------------------------------------

  /**
   In every reachable lane the bytes booked for a file are those of the blocks behind the
   stored SACK, which exceed what the receiver holds by less than a block.
   */
  lemma BookedIsHeld(hash: Hash, source: seq<Byte>, l: Lane)
    requires Inv(hash, source, l) && !l.early
    ensures l.tx.ok ==> l.tx.acked == |source|
    ensures !l.tx.ok && l.heard.None? ==> l.tx.acked == 0
    ensures !l.tx.ok && l.heard.Some? ==>
              && l.tx.acked == HeldBytes(|source|, l.heard.value.had, BlockCount(|source|))
                             + Overstated(|source|, l.heard.value.had)
              && HeldBytes(|source|, l.heard.value.had, BlockCount(|source|)) <= l.tx.acked
              && l.tx.acked < HeldBytes(|source|, l.heard.value.had, BlockCount(|source|)) + PAYLOAD
    ensures !l.tx.ok && l.txEpoch == l.epoch ==>
              l.tx.acked < HeldBytes(|source|, l.rx.have, BlockCount(|source|)) + PAYLOAD
  {
    hide Wf, RxInv, DataInv, AckInv, MakeSack, AckedBy, HeldBytes, Overstated, Reports, BlockCount;
    if l.heard.Some? {
      var p := l.heard.value;
      assert PacketOk(source, l, p);
      MadeReports(|source|, p.had, p.seen);
      AckedIsHeld(|source|, p.had, p.sack);
      if l.txEpoch == l.epoch { HeldGrows(|source|, p.had, l.rx.have, BlockCount(|source|)); }
    }
  }
}
