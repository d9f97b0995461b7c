/**
 A transfer cannot get stuck: from every reachable state a file can still be
 finished, even if everything in flight is lost. The receiver reports only after a
 block has arrived, so it is the sender that has to keep things going.
 */
module TransferProgress {
  import opened Wrappers
  import opened Manifest
  import opened Runs
  import opened Receiver
  import opened Sacks
  import opened Sender
  import opened Transfer
  import opened TransferInvariant
  import opened TransferIntegrity
  import opened TransferRepair

  /** Some run from `l` ends with the file verified. */
  ghost predicate CanVerify(hash: Hash, source: seq<Byte>, l: Lane) {
    exists steps :: IsRun(hash, source, l, steps) && After(hash, source, l, steps).rx.verified
  }

  lemma VerifiedNow(hash: Hash, source: seq<Byte>, l: Lane)
    requires l.rx.verified
    ensures CanVerify(hash, source, l)
  {
    assert IsRun(hash, source, l, []);
    assert After(hash, source, l, []) == l;
  }

  lemma StepBack(hash: Hash, source: seq<Byte>, l: Lane, step: Step)
    requires Wf(l.rx) && Enabled(source, l, step) && CanVerify(hash, source, Apply(hash, source, l, step))
    ensures CanVerify(hash, source, l)
  {
    hide Wf, Enabled, Apply;
    var m := Apply(hash, source, l, step);
    var steps :| IsRun(hash, source, m, steps) && After(hash, source, m, steps).rx.verified;
    var all := [step] + steps;
    assert all[0] == step && all[1..] == steps;
    assert IsRun(hash, source, l, all);
    assert After(hash, source, l, all).rx.verified;
  }

  /** What the progress argument carries along. */
  ghost predicate Going(hash: Hash, source: seq<Byte>, l: Lane) {
    Inv(hash, source, l) && OneReset(source, l)
  }

  lemma GoingStep(hash: Hash, source: seq<Byte>, l: Lane, step: Step)
    requires Going(hash, source, l) && Enabled(source, l, step)
    ensures Wf(l.rx) && Going(hash, source, Apply(hash, source, l, step))
  {
    hide Enabled, Apply;
    InvWf(hash, source, l);
    StepInv(hash, source, l, step);
    OneResetStep(hash, source, l, step);
  }

  /** How much of the sweep is left. */
  function SweepLeft(source: seq<Byte>, l: Lane): nat {
    if l.tx.swept then 0
    else if l.tx.pos <= BlockCount(|source|) then BlockCount(|source|) - l.tx.pos + 1 else 0
  }

  function MissingCount(source: seq<Byte>, l: Lane): nat {
    if |l.rx.have| <= BlockCount(|source|) then BlockCount(|source|) - |l.rx.have| else 0
  }

  /** Whether the receiver owes the sender no report. */
  function Quiet(l: Lane): nat {
    if l.rx.dirty then 0 else 1
  }

  function ResetsLeft(l: Lane): nat {
    if l.epoch == 0 then 1 else 0
  }

  /** From every reachable state with a part file of the right length the file can be verified. */
  lemma {:induction false} Progress(hash: Hash, source: seq<Byte>, l: Lane)
    requires Going(hash, source, l)
    ensures CanVerify(hash, source, l)
    decreases ResetsLeft(l), MissingCount(source, l), SweepLeft(source, l), |l.acks|, Quiet(l)
  {
    hide *;
    if l.rx.verified {
      VerifiedNow(hash, source, l);
    } else if l.acks != [] {
      AckProgress(hash, source, l);
      GoingStep(hash, source, l, DeliverAck);
      Progress(hash, source, Apply(hash, source, l, DeliverAck));
      StepBack(hash, source, l, DeliverAck);
    } else if !l.tx.swept {
      var step := SweepProgress(hash, source, l);
      GoingStep(hash, source, l, step);
      Progress(hash, source, Apply(hash, source, l, step));
      StepBack(hash, source, l, step);
    } else if l.rx.complete {
      DoneProgress(hash, source, l);
      var m := Apply(hash, source, l, DeliverDone);
      if m.rx.verified { VerifiedNow(hash, source, m); } else { Progress(hash, source, m); }
      StepBack(hash, source, l, DeliverDone);
    } else if !l.rx.dirty {
      var a, b := NudgeSteps(hash, source, l);
      var l1 := Apply(hash, source, l, Resend(a));
      var l2 := Apply(hash, source, l1, DeliverBlock(b));
      AdvancedMeans(source, l, l2);
      if l2.rx.verified { VerifiedNow(hash, source, l2); } else { Progress(hash, source, l2); }
      StepBack(hash, source, l1, DeliverBlock(b));
      StepBack(hash, source, l, Resend(a));
    } else {
      var p, a, b := RoundSteps(hash, source, l);
      var l1 := Apply(hash, source, l, SendSack);
      var l2 := Apply(hash, source, l1, DeliverSack(p));
      var l3 := Apply(hash, source, l2, Resend(a));
      var l4 := Apply(hash, source, l3, DeliverBlock(b));
      AdvancedMeans(source, l, l4);
      if l4.rx.verified { VerifiedNow(hash, source, l4); } else { Progress(hash, source, l4); }
      StepBack(hash, source, l3, DeliverBlock(b));
      StepBack(hash, source, l2, Resend(a));
      StepBack(hash, source, l1, DeliverSack(p));
      StepBack(hash, source, l, SendSack);
    }
  }

  lemma AckProgress(hash: Hash, source: seq<Byte>, l: Lane)
    requires Going(hash, source, l) && l.acks != []
    ensures Enabled(source, l, DeliverAck) && Wf(l.rx)
    ensures var m := Apply(hash, source, l, DeliverAck);
            && ResetsLeft(m) == ResetsLeft(l) && MissingCount(source, m) == MissingCount(source, l)
            && SweepLeft(source, m) == SweepLeft(source, l) && |m.acks| < |l.acks|
  {
    hide Wf, RxInv, DataInv, AckInv, TxInv, SackInv;
  }

  lemma SweepProgress(hash: Hash, source: seq<Byte>, l: Lane) returns (step: Step)
    requires Going(hash, source, l) && !l.rx.verified && !l.tx.swept
    ensures Wf(l.rx) && Enabled(source, l, step)
    ensures var m := Apply(hash, source, l, step);
            && ResetsLeft(m) == ResetsLeft(l) && MissingCount(source, m) == MissingCount(source, l)
            && SweepLeft(source, m) < SweepLeft(source, l)
  {
    hide Wf, RxInv, DataInv, SackInv;
    step := if l.tx.pos < BlockCount(|source|) then SweepBlock else FinishSweep;
  }

  /** A complete file waits for its hash, which is on the way; it settles the file. */
  lemma DoneProgress(hash: Hash, source: seq<Byte>, l: Lane)
    requires Going(hash, source, l) && !l.rx.verified && l.acks == [] && l.tx.swept && l.rx.complete
    ensures Wf(l.rx) && Enabled(source, l, DeliverDone)
    ensures var m := Apply(hash, source, l, DeliverDone);
            m.rx.verified || ResetsLeft(m) < ResetsLeft(l)
    ensures Going(hash, source, Apply(hash, source, l, DeliverDone))
  {
    hide DataInv, TxInv, SackInv, Received, Honest;
    assert l.done == InFlight by { DoneOnTheWay(hash, source, l); }
    GoingStep(hash, source, l, DeliverDone);
  }

  lemma DoneOnTheWay(hash: Hash, source: seq<Byte>, l: Lane)
    requires Going(hash, source, l) && !l.rx.verified && l.tx.swept && l.rx.complete
    ensures l.done == InFlight
  {
    hide DataInv, AckInv, SackInv, Received, Honest;
  }

  /** The steps up to `m` settled the file, or brought a missing block. */
  ghost predicate Advanced(source: seq<Byte>, l: Lane, m: Lane) {
    || m.rx.verified || ResetsLeft(m) < ResetsLeft(l)
    || (ResetsLeft(m) == ResetsLeft(l) && MissingCount(source, m) < MissingCount(source, l))
  }

  lemma AdvancedMeans(source: seq<Byte>, l: Lane, m: Lane)
    ensures Advanced(source, l, m) <==>
              || m.rx.verified || ResetsLeft(m) < ResetsLeft(l)
              || (ResetsLeft(m) == ResetsLeft(l) && MissingCount(source, m) < MissingCount(source, l))
  {}

  /**
   Nothing has arrived since the last report: the sender still has a block to resend.
   If the receiver has it already, its arrival makes a new report due.
   */
  lemma NudgeSteps(hash: Hash, source: seq<Byte>, l: Lane) returns (a: nat, b: Block)
    requires Going(hash, source, l) && !l.rx.verified && l.acks == [] && l.tx.swept && !l.rx.complete && !l.rx.dirty
    ensures Wf(l.rx) && Enabled(source, l, Resend(a))
    ensures var l1 := Apply(hash, source, l, Resend(a));
            && Wf(l1.rx) && Enabled(source, l1, DeliverBlock(b))
            && var l2 := Apply(hash, source, l1, DeliverBlock(b));
            && Going(hash, source, l2)
            && (Advanced(source, l, l2)
                || (ResetsLeft(l2) == ResetsLeft(l) && MissingCount(source, l2) == MissingCount(source, l)
                    && SweepLeft(source, l2) == SweepLeft(source, l) && |l2.acks| == |l.acks| && Quiet(l2) < Quiet(l)))
  {
    hide Going, Wf, Enabled, Apply, ResetsLeft, MissingCount, SourceBlock, BlockCount, SweepLeft;
    a := AlwaysRepairable(hash, source, l);
    GoingStep(hash, source, l, Resend(a));
    var l1 := Apply(hash, source, l, Resend(a));
    b := SourceBlock(source, a);
    ResentInFlight(hash, source, l, a);
    MeasuresFollow(source, l, l1);
    GoingStep(hash, source, l1, DeliverBlock(b));
    if a in l1.rx.have {
      ArrivalTouches(hash, source, l1, a);
      MeasuresFollow(source, l1, Apply(hash, source, l1, DeliverBlock(b)));
    } else {
      ArrivalCounts(hash, source, l1, a);
    }
  }

  /** The sender always has something to resend, whatever it has heard. */
  lemma AlwaysRepairable(hash: Hash, source: seq<Byte>, l: Lane) returns (a: nat)
    requires Going(hash, source, l) && !l.rx.verified && l.acks == [] && l.tx.swept && !l.rx.complete
    ensures a < BlockCount(|source|) && Enabled(source, l, Resend(a))
  {
    hide Wf, Inv, BlockCount;
    Settled(hash, source, l);
    Incomplete(hash, source, l);
    assert !l.early by { NotEarly(hash, source, l, l); }
    if l.heard.Some? {
      HeardIsCurrent(hash, source, l);
      SubsetSize(l.heard.value.had, l.rx.have);
      RepairIsExact(hash, source, l);
      a := RunEnd(l.heard.value.had, BlockCount(|source|), 0);
    } else {
      NothingHeard(hash, source, l);
      LowestMissing(l.rx.have, BlockCount(|source|));
      a := RunEnd(l.rx.have, BlockCount(|source|), 0);
    }
  }

  lemma LowestMissing(have: set<nat>, n: nat)
    requires |have| < n
    ensures RunEnd(have, n, 0) < n && RunEnd(have, n, 0) !in have
  {
    if RunEnd(have, n, 0) == n {
      SubsetSize(AllBelow(n), have);
    }
  }

  lemma NothingHeard(hash: Hash, source: seq<Byte>, l: Lane)
    requires Inv(hash, source, l) && l.heard.None? && !l.early && l.txEpoch == l.epoch
    ensures l.tx.sack.None? && l.tx.skip <= l.rx.have && l.tx.Blocks() == BlockCount(|source|)
  {
    hide Wf, DataInv, AckInv, Honest, PacketOk, Marked, FirstRuns;
    SkipWithinTrusted(hash, source, l);
  }

  /** A block the receiver has already makes a report due and changes nothing else. */
  lemma ArrivalTouches(hash: Hash, source: seq<Byte>, l: Lane, a: nat)
    requires Going(hash, source, l) && Wf(l.rx) && !l.rx.verified && !l.rx.complete
    requires a < BlockCount(|source|) && a in l.rx.have
    requires Enabled(source, l, DeliverBlock(SourceBlock(source, a)))
    ensures var m := Apply(hash, source, l, DeliverBlock(SourceBlock(source, a)));
            SameReceiver(l, m) && m.rx.dirty
  {
    hide DataInv, AckInv, TxInv, SackInv, Honest, Received, Overwrite, MakeSack;
    var b := SourceBlock(source, a);
    assert Acceptable(l.rx, b);
    assert l.acks + [] == l.acks;
  }

  /**
   One round: the receiver reports, the sender resends the lowest missing block, and
   it arrives. The received set grows, or that block settles the file.
   */
  lemma RoundSteps(hash: Hash, source: seq<Byte>, l: Lane) returns (p: Packet, a: nat, b: Block)
    requires Going(hash, source, l) && !l.rx.verified && l.acks == [] && l.tx.swept && !l.rx.complete && l.rx.dirty
    ensures Wf(l.rx) && Enabled(source, l, SendSack)
    ensures var l1 := Apply(hash, source, l, SendSack);
            && Wf(l1.rx) && Enabled(source, l1, DeliverSack(p))
            && var l2 := Apply(hash, source, l1, DeliverSack(p));
            && Wf(l2.rx) && Enabled(source, l2, Resend(a))
            && var l3 := Apply(hash, source, l2, Resend(a));
            && Wf(l3.rx) && Enabled(source, l3, DeliverBlock(b))
            && var l4 := Apply(hash, source, l3, DeliverBlock(b));
            && Going(hash, source, l4) && Advanced(source, l, l4)
  {
    hide Going, Wf, Enabled, Apply, ResetsLeft, MissingCount, SourceBlock, BlockCount;
    Reportable(source, l);
    GoingStep(hash, source, l, SendSack);
    var l1 := Apply(hash, source, l, SendSack);
    p := FreshPacket(hash, source, l);
    GoingStep(hash, source, l1, DeliverSack(p));
    var l2 := Apply(hash, source, l1, DeliverSack(p));
    a := LowestResent(hash, source, l1, p);
    GoingStep(hash, source, l2, Resend(a));
    var l3 := Apply(hash, source, l2, Resend(a));
    b := SourceBlock(source, a);
    ResentInFlight(hash, source, l2, a);
    GoingStep(hash, source, l3, DeliverBlock(b));
    ArrivalCounts(hash, source, l3, a);
    MeasuresFollow(source, l, l3);
  }

  lemma Reportable(source: seq<Byte>, l: Lane)
    requires !l.rx.verified && l.rx.dirty
    ensures Enabled(source, l, SendSack)
  {}

  /** What the steps before the arrival leave as it was. */
  ghost predicate SameReceiver(l: Lane, m: Lane) {
    && m.rx.have == l.rx.have && m.rx.verified == l.rx.verified && m.rx.complete == l.rx.complete
    && m.rx.size == l.rx.size && m.epoch == l.epoch && m.acks == l.acks
    && m.tx.swept == l.tx.swept && m.tx.pos == l.tx.pos
  }

  lemma MeasuresFollow(source: seq<Byte>, l: Lane, m: Lane)
    requires SameReceiver(l, m)
    ensures ResetsLeft(m) == ResetsLeft(l) && MissingCount(source, m) == MissingCount(source, l)
    ensures SweepLeft(source, m) == SweepLeft(source, l) && |m.acks| == |l.acks|
  {}

  lemma FreshPacket(hash: Hash, source: seq<Byte>, l: Lane) returns (p: Packet)
    requires Going(hash, source, l) && Wf(l.rx) && Enabled(source, l, SendSack)
    ensures p.had == l.rx.have && p.epoch == l.epoch
    ensures var m := Apply(hash, source, l, SendSack);
            Enabled(source, m, DeliverSack(p)) && SameReceiver(l, m)
  {
    hide Wf, RxInv, DataInv, TxInv, SackInv, MakeSack;
    p := Packet(MakeSack(l.rx.have, l.rx.Blocks(), l.rx.frontier), l.epoch, l.rx.have, l.rx.frontier);
  }

  /** A report of everything the receiver has is not outdated, so its lowest hole is resent. */
  lemma LowestResent(hash: Hash, source: seq<Byte>, l: Lane, p: Packet) returns (a: nat)
    requires Going(hash, source, l) && Wf(l.rx) && Enabled(source, l, DeliverSack(p))
    requires p.had == l.rx.have && p.epoch == l.epoch
    requires !l.rx.verified && l.acks == [] && l.tx.swept && !l.rx.complete
    requires Going(hash, source, Apply(hash, source, l, DeliverSack(p)))
    ensures var m := Apply(hash, source, l, DeliverSack(p));
            && SameReceiver(l, m) && Enabled(source, m, Resend(a))
            && a < BlockCount(|source|) && a !in m.rx.have
  {
    hide Wf, Inv, MakeSack, Outdated, OneReset, BlockCount, Repairable;
    var m := Apply(hash, source, l, DeliverSack(p));
    NotOutdated(hash, source, l, p);
    Incomplete(hash, source, l);
    Settled(hash, source, l);
    assert !l.early && !m.early by { NotEarly(hash, source, l, m); }
    a := RunEnd(p.had, BlockCount(|source|), 0);
    RepairIsExact(hash, source, m);
  }

  lemma NotEarly(hash: Hash, source: seq<Byte>, l: Lane, m: Lane)
    requires Going(hash, source, l) && Going(hash, source, m)
    ensures !l.early && !m.early
  {
    hide Inv;
  }

  /** With no verdict in flight both ends agree on the epoch, and the file is not ok yet. */
  lemma Settled(hash: Hash, source: seq<Byte>, l: Lane)
    requires Inv(hash, source, l) && l.acks == [] && !l.rx.verified
    ensures l.txEpoch == l.epoch && !l.tx.ok
  {
    hide Wf, RxInv, DataInv, TxInv, SackInv;
  }

  lemma Incomplete(hash: Hash, source: seq<Byte>, l: Lane)
    requires Inv(hash, source, l) && !l.rx.complete
    ensures |l.rx.have| < BlockCount(|source|)
  {
    hide DataInv, AckInv, TxInv, SackInv, Honest, BlockCount;
    FullIffSize(l.rx.have, BlockCount(|source|));
  }

  lemma NotOutdated(hash: Hash, source: seq<Byte>, l: Lane, p: Packet)
    requires Inv(hash, source, l) && p in l.sacks && p.had == l.rx.have && p.epoch == l.epoch
    requires l.acks == [] && !l.rx.verified
    ensures !Outdated(l.tx, p.sack)
  {
    hide Wf, RxInv, DataInv, TxInv, BlockCount;
    assert PacketOk(source, l, p);
    if l.heard.Some? {
      assert PacketOk(source, l, l.heard.value);
      Settled(hash, source, l);
      SubsetSize(l.heard.value.had, l.rx.have);
    }
  }

  lemma ResentInFlight(hash: Hash, source: seq<Byte>, l: Lane, a: nat)
    requires Wf(l.rx) && Enabled(source, l, Resend(a)) && a < BlockCount(|source|)
    ensures var m := Apply(hash, source, l, Resend(a));
            Enabled(source, m, DeliverBlock(SourceBlock(source, a))) && SameReceiver(l, m)
  {
    hide Wf, Repairable;
  }

  /** A missing block that arrives is marked, unless it completes the file and settles it. */
  lemma ArrivalCounts(hash: Hash, source: seq<Byte>, l: Lane, a: nat)
    requires Going(hash, source, l) && Wf(l.rx) && !l.rx.verified
    requires a < BlockCount(|source|) && a !in l.rx.have
    requires Enabled(source, l, DeliverBlock(SourceBlock(source, a)))
    requires Going(hash, source, Apply(hash, source, l, DeliverBlock(SourceBlock(source, a))))
    ensures Advanced(source, l, Apply(hash, source, l, DeliverBlock(SourceBlock(source, a))))
  {
    hide Wf, Inv, Absorbed, SourceBlock, BlockCount, Judged, MaybeVerify, TakeBlock;
    var b := SourceBlock(source, a);
    var m := Apply(hash, source, l, DeliverBlock(b));
    ArrivalMarked(hash, source, l, a);
    WithinBlocks(hash, source, m);
    JudgedMeasures(hash, TakeBlock(l, b), Absorbed(l.rx, b));
    TakeBlockRest(l, b);
  }

  /** A verdict settles the file, uses up a reset or leaves the received set alone. */
  lemma JudgedMeasures(hash: Hash, l: Lane, f: FileRx)
    ensures var m := Judged(hash, l, f);
            m.rx.verified || m.epoch == l.epoch + 1 || (m.epoch == l.epoch && m.rx.have == f.have)
  {}

  lemma WithinBlocks(hash: Hash, source: seq<Byte>, l: Lane)
    requires Inv(hash, source, l)
    ensures |l.rx.have| <= BlockCount(|source|)
  {
    hide DataInv, AckInv, TxInv, SackInv, Honest, BlockCount;
    FullIffSize(l.rx.have, BlockCount(|source|));
  }

  lemma ArrivalMarked(hash: Hash, source: seq<Byte>, l: Lane, a: nat)
    requires Inv(hash, source, l) && !l.rx.verified && a < BlockCount(|source|) && a !in l.rx.have
    ensures var g := Absorbed(l.rx, SourceBlock(source, a));
            g.have == l.rx.have + {a} && !g.verified
  {
    hide DataInv, AckInv, TxInv, SackInv, Honest, Received, Overwrite;
    var b := SourceBlock(source, a);
    assert Acceptable(l.rx, b);
    TouchedFits(l.rx, b);
  }

  // ---- the theorem ----------------------------------------------------------------

  /** Everything in flight on the lossy channels is lost. */
  function Blackout(l: Lane): Lane {
    l.(data := {}, sacks := {})
  }

  lemma BlackoutGoing(hash: Hash, source: seq<Byte>, l: Lane)
    requires Going(hash, source, l)
    ensures Going(hash, source, Blackout(l))
  {
    hide Wf, Received, Honest, AckInv, PacketOk, Marked, FirstRuns, BlockCount;
    var m := Blackout(l);
    assert forall k | k in m.rx.have && k !in Trusted(m) :: Honest(source, l.rx, k);
    SameAcks(l, m);
    forall p | p in Packets(m) ensures PacketOk(source, m, p) {
      assert PacketOk(source, l, p);
      KeptPacket(source, l, m, p);
    }
  }

  /**
   No run gets stuck: however the run went so far and whatever the resume record
   claimed, the file can still be finished, even if every block and SACK in flight
   is lost. Only a part file longer than the file is excluded.
   */
  lemma NeverStuck(hash: Hash, source: seq<Byte>, part: Option<seq<Byte>>, final: Option<seq<Byte>>,
                   record: Option<Record>, steps: seq<Step>)
    requires part.Some? ==> |part.value| <= |source|
    requires !StartRx(|source|, part, final, record).verified
    requires IsRun(hash, source, StartLane(|source|, part, final, record), steps)
    ensures CanVerify(hash, source, Blackout(After(hash, source, StartLane(|source|, part, final, record), steps)))
  {
    var start := StartLane(|source|, part, final, record);
    StartInv(hash, source, part, final, record);
    StartOneReset(source, part, final, record);
    hide StartLane, IsRun, After, Inv, OneReset, Blackout;
    RunInv(hash, source, start, steps);
    RejectedAtMostOnce(hash, source, start, steps);
    var m := After(hash, source, start, steps);
    BlackoutGoing(hash, source, m);
    Progress(hash, source, Blackout(m));
  }

  lemma StartOneReset(source: seq<Byte>, part: Option<seq<Byte>>, final: Option<seq<Byte>>, record: Option<Record>)
    requires part.Some? ==> |part.value| <= |source|
    requires !StartRx(|source|, part, final, record).verified
    ensures OneReset(source, StartLane(|source|, part, final, record))
  {}
}
