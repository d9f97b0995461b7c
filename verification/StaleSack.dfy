/**
 SACKs carry no epoch. One that was sent before the receiver started a file over, and
 is delivered after the sender has handled the `file_bad`, makes the sender believe in
 blocks the receiver no longer has. `Transfer.Enabled` excludes that delivery; here it
 is allowed, and shown exactly when the file can then still be finished.
 */
module StaleSack {
  import opened Wrappers
  import opened Manifest
  import opened Runs
  import opened Receiver
  import opened Sacks
  import opened Sender
  import opened Transfer
  import opened TransferInvariant
  import opened TransferIntegrity
  import opened TransferProgress

  /** Some copy of block `k` is in flight. */
  ghost predicate Underway(l: Lane, k: nat) {
    exists b :: b in l.data && b.index == k
  }

  /**
   The blocks the receiver can come to hold while the sender acts on `s`: those it has,
   those in flight and those `s` makes the sender resend.
   */
  ghost function Reach(source: seq<Byte>, l: Lane, s: Sack): set<nat> {
    var n := BlockCount(|source|);
    set k | k in AllBelow(n) && (k in l.rx.have || Underway(l, k) || Candidate(s, true, n, {}, k))
  }

  /** The lane as if the sender had heard no SACK. */
  function Forget(l: Lane): Lane {
    l.(tx := l.tx.(sack := None, acked := if l.tx.ok then l.tx.acked else 0), heard := None)
  }

  /** The lane is sound but for the SACK the sender acts on, which may be out of date. */
  ghost predicate Misled(hash: Hash, source: seq<Byte>, l: Lane) {
    && Going(hash, source, Forget(l)) && l.txEpoch > 0
    && l.tx.sack.Some? && IsReport(l.tx.sack.value, BlockCount(|source|))
    && (!l.tx.ok ==> l.tx.acked == AckedBy(|source|, l.tx.sack.value))
  }

  /** The SACK was made for some received set. */
  ghost predicate IsReport(s: Sack, n: nat) {
    exists had, seen :: had <= AllBelow(n) && s == MakeSack(had, n, seen)
  }

  /** What holds of a misled lane. */
  lemma MisledFacts(hash: Hash, source: seq<Byte>, l: Lane)
    requires Misled(hash, source, l)
    ensures Wf(l.rx) && l.rx.size == |source| && l.tx.size == |source| && l.rx.have <= AllBelow(BlockCount(|source|))
    ensures l.epoch == l.txEpoch == 1 && l.done == Arrived && l.tx.swept && l.tx.skip == {}
    ensures l.tx.sack.Some?
    ensures !l.rx.verified ==> l.acks == [] && !l.tx.ok && !l.rx.complete
    ensures forall k: nat | k < BlockCount(|source|) ::
              Repairable(l.tx, k) <==> Candidate(l.tx.sack.value, true, BlockCount(|source|), {}, k)
  {
    hide DataInv, SackInv, Honest, IsReport, Candidate, Marked, FirstRuns;
    var f := Forget(l);
    assert f.rx == l.rx && f.acks == l.acks;
  }

  lemma ReportCount(s: Sack, n: nat)
    requires IsReport(s, n)
    ensures s.count <= n && (s.complete <==> s.count == n)
    ensures !s.complete ==> exists k: nat :: k < n && Candidate(s, true, n, {}, k)
  {
    var had, seen :| had <= AllBelow(n) && s == MakeSack(had, n, seen);
    FullIffSize(had, n);
    if !s.complete {
      LowestMissing(had, n);
      SackHoles(had, n, seen, RunEnd(had, n, 0));
      assert Candidate(s, true, n, {}, RunEnd(had, n, 0));
    }
  }

  lemma HaveInReach(source: seq<Byte>, l: Lane, s: Sack)
    requires l.rx.have <= AllBelow(BlockCount(|source|))
    ensures l.rx.have <= Reach(source, l, s) && |l.rx.have| <= |Reach(source, l, s)|
    ensures Reach(source, l, s) <= AllBelow(BlockCount(|source|))
  {
    SubsetSize(l.rx.have, Reach(source, l, s));
  }

  // ---- enough blocks: the sender is put right again ---------------------------------------

  /** The steps of the receiver and its channel do not depend on what the sender heard. */
  lemma ForgetCommutes(hash: Hash, source: seq<Byte>, l: Lane, step: Step)
    requires Wf(l.rx) && Enabled(source, l, step) && (step.DeliverBlock? || step.SendSack?)
    ensures Enabled(source, Forget(l), step)
    ensures Forget(Apply(hash, source, l, step)) == Apply(hash, source, Forget(l), step)
    ensures Apply(hash, source, l, step).tx == l.tx && Apply(hash, source, l, step).txEpoch == l.txEpoch
  {
    hide Absorbed, MaybeVerify, Wf, MakeSack;
  }

  lemma MisledStep(hash: Hash, source: seq<Byte>, l: Lane, step: Step)
    requires Misled(hash, source, l) && Wf(l.rx) && Enabled(source, l, step) && (step.DeliverBlock? || step.SendSack?)
    ensures Misled(hash, source, Apply(hash, source, l, step))
    ensures Apply(hash, source, l, step).tx == l.tx
  {
    hide Going, IsReport, Apply, Enabled, Wf, Forget;
    ForgetCommutes(hash, source, l, step);
    GoingStep(hash, source, Forget(l), step);
  }

  lemma MisledResend(hash: Hash, source: seq<Byte>, l: Lane, k: nat)
    requires Misled(hash, source, l) && !l.rx.verified
    requires k < BlockCount(|source|) && Candidate(l.tx.sack.value, true, BlockCount(|source|), {}, k)
    ensures Wf(l.rx) && Enabled(source, l, Resend(k))
    ensures var m := Apply(hash, source, l, Resend(k));
            && Misled(hash, source, m) && m.rx == l.rx && m.tx == l.tx && m.epoch == l.epoch && m.acks == l.acks
            && m.data == l.data + {SourceBlock(source, k)}
  {
    MisledFacts(hash, source, l);
    hide Inv, IsReport, Candidate, Repairable, Wf, SourceBlock, BlockCount;
    SendDataInv(hash, source, Forget(l), k);
    var m := Apply(hash, source, l, Resend(k));
    assert Forget(m) == Forget(l).(data := l.data + {SourceBlock(source, k)});
  }

  /** A missing block in flight arrives: one more is received, or the file is verified. */
  lemma MisledArrival(hash: Hash, source: seq<Byte>, l: Lane, k: nat) returns (b: Block)
    requires Misled(hash, source, l) && !l.rx.verified && k !in l.rx.have && Underway(l, k)
    ensures Wf(l.rx) && Enabled(source, l, DeliverBlock(b))
    ensures var m := Apply(hash, source, l, DeliverBlock(b));
            && Misled(hash, source, m) && m.tx == l.tx && m.data == l.data
            && (m.rx.verified || m.rx.have == l.rx.have + {k})
  {
    MisledFacts(hash, source, l);
    b :| b in l.data && b.index == k;
    hide Inv, IsReport, Candidate, Repairable, Wf, SourceBlock, BlockCount, Absorbed, MaybeVerify, TakeBlock, Judged;
    InvHasData(hash, source, Forget(l), b);
    MisledStep(hash, source, l, DeliverBlock(b));
    var m := Apply(hash, source, l, DeliverBlock(b));
    MisledFacts(hash, source, m);
    ArrivalMarked(hash, source, Forget(l), k);
    TakeBlockRest(l, b);
    TakeBlockData(l, b);
    JudgedMeasures(hash, TakeBlock(l, b), Absorbed(l.rx, b));
    JudgedData(hash, TakeBlock(l, b), Absorbed(l.rx, b));
  }

  lemma TakeBlockData(l: Lane, b: Block)
    requires Wf(l.rx)
    ensures TakeBlock(l, b).data == l.data
  {}

  lemma JudgedData(hash: Hash, l: Lane, f: FileRx)
    ensures Judged(hash, l, f).data == l.data
  {}

  lemma SameReach(source: seq<Byte>, l: Lane, m: Lane, s: Sack, k: nat)
    requires k in Reach(source, l, s)
    requires l.rx.have <= m.rx.have <= l.rx.have + {k}
    requires m.data == l.data || (k < BlockCount(|source|) && m.data == l.data + {SourceBlock(source, k)})
    ensures Reach(source, m, s) == Reach(source, l, s)
  {
    hide Candidate, BlockCount, AllBelow;
    forall j: nat ensures Underway(m, j) ==> Underway(l, j) || j == k {}
    forall j: nat ensures Underway(l, j) ==> Underway(m, j) {
      if Underway(l, j) {
        var b :| b in l.data && b.index == j;
        assert b in m.data;
      }
    }
  }

  /** If enough blocks can arrive, the receiver's next report is accepted and all is well. */
  lemma {:induction false} EnoughArrives(hash: Hash, source: seq<Byte>, l: Lane)
    requires Misled(hash, source, l) && !l.rx.verified
    requires |Reach(source, l, l.tx.sack.value)| >= l.tx.sack.value.count
    ensures CanVerify(hash, source, l)
    decreases BlockCount(|source|) - |l.rx.have|
  {
    MisledFacts(hash, source, l);
    FullIffSize(l.rx.have, BlockCount(|source|));
    hide Misled, CanVerify, Apply, Enabled, Candidate, Wf, BlockCount, SourceBlock, Repairable, Reach;
    var s := l.tx.sack.value;
    HaveInReach(source, l, s);
    if Reach(source, l, s) <= l.rx.have {
      NothingNew(hash, source, l);
    } else {
      var k :| k in Reach(source, l, s) && k !in l.rx.have;
      ReachMeans(source, l, s, k);
      if Underway(l, k) {
        Fetch(hash, source, l, k);
      } else {
        MisledResend(hash, source, l, k);
        var m := Apply(hash, source, l, Resend(k));
        SameReach(source, l, m, s, k);
        assert SourceBlock(source, k) in m.data && SourceBlock(source, k).index == k by { BlockIndex(source, k); }
        Fetch(hash, source, m, k);
        StepBack(hash, source, l, Resend(k));
      }
    }
  }

  lemma BlockIndex(source: seq<Byte>, k: nat)
    requires k < BlockCount(|source|)
    ensures SourceBlock(source, k).index == k
  {}

  lemma ReachMeans(source: seq<Byte>, l: Lane, s: Sack, k: nat)
    requires k in Reach(source, l, s)
    ensures k < BlockCount(|source|)
    ensures k in l.rx.have || Underway(l, k) || Candidate(s, true, BlockCount(|source|), {}, k)
  {}

  lemma {:induction false} Fetch(hash: Hash, source: seq<Byte>, l: Lane, k: nat)
    requires Misled(hash, source, l) && !l.rx.verified && k !in l.rx.have && Underway(l, k)
    requires k in Reach(source, l, l.tx.sack.value)
    requires |Reach(source, l, l.tx.sack.value)| >= l.tx.sack.value.count
    requires |l.rx.have| < BlockCount(|source|)
    ensures CanVerify(hash, source, l)
    decreases BlockCount(|source|) - |l.rx.have|, 0
  {
    hide Misled, CanVerify, Apply, Enabled, Candidate, Wf, BlockCount, SourceBlock, Reach, Underway;
    MisledFacts(hash, source, l);
    var b := MisledArrival(hash, source, l, k);
    var m := Apply(hash, source, l, DeliverBlock(b));
    if m.rx.verified {
      VerifiedNow(hash, source, m);
    } else {
      SameReach(source, l, m, l.tx.sack.value, k);
      assert |m.rx.have| == |l.rx.have| + 1;
      EnoughArrives(hash, source, m);
    }
    StepBack(hash, source, l, DeliverBlock(b));
  }

  /** The receiver has everything it can get: a block it has already makes it report. */
  lemma NothingNew(hash: Hash, source: seq<Byte>, l: Lane)
    requires Misled(hash, source, l) && !l.rx.verified
    requires |Reach(source, l, l.tx.sack.value)| >= l.tx.sack.value.count
    requires Reach(source, l, l.tx.sack.value) <= l.rx.have
    ensures CanVerify(hash, source, l)
  {
    MisledFacts(hash, source, l);
    var s, n := l.tx.sack.value, BlockCount(|source|);
    SubsetSize(Reach(source, l, s), l.rx.have);
    if l.rx.dirty {
      ReportHeard(hash, source, l);
    } else {
      Incomplete(hash, source, Forget(l));
      assert IsReport(s, n);
      ReportCount(s, n);
      var a: nat :| a < n && Candidate(s, true, n, {}, a);
      assert a in l.rx.have by { assert a in Reach(source, l, s); }
      DuplicateReports(hash, source, l, a);
    }
  }

  lemma DuplicateReports(hash: Hash, source: seq<Byte>, l: Lane, a: nat)
    requires Misled(hash, source, l) && !l.rx.verified && l.tx.sack.value.count <= |l.rx.have|
    requires a < BlockCount(|source|) && Candidate(l.tx.sack.value, true, BlockCount(|source|), {}, a) && a in l.rx.have
    ensures CanVerify(hash, source, l)
  {
    hide Misled, CanVerify, Apply, Enabled, Candidate, Wf, BlockCount, SourceBlock, Reach, Going, IsReport;
    MisledFacts(hash, source, l);
    MisledResend(hash, source, l, a);
    var m, b := Apply(hash, source, l, Resend(a)), SourceBlock(source, a);
    InFlightNow(source, m, b);
    MisledStep(hash, source, m, DeliverBlock(b));
    MisledGoing(hash, source, m);
    ForgetCommutes(hash, source, m, DeliverBlock(b));
    ArrivalTouches(hash, source, Forget(m), a);
    var k := Apply(hash, source, m, DeliverBlock(b));
    assert Forget(k).rx == k.rx;
    ReportHeard(hash, source, k);
    StepBack(hash, source, m, DeliverBlock(b));
    StepBack(hash, source, l, Resend(a));
  }

  lemma InFlightNow(source: seq<Byte>, l: Lane, b: Block)
    requires b in l.data
    ensures Enabled(source, l, DeliverBlock(b)) && Enabled(source, Forget(l), DeliverBlock(b))
  {}

  lemma MisledGoing(hash: Hash, source: seq<Byte>, l: Lane)
    requires Misled(hash, source, l)
    ensures Going(hash, source, Forget(l)) && Forget(l).rx == l.rx
  {}

  /** A report of at least as many blocks replaces the outdated one. */
  lemma ReportHeard(hash: Hash, source: seq<Byte>, l: Lane)
    requires Misled(hash, source, l) && !l.rx.verified && l.rx.dirty && l.tx.sack.value.count <= |l.rx.have|
    ensures CanVerify(hash, source, l)
  {
    hide CanVerify, Wf, BlockCount, MakeSack, Inv, IsReport;
    MisledFacts(hash, source, l);
    MisledStep(hash, source, l, SendSack);
    ForgetCommutes(hash, source, l, SendSack);
    var f := Forget(l);
    GoingStep(hash, source, f, SendSack);
    var p := FreshPacket(hash, source, f);
    var m, g := Apply(hash, source, l, SendSack), Apply(hash, source, f, SendSack);
    GoingStep(hash, source, g, DeliverSack(p));
    PacketCount(hash, source, g, p);
    PacketIsReport(hash, source, g, p);
    ReportGrows(|source|, m.tx.sack.value, p.sack);
    HeardAlike(m, p);
    assert Apply(hash, source, m, DeliverSack(p)) == Apply(hash, source, g, DeliverSack(p));
    Progress(hash, source, Apply(hash, source, m, DeliverSack(p)));
    MisledFacts(hash, source, m);
    StepBack(hash, source, m, DeliverSack(p));
    StepBack(hash, source, l, SendSack);
  }

  lemma PacketCount(hash: Hash, source: seq<Byte>, l: Lane, p: Packet)
    requires Inv(hash, source, l) && p in l.sacks
    ensures p.sack.count == |p.had|
  {
    hide Wf, RxInv, DataInv, AckInv, TxInv;
    assert PacketOk(source, l, p);
  }

  lemma HeardAlike(l: Lane, p: Packet)
    requires !Outdated(l.tx, p.sack) && !l.tx.ok && l.tx.acked <= AckedBy(l.tx.size, p.sack)
    ensures TakePacket(l, p) == TakePacket(Forget(l), p)
  {}

  // ---- too few blocks: the sender never hears better -----------------------------------------

  /**
   The receiver stays within `top`, which is smaller than the count `c` of the SACK the
   sender acts on.
   */
  ghost predicate Stuck(source: seq<Byte>, l: Lane, top: set<nat>, c: nat) {
    var n := BlockCount(|source|);
    && Wf(l.rx) && l.rx.size == |source| && l.tx.size == |source| && !l.rx.verified && l.acks == []
    && top <= AllBelow(n) && |top| < c <= n && l.rx.have <= top
    && l.tx.swept && !l.tx.ok && l.tx.sack.Some? && l.tx.sack.value.count == c
    && (forall k: nat | k < n && Repairable(l.tx, k) :: k in top)
    && (forall b | b in l.data :: b.index in top)
    && (forall p | p in l.sacks && l.txEpoch <= p.epoch :: p.sack.count < c)
    && l.txEpoch <= l.epoch
  }

  lemma TooFewStuck(hash: Hash, source: seq<Byte>, l: Lane)
    requires Misled(hash, source, l) && !l.rx.verified
    requires |Reach(source, l, l.tx.sack.value)| < l.tx.sack.value.count
    ensures Stuck(source, l, Reach(source, l, l.tx.sack.value), l.tx.sack.value.count)
  {
    MisledFacts(hash, source, l);
    var s, n := l.tx.sack.value, BlockCount(|source|);
    var top := Reach(source, l, s);
    HaveInReach(source, l, s);
    ReportCount(s, n);
    hide Wf, BlockCount, Repairable, Candidate, IsReport, Received, MakeSack, RxInv, AckInv, TxInv;
    forall k: nat | k < n && Repairable(l.tx, k) ensures k in top {}
    forall b | b in l.data ensures b.index in top {
      InvHasData(hash, source, Forget(l), b);
      assert Underway(l, b.index);
    }
    forall p | p in l.sacks && l.txEpoch <= p.epoch ensures p.sack.count < s.count {
      assert p in Packets(Forget(l));
      assert PacketOk(source, Forget(l), p);
      PacketCount(hash, source, Forget(l), p);
      SubsetSize(p.had, l.rx.have);
    }
  }

  lemma StuckIncomplete(f: FileRx, top: set<nat>)
    requires Wf(f) && f.have <= top <= AllBelow(f.Blocks()) && |top| < f.Blocks()
    ensures !f.complete && |f.have| <= |top|
  {
    SubsetSize(f.have, top);
    FullIffSize(f.have, f.Blocks());
  }

  lemma StuckBlock(f: FileRx, b: Block, top: set<nat>)
    requires Wf(f) && f.have <= top <= AllBelow(f.Blocks()) && |top| < f.Blocks() && b.index in top
    ensures var g := Absorbed(f, b);
            g.have <= top && !g.complete && g.verified == f.verified && g.size == f.size && Wf(g)
  {
    StuckIncomplete(f, top);
    AbsorbedFile([], f, b);
    AbsorbedHave(f, b);
    var g := Absorbed(f, b);
    StuckIncomplete(g.(expected := None), top);
  }

  lemma AbsorbedHave(f: FileRx, b: Block)
    requires Wf(f)
    ensures Absorbed(f, b).have <= f.have + {b.index}
  {
    hide Overwrite;
  }

  lemma StuckDelivery(hash: Hash, source: seq<Byte>, l: Lane, top: set<nat>, c: nat, b: Block)
    requires Stuck(source, l, top, c) && b in l.data
    ensures Stuck(source, Apply(hash, source, l, DeliverBlock(b)), top, c)
  {
    hide Wf, Absorbed, BlockCount, MakeSack, Repairable;
    StuckIncomplete(l.rx, top);
    StuckBlock(l.rx, b, top);
  }

  lemma StuckReport(hash: Hash, source: seq<Byte>, l: Lane, top: set<nat>, c: nat)
    requires Stuck(source, l, top, c) && Enabled(source, l, SendSack)
    ensures Stuck(source, Apply(hash, source, l, SendSack), top, c)
  {
    hide Wf, BlockCount, MakeSack, Repairable;
    StuckIncomplete(l.rx, top);
    CleanWf(l.rx);
    SackCount(l.rx.have, l.rx.Blocks(), l.rx.frontier);
  }

  lemma StuckStep(hash: Hash, source: seq<Byte>, l: Lane, top: set<nat>, c: nat, step: Step)
    requires Stuck(source, l, top, c) && Enabled(source, l, step)
    ensures Wf(l.rx) && Stuck(source, Apply(hash, source, l, step), top, c)
  {
    StuckWf(source, l, top, c);
    hide Stuck, Wf, Apply;
    match step
    case DeliverBlock(b) =>
      StuckDelivery(hash, source, l, top, c, b);
    case SendSack =>
      StuckReport(hash, source, l, top, c);
    case _ =>
      StuckOther(hash, source, l, top, c, step);
  }

  lemma StuckWf(source: seq<Byte>, l: Lane, top: set<nat>, c: nat)
    requires Stuck(source, l, top, c)
    ensures Wf(l.rx)
  {}

  lemma StuckOther(hash: Hash, source: seq<Byte>, l: Lane, top: set<nat>, c: nat, step: Step)
    requires Stuck(source, l, top, c) && Enabled(source, l, step) && !step.DeliverBlock? && !step.SendSack?
    ensures Stuck(source, Apply(hash, source, l, step), top, c)
  {
    hide Wf, BlockCount, Repairable, MakeSack;
    StuckIncomplete(l.rx, top);
    ExpectedWf(l.rx, hash(source));
  }

  lemma ExpectedWf(f: FileRx, d: Digest)
    requires Wf(f) && !f.complete
    ensures Wf(f.(expected := Some(d)))
  {}

  lemma CleanWf(f: FileRx)
    requires Wf(f)
    ensures Wf(f.(dirty := false))
  {}

  lemma SackCount(have: set<nat>, n: nat, frontier: nat)
    ensures MakeSack(have, n, frontier).count == |have|
  {}

  lemma {:induction false} StuckForever(hash: Hash, source: seq<Byte>, l: Lane, top: set<nat>, c: nat, steps: seq<Step>)
    requires Stuck(source, l, top, c) && IsRun(hash, source, l, steps)
    ensures !After(hash, source, l, steps).rx.verified
    decreases |steps|
  {
    if steps == [] {
      assert After(hash, source, l, steps) == l;
    } else {
      hide Wf, Enabled, Apply;
      StuckStep(hash, source, l, top, c, steps[0]);
      StuckForever(hash, source, Apply(hash, source, l, steps[0]), top, c, steps[1..]);
    }
  }

  // ---- the exact condition --------------------------------------------------------------------

  /**
   Whatever SACK misleads the sender, complete or not: the file can still be verified if
   and only if as many blocks as it reports are held, in flight or resent because of it.
   */
  lemma MisledIff(hash: Hash, source: seq<Byte>, l: Lane)
    requires Misled(hash, source, l)
    ensures CanVerify(hash, source, l) <==> |Reach(source, l, l.tx.sack.value)| >= l.tx.sack.value.count
  {
    var s, n := l.tx.sack.value, BlockCount(|source|);
    MisledFacts(hash, source, l);
    HaveInReach(source, l, s);
    assert IsReport(s, n);
    ReportCount(s, n);
    if l.rx.verified {
      VerifiedNow(hash, source, l);
      VerifiedFull(l.rx);
    } else if |Reach(source, l, s)| >= s.count {
      EnoughArrives(hash, source, l);
    } else {
      TooFewStuck(hash, source, l);
      forall steps | IsRun(hash, source, l, steps) ensures !After(hash, source, l, steps).rx.verified {
        hide Stuck, Misled, Reach, Wf;
        StuckForever(hash, source, l, Reach(source, l, s), s.count, steps);
      }
    }
  }

  lemma VerifiedFull(f: FileRx)
    requires Wf(f) && f.verified
    ensures |f.have| == f.Blocks()
  {
    FullIffSize(f.have, f.Blocks());
  }

  /** A lane stays sound if what the sender has heard is forgotten. */
  lemma ForgottenGoing(hash: Hash, source: seq<Byte>, l: Lane)
    requires Going(hash, source, l)
    ensures Going(hash, source, Forget(l))
  {
    hide Wf, Received, Honest, AckInv, DataInv, PacketOk, Marked, FirstRuns, BlockCount;
    var f := Forget(l);
    assert forall k | k in f.rx.have && k !in Trusted(f) :: Honest(source, l.rx, k);
    forall q | q in Packets(f) ensures PacketOk(source, f, q) {
      assert PacketOk(source, l, q);
      KeptPacket(source, l, f, q);
    }
    assert AckInv(f) by { SameAcks(l, f); }
    assert DataInv(source, f) by { SameData(source, l, f); }
  }

  /** A report that counts more confirms no less. */
  lemma ReportGrows(size: nat, s: Sack, t: Sack)
    requires IsReport(s, BlockCount(size)) && IsReport(t, BlockCount(size)) && s.count <= t.count
    ensures AckedBy(size, s) <= AckedBy(size, t) <= size
  {
    hide MakeSack, AllBelow, AckedBy, Reports, BlockCount;
    var n := BlockCount(size);
    var had, seen :| had <= AllBelow(n) && s == MakeSack(had, n, seen);
    var have, top :| have <= AllBelow(n) && t == MakeSack(have, n, top);
    MadeReports(size, had, seen);
    MadeReports(size, have, top);
    AckedGrows(size, s, had, t, have);
  }

  lemma SameData(source: seq<Byte>, l: Lane, m: Lane)
    requires DataInv(source, l) && m.data == l.data
    ensures DataInv(source, m)
  {}

  lemma PacketIsReport(hash: Hash, source: seq<Byte>, l: Lane, p: Packet)
    requires Inv(hash, source, l) && p in l.sacks
    ensures IsReport(p.sack, BlockCount(|source|))
  {
    hide Wf, RxInv, DataInv, AckInv, TxInv, MakeSack, BlockCount;
    assert PacketOk(source, l, p);
  }

  /** A stale SACK leaves the lane misled, unless the sender ignores it. */
  lemma StaleMisleads(hash: Hash, source: seq<Byte>, l: Lane, p: Packet)
    requires Going(hash, source, l) && p in l.sacks && p.epoch < l.txEpoch && !Outdated(l.tx, p.sack)
    ensures Misled(hash, source, TakePacket(l, p)) && TakePacket(l, p).tx.sack == Some(p.sack)
  {
    PacketIsReport(hash, source, l, p);
    StaleBooked(hash, source, l, p);
    hide Inv, IsReport, BlockCount, AckedBy;
    ForgottenGoing(hash, source, l);
    assert Forget(TakePacket(l, p)) == Forget(l);
  }

  lemma StaleBooked(hash: Hash, source: seq<Byte>, l: Lane, p: Packet)
    requires Inv(hash, source, l) && p in l.sacks && !Outdated(l.tx, p.sack)
    ensures TakePacket(l, p).tx.acked == if l.tx.ok then l.tx.acked else AckedBy(|source|, p.sack)
  {
    hide Wf, RxInv, DataInv, AckInv, SackInv, AckedBy;
    BookedStep(hash, source, l, p);
    assert TakePacket(l, p).tx.acked == Booked(source, TakePacket(l, p));
  }

  /** Another late SACK does not put the sender right: the lane stays misled, by one or the other. */
  lemma StaysMisled(hash: Hash, source: seq<Byte>, l: Lane, p: Packet)
    requires Misled(hash, source, l) && p in l.sacks
    ensures Misled(hash, source, TakePacket(l, p))
  {
    MisledFacts(hash, source, l);
    PacketIsReport(hash, source, Forget(l), p);
    MisledBooked(hash, source, l);
    hide Inv, IsReport, BlockCount, AckedBy;
    if !Outdated(l.tx, p.sack) { ReportGrows(|source|, l.tx.sack.value, p.sack); }
    ReportGrows(|source|, p.sack, p.sack);
    assert Forget(TakePacket(l, p)) == Forget(l);
  }

  lemma MisledBooked(hash: Hash, source: seq<Byte>, l: Lane)
    requires Misled(hash, source, l)
    ensures l.tx.ok ==> l.tx.acked == |source|
  {
    hide Wf, RxInv, DataInv, SackInv, IsReport, AckedBy;
  }

  /** Losing everything in flight leaves a misled lane misled. */
  lemma BlackoutMisled(hash: Hash, source: seq<Byte>, l: Lane)
    requires Misled(hash, source, l)
    ensures Misled(hash, source, Blackout(l))
  {
    hide Going, IsReport, BlockCount;
    BlackoutGoing(hash, source, Forget(l));
    assert Forget(Blackout(l)) == Blackout(Forget(l));
  }

  /**
   Exactly when a SACK from before a reset is fatal, for every such SACK and every
   reachable state, with and without the loss of everything in flight.
   */
  lemma StaleSackIff(hash: Hash, source: seq<Byte>, l: Lane, p: Packet)
    requires Going(hash, source, l) && p in l.sacks && p.epoch < l.txEpoch
    ensures CanVerify(hash, source, TakePacket(l, p)) <==> |Reach(source, l, p.sack)| >= p.sack.count
    ensures CanVerify(hash, source, Blackout(TakePacket(l, p)))
       <==> |Reach(source, Blackout(l), p.sack)| >= p.sack.count
  {
    hide CanVerify, BlockCount, Wf, Candidate, Inv;
    var m := TakePacket(l, p);
    if Outdated(l.tx, p.sack) {
      BlackoutGoing(hash, source, l);
      Progress(hash, source, l);
      Progress(hash, source, Blackout(l));
      OutdatedIsSmall(hash, source, l, p);
      HaveInReach(source, l, p.sack);
      HaveInReach(source, Blackout(l), p.sack);
    } else {
      StaleMisleads(hash, source, l, p);
      BlackoutMisled(hash, source, m);
      MisledIff(hash, source, m);
      MisledIff(hash, source, Blackout(m));
      ReachIgnoresSender(source, l, m, p.sack);
      ReachIgnoresSender(source, Blackout(l), Blackout(m), p.sack);
    }
  }

  lemma ReachIgnoresSender(source: seq<Byte>, l: Lane, m: Lane, s: Sack)
    requires l.rx == m.rx && l.data == m.data
    ensures Reach(source, l, s) == Reach(source, m, s)
  {
    assert forall k: nat :: Underway(l, k) <==> Underway(m, k);
  }

  lemma OutdatedIsSmall(hash: Hash, source: seq<Byte>, l: Lane, p: Packet)
    requires Going(hash, source, l) && Outdated(l.tx, p.sack) && p.epoch < l.txEpoch
    ensures p.sack.count <= |l.rx.have| && l.rx.have <= AllBelow(BlockCount(|source|))
  {
    hide Wf, DataInv, TxInv, Honest, BlockCount;
    var q := l.heard.value;
    assert PacketOk(source, l, q);
    SubsetSize(q.had, l.rx.have);
  }
}
