/**
 A whole transfer: every file's lane, the sending engine's loop and the two sessions.
 What either side may conclude when it reports the transfer completed.
 */
module Agreement {
  import opened Wrappers
  import opened Manifest
  import opened Receiver
  import opened Sender
  import opened Transfer
  import opened TransferInvariant
  import opened TransferIntegrity
  import opened Session
  import opened SenderLoop
  import opened BatchLanes

  /** `closed` records that the receiver was told of a normal end of the session. */
  datatype World = World(lanes: seq<Lane>, loop: Loop, sender: Node, receiver: Node, closed: bool)

  datatype Turn =
    | LaneTurn(i: nat, step: Step)
    | BatchTurn(batch: seq<B.Item>)
    | LoopTurn(move: Move)
    | SenderTurn(e: Event)
    | ReceiverTurn(e: Event)

  function Oks(lanes: seq<Lane>): seq<bool> {
    seq(|lanes|, i requires 0 <= i < |lanes| => lanes[i].tx.ok)
  }

  ghost predicate AllVerified(lanes: seq<Lane>) {
    forall i | 0 <= i < |lanes| :: lanes[i].rx.verified
  }

  ghost predicate AllOk(lanes: seq<Lane>) {
    forall i | 0 <= i < |lanes| :: lanes[i].tx.ok
  }

  /** The sending loop sweeps the file it has come to and repairs those in flight. */
  predicate Scheduled(c: Loop, i: nat, step: Step) {
    match step
    case SweepBlock => i == c.next && |c.inflight| < MAX_INFLIGHT
    case FinishSweep => i == c.next && |c.inflight| < MAX_INFLIGHT
    case Resend(_) => i in c.inflight
    case _ => true
  }

  /**
   Engines finish only as their loops allow, and `transfer_done` arrives only if the
   sender sent it. Every other event may happen at any time. Blocks arrive one by one or
   in batches for any files.
   */
  ghost predicate CanTake(sources: seq<seq<Byte>>, w: World, t: Turn) {
    match t
    case LaneTurn(i, step) =>
      && i < |w.lanes| == |sources| && Wf(w.lanes[i].rx)
      && Enabled(sources[i], w.lanes[i], step) && Scheduled(w.loop, i, step)
    case BatchTurn(batch) => CanBatch(sources, w.lanes, batch)
    case LoopTurn(move) =>
      && CanMove(w.loop, Oks(w.lanes), move)
      && (move.SweepNext? ==> w.lanes[w.loop.next].tx.swept)
    case SenderTurn(e) => Possible(w.sender, e) && (e.EngineFinishes? ==> w.loop.finished)
    case ReceiverTurn(e) =>
      && Possible(w.receiver, e)
      && (e.EngineFinishes? ==> AllVerified(w.lanes))
      && (e.TransferDoneArrives? ==> TransferDone in w.sender.out)
  }

  ghost function Take(hash: Hash, sources: seq<seq<Byte>>, w: World, t: Turn): World
    requires CanTake(sources, w, t)
  {
    match t
    case LaneTurn(i, step) => w.(lanes := w.lanes[i := Apply(hash, sources[i], w.lanes[i], step)])
    case BatchTurn(batch) => w.(lanes := AfterBatch(hash, sources, w.lanes, batch))
    case LoopTurn(move) => w.(loop := Moved(w.loop, Oks(w.lanes), move))
    case SenderTurn(e) => w.(sender := Handle(w.sender, e))
    case ReceiverTurn(e) => w.(receiver := Handle(w.receiver, e), closed := w.closed || NormalEnd(e))
  }

  ghost function AfterBatch(hash: Hash, sources: seq<seq<Byte>>, lanes: seq<Lane>, batch: seq<B.Item>): seq<Lane>
    requires CanBatch(sources, lanes, batch)
  {
    seq(|lanes|, i requires 0 <= i < |lanes| => BatchLane(hash, sources, lanes, batch, i))
  }

  ghost predicate LaneOk(hash: Hash, source: seq<Byte>, l: Lane) {
    Inv(hash, source, l) && ContentInv(hash, source, l)
  }

  ghost predicate WorldInv(hash: Hash, sources: seq<seq<Byte>>, w: World) {
    && |w.lanes| == |sources|
    && (forall i | 0 <= i < |w.lanes| :: LaneOk(hash, sources[i], w.lanes[i]))
    && LoopInv(w.loop, Oks(w.lanes))
    && SweptInFlight(w.lanes, w.loop.inflight)
    && NodeInv(w.sender) && w.sender.isSender
    && NodeInv(w.receiver) && !w.receiver.isSender
    && (w.sender.finished ==> w.loop.finished)
    && (w.receiver.finished ==> AllVerified(w.lanes))
    && (w.receiver.confirmed ==> TransferDone in w.sender.out || w.closed)
  }

  /** Files are repaired only after their sweep. */
  ghost predicate SweptInFlight(lanes: seq<Lane>, inflight: seq<nat>) {
    forall j | j in inflight :: j < |lanes| && lanes[j].tx.swept
  }

  /** Verdicts are never taken back, nor is a sweep. */
  lemma VerdictsStay(hash: Hash, source: seq<Byte>, l: Lane, step: Step)
    requires Wf(l.rx) && Enabled(source, l, step)
    ensures var m := Apply(hash, source, l, step);
            (l.rx.verified ==> m.rx.verified) && (l.tx.ok ==> m.tx.ok) && (l.tx.swept ==> m.tx.swept)
  {
    hide Wf, Receiver.Stored, Overwrite;
    if step.DeliverBlock? { AbsorbedVerified(l.rx, step.b); }
  }

  lemma LaneTurnInv(hash: Hash, sources: seq<seq<Byte>>, w: World, i: nat, step: Step)
    requires WorldInv(hash, sources, w) && CanTake(sources, w, LaneTurn(i, step))
    ensures WorldInv(hash, sources, Take(hash, sources, w, LaneTurn(i, step)))
  {
    hide NodeInv, Inv, ContentInv, Wf, Enabled, Apply, LoopInv;
    var v := Take(hash, sources, w, LaneTurn(i, step));
    assert LaneOk(hash, sources[i], w.lanes[i]);
    StepInv(hash, sources[i], w.lanes[i], step);
    ContentStep(hash, sources[i], w.lanes[i], step);
    VerdictsStay(hash, sources[i], w.lanes[i], step);
    forall j | 0 <= j < |v.lanes| ensures LaneOk(hash, sources[j], v.lanes[j]) {
      assert j != i ==> LaneOk(hash, sources[j], w.lanes[j]);
    }
    MoreOkInv(w.loop, Oks(w.lanes), Oks(v.lanes));
  }

  lemma BatchTurnInv(hash: Hash, sources: seq<seq<Byte>>, w: World, batch: seq<B.Item>)
    requires WorldInv(hash, sources, w) && CanTake(sources, w, BatchTurn(batch))
    ensures WorldInv(hash, sources, Take(hash, sources, w, BatchTurn(batch)))
  {
    hide NodeInv, Inv, ContentInv, Wf, LoopInv, CanBatch, BatchLane, OneReset, AllHonest;
    var v := Take(hash, sources, w, BatchTurn(batch));
    forall j | 0 <= j < |w.lanes|
      ensures LaneOk(hash, sources[j], v.lanes[j]) && v.lanes[j].tx == w.lanes[j].tx
      ensures w.lanes[j].rx.verified ==> v.lanes[j].rx.verified
    {
      assert LaneOk(hash, sources[j], w.lanes[j]);
      BatchLaneKeeps(hash, sources, w.lanes, batch, j);
    }
    assert Oks(v.lanes) == Oks(w.lanes);
  }

  lemma SenderTurnInv(hash: Hash, sources: seq<seq<Byte>>, w: World, e: Event)
    requires WorldInv(hash, sources, w) && CanTake(sources, w, SenderTurn(e))
    ensures WorldInv(hash, sources, Take(hash, sources, w, SenderTurn(e)))
  {
    hide NodeInv, LaneOk, LoopInv, Handle, Possible;
    HandleInv(w.sender, e);
    HandleKeeps(w.sender, e);
    if TransferDone in w.sender.out { ExtendsHas(w.sender.out, Handle(w.sender, e).out, TransferDone); }
  }

  lemma ReceiverTurnInv(hash: Hash, sources: seq<seq<Byte>>, w: World, e: Event)
    requires WorldInv(hash, sources, w) && CanTake(sources, w, ReceiverTurn(e))
    ensures WorldInv(hash, sources, Take(hash, sources, w, ReceiverTurn(e)))
  {
    hide NodeInv, LaneOk, LoopInv, Handle, Possible;
    HandleInv(w.receiver, e);
    HandleKeeps(w.receiver, e);
  }

  lemma TurnInv(hash: Hash, sources: seq<seq<Byte>>, w: World, t: Turn)
    requires WorldInv(hash, sources, w) && CanTake(sources, w, t)
    ensures WorldInv(hash, sources, Take(hash, sources, w, t))
  {
    match t
    case LaneTurn(i, step) => LaneTurnInv(hash, sources, w, i, step);
    case BatchTurn(batch) => BatchTurnInv(hash, sources, w, batch);
    case LoopTurn(move) => LoopTurnInv(hash, sources, w, move);
    case SenderTurn(e) => SenderTurnInv(hash, sources, w, e);
    case ReceiverTurn(e) => ReceiverTurnInv(hash, sources, w, e);
  }

  lemma LoopTurnInv(hash: Hash, sources: seq<seq<Byte>>, w: World, move: Move)
    requires WorldInv(hash, sources, w) && CanTake(sources, w, LoopTurn(move))
    ensures WorldInv(hash, sources, Take(hash, sources, w, LoopTurn(move)))
  {
    hide NodeInv, LaneOk, LoopInv;
    MoveInv(w.loop, Oks(w.lanes), move);
    MovedFinishes(w.loop, Oks(w.lanes), move);
    ReapedMembers(w.loop.inflight, Oks(w.lanes));
  }

  lemma MovedFinishes(c: Loop, ok: seq<bool>, m: Move)
    requires CanMove(c, ok, m)
    ensures c.finished ==> Moved(c, ok, m).finished
  {}

  // ---- runs ------------------------------------------------------------------------

  ghost predicate IsPlay(hash: Hash, sources: seq<seq<Byte>>, w: World, turns: seq<Turn>)
    decreases |turns|
  {
    turns == [] ||
    (CanTake(sources, w, turns[0]) && IsPlay(hash, sources, Take(hash, sources, w, turns[0]), turns[1..]))
  }

  ghost function Played(hash: Hash, sources: seq<seq<Byte>>, w: World, turns: seq<Turn>): World
    requires IsPlay(hash, sources, w, turns)
    decreases |turns|
  {
    if turns == [] then w else Played(hash, sources, Take(hash, sources, w, turns[0]), turns[1..])
  }

  lemma {:induction false} PlayInv(hash: Hash, sources: seq<seq<Byte>>, w: World, turns: seq<Turn>)
    requires WorldInv(hash, sources, w) && IsPlay(hash, sources, w, turns)
    ensures WorldInv(hash, sources, Played(hash, sources, w, turns))
    decreases |turns|
  {
    hide WorldInv, CanTake, Take;
    if turns != [] {
      TurnInv(hash, sources, w, turns[0]);
      PlayInv(hash, sources, Take(hash, sources, w, turns[0]), turns[1..]);
    }
  }

  /** What a receiver finds on disk for one file. */
  datatype Disk = Disk(part: Option<seq<Byte>>, final: Option<seq<Byte>>, record: Option<Record>)

  function StartWorld(sources: seq<seq<Byte>>, disks: seq<Disk>): World
    requires |sources| == |disks|
  {
    World(seq(|sources|, i requires 0 <= i < |sources| =>
                StartLane(|sources[i]|, disks[i].part, disks[i].final, disks[i].record)),
          LOOP_START, NEW_SENDER, NEW_RECEIVER, false)
  }

  lemma StartWorldInv(hash: Hash, sources: seq<seq<Byte>>, disks: seq<Disk>)
    requires |sources| == |disks|
    ensures WorldInv(hash, sources, StartWorld(sources, disks))
  {
    hide StartLane, Inv;
    var w := StartWorld(sources, disks);
    forall i | 0 <= i < |w.lanes| ensures LaneOk(hash, sources[i], w.lanes[i]) {
      StartInv(hash, sources[i], disks[i].part, disks[i].final, disks[i].record);
      StartEarly(|sources[i]|, disks[i].part, disks[i].final, disks[i].record);
    }
    StartNodes();
  }

  /**
   Completion agreement, for every interleaving of the files' steps, the sending loop
   and both sessions: a sender that reports completion has heard from the receiver
   that every file is verified; a receiver that reports completion has verified every
   file itself, and either the sender confirmed it or the session ended normally.
   Every file verified in this run is then the source, byte for byte.
   */
  lemma CompletionAgreement(hash: Hash, sources: seq<seq<Byte>>, disks: seq<Disk>, turns: seq<Turn>)
    requires |sources| == |disks| && Injective(hash)
    requires IsPlay(hash, sources, StartWorld(sources, disks), turns)
    ensures var w := Played(hash, sources, StartWorld(sources, disks), turns);
            && |w.lanes| == |sources|
            && (w.sender.phase == Completed ==> AllOk(w.lanes) && AllVerified(w.lanes))
            && (w.receiver.phase == Completed ==> AllVerified(w.lanes) && (AllOk(w.lanes) || w.closed))
            && forall i | 0 <= i < |w.lanes| && w.lanes[i].rx.verified && !w.lanes[i].early ::
                 w.lanes[i].rx.part == sources[i]
  {
    var start := StartWorld(sources, disks);
    StartWorldInv(hash, sources, disks);
    hide StartWorld, IsPlay, Played;
    PlayInv(hash, sources, start, turns);
    Conclusions(hash, sources, Played(hash, sources, start, turns));
  }

  function Txs(lanes: seq<Lane>): seq<FileTx> {
    seq(|lanes|, i requires 0 <= i < |lanes| => lanes[i].tx)
  }

  function AtAccept(lanes: seq<Lane>): seq<bool> {
    seq(|lanes|, i requires 0 <= i < |lanes| => lanes[i].early)
  }

  /**
   The progress ledger in every interleaving: what SACKs and verdicts confirmed, plus
   the files verified before this run, never exceeds the total, and is the total once
   every file is done. So the bound in `Progress` never takes effect.
   */
  lemma ProgressWithinTotal(hash: Hash, sources: seq<seq<Byte>>, disks: seq<Disk>, turns: seq<Turn>)
    requires |sources| == |disks|
    requires IsPlay(hash, sources, StartWorld(sources, disks), turns)
    ensures var w := Played(hash, sources, StartWorld(sources, disks), turns);
            var tx, atAccept := Txs(w.lanes), AtAccept(w.lanes);
            && WithinSizes(tx, atAccept) && CreditedOnce(tx, atAccept)
            && SumAcked(tx) + SumSizes(tx, atAccept) <= TotalBytes(tx)
            && (AllOk(w.lanes) ==> SumAcked(tx) + SumSizes(tx, atAccept) == TotalBytes(tx))
  {
    var start := StartWorld(sources, disks);
    StartWorldInv(hash, sources, disks);
    hide StartWorld, IsPlay, Played;
    PlayInv(hash, sources, start, turns);
    var w := Played(hash, sources, start, turns);
    LedgerOfWorld(hash, sources, w);
    LedgerExact(Txs(w.lanes), AtAccept(w.lanes));
  }

  lemma LedgerOfWorld(hash: Hash, sources: seq<seq<Byte>>, w: World)
    requires WorldInv(hash, sources, w)
    ensures var tx, atAccept := Txs(w.lanes), AtAccept(w.lanes);
            && WithinSizes(tx, atAccept) && CreditedOnce(tx, atAccept)
            && (AllOk(w.lanes) ==> Missing(tx, atAccept) == 0)
  {
    hide RxInv, DataInv, AckInv, SackInv, Wf, NodeInv, LoopInv, ContentInv;
    forall i | 0 <= i < |w.lanes|
      ensures w.lanes[i].tx.acked <= w.lanes[i].tx.size
      ensures w.lanes[i].early ==> w.lanes[i].tx.ok && w.lanes[i].tx.acked == 0
      ensures w.lanes[i].tx.ok && !w.lanes[i].early ==> w.lanes[i].tx.acked == w.lanes[i].tx.size
    {
      assert LaneOk(hash, sources[i], w.lanes[i]);
    }
    if AllOk(w.lanes) { NothingMissing(Txs(w.lanes), AtAccept(w.lanes)); }
  }

  lemma {:induction false} NothingMissing(tx: seq<FileTx>, atAccept: seq<bool>)
    requires |tx| == |atAccept|
    requires forall i | 0 <= i < |tx| && !atAccept[i] :: tx[i].acked == tx[i].size
    ensures Missing(tx, atAccept) == 0
  {
    if tx != [] {
      assert forall i | 0 <= i < |tx[1..]| :: tx[1..][i] == tx[i + 1] && atAccept[1..][i] == atAccept[i + 1];
      NothingMissing(tx[1..], atAccept[1..]);
    }
  }

  lemma Conclusions(hash: Hash, sources: seq<seq<Byte>>, w: World)
    requires WorldInv(hash, sources, w) && Injective(hash)
    ensures w.sender.doneSent ==> AllOk(w.lanes)
    ensures w.sender.phase == Completed ==> AllOk(w.lanes) && AllVerified(w.lanes)
    ensures w.receiver.phase == Completed ==> AllVerified(w.lanes) && (AllOk(w.lanes) || w.closed)
    ensures forall i | 0 <= i < |w.lanes| && w.lanes[i].rx.verified && !w.lanes[i].early ::
              w.lanes[i].rx.part == sources[i]
  {
    hide RxInv, DataInv, TxInv, SackInv, Wf;
    var ok := Oks(w.lanes);
    forall i | 0 <= i < |w.lanes|
      ensures w.lanes[i].tx.ok ==> w.lanes[i].rx.verified
      ensures w.sender.doneSent ==> w.lanes[i].tx.ok
      ensures w.lanes[i].rx.verified && !w.lanes[i].early ==> w.lanes[i].rx.part == sources[i]
    {
      assert LaneOk(hash, sources[i], w.lanes[i]);
      assert w.sender.doneSent ==> ok[i as nat];
    }
  }
}
