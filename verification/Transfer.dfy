/**
 One file's transfer as a state machine over both ends and the network between
 them. Blocks and SACKs travel over channels that may lose, repeat and reorder
 them: a channel is the set of everything ever sent, and any member may be
 delivered at any time, any number of times or never. The receiver's verdicts and
 the sender's hash travel over the reliable, ordered ctrl stream.
 */
module Transfer {
  import opened Wrappers
  import opened Manifest
  import opened Runs
  import opened Receiver
  import opened Sacks
  import opened Sender

  /** The runs per file that `accept` and the resume record hold at most. */
  const MAX_HAVE_RUNS: nat := 0x10_0000

  /** A SACK on the wire, with the received set and frontier it was made from. */
  datatype Packet = Packet(sack: Sack, epoch: nat, had: set<nat>, seen: nat)

  /** The `file_done` message. */
  datatype Done = NotSent | InFlight | Arrived

  /** A resume record for one file. */
  datatype Record = Record(have: seq<Run>, verified: bool)

  /**
   `epoch` counts how often the receiver started the file over, `txEpoch` how many
   of those `file_bad` messages the sender has handled. `resumed` are the blocks
   taken over from the resume record, `early` says the file was verified in an
   earlier run, and `heard` is the packet of the stored SACK.
   */
  datatype Lane = Lane(
    rx: FileRx,
    tx: FileTx,
    data: set<Block>,
    sacks: set<Packet>,
    acks: seq<Ack>,
    done: Done,
    epoch: nat,
    txEpoch: nat,
    resumed: set<nat>,
    early: bool,
    heard: Option<Packet>)

  // ---- start ---------------------------------------------------------------

  /** `EnsureSize`: a shorter part file is extended, a longer one is left as it is. */
  function Extend(part: seq<Byte>, size: nat): seq<Byte> {
    if |part| >= size then part else part + seq(size - |part|, _ => 0)
  }

  /**
   The receiver's state for one file when it starts with `part` on disk, if any. A file
   that is complete from the start owes the sender a report.
   */
  function StartRx(size: nat, part: Option<seq<Byte>>, final: Option<seq<Byte>>, record: Option<Record>): FileRx {
    var n := BlockCount(size);
    if record.Some? && record.value.verified && final.Some? then
      FileRx(size, final.value, AllBelow(n), 0, false, true, true, false, None)
    else if n == 0 then
      FileRx(size, [], {}, 0, true, true, false, false, None)
    else
      var disk := Extend(if part.Some? then part.value else [], size);
      var have := if record.Some? && part.Some? then Marked(record.value.have, n) else {};
      FileRx(size, disk, have, RunEnd(have, n, 0), Full(have, n), Full(have, n), false, true, None)
  }

  /** The runs the receiver reports in `accept` and stores in the resume record. */
  function HaveRuns(f: FileRx): seq<Run> {
    FirstRuns(f.have, f.Blocks(), 0, MAX_HAVE_RUNS)
  }

  /** Both ends right after `offer` and `accept`. */
  function StartLane(size: nat, part: Option<seq<Byte>>, final: Option<seq<Byte>>, record: Option<Record>): Lane {
    var rx := StartRx(size, part, final, record);
    var tx := if rx.verified then StartFile(size, []).(ok := true) else StartFile(size, HaveRuns(rx));
    Lane(rx, tx, {}, {}, [], NotSent, 0, 0, rx.have, rx.verified, None)
  }

  // ---- steps ---------------------------------------------------------------

  datatype Step =
    | SweepBlock
    | FinishSweep
    | Resend(k: nat)
    | DeliverBlock(b: Block)
    | DeliverDone
    | SendSack
    | DeliverSack(p: Packet)
    | DeliverAck

  function SourceBlock(source: seq<Byte>, k: nat): Block
    requires k < BlockCount(|source|)
  {
    Block(k, BlockOf(source, |source|, k))
  }

  /** The receiver's state after a block, before a complete file is judged. */
  function Absorbed(f: FileRx, b: Block): FileRx
    requires Wf(f)
  {
    if !Acceptable(f, b) then f
    else if b.index in f.have then Touched(f, b)
    else Stored(Touched(f, b), One(b))
  }

  /** The SACK about the receiver's present state. */
  function Report(f: FileRx, epoch: nat): Packet {
    Packet(MakeSack(f.have, f.Blocks(), f.frontier), epoch, f.have, f.frontier)
  }

  /** A block that completes the file is reported before the file is judged. */
  function TakeBlock(l: Lane, b: Block): Lane
    requires Wf(l.rx)
  {
    var f := Absorbed(l.rx, b);
    l.(rx := f, sacks := l.sacks + if f.complete && !l.rx.complete then {Report(f, l.epoch)} else {})
  }

  lemma AcceptIsJudged(hash: Hash, f: FileRx, b: Block)
    requires Wf(f)
    ensures AcceptOne(hash, f, b) == MaybeVerify(hash, Absorbed(f, b))
  {}

  /** The lane after the receiver's file became `f` and was judged if complete. */
  function Judged(hash: Hash, l: Lane, f: FileRx): Lane {
    var r := MaybeVerify(hash, f);
    l.(rx := r.file, acks := l.acks + r.acks, epoch := if r.acks == [FileBad] then l.epoch + 1 else l.epoch)
  }

  /**
   A SACK sent before the receiver started over is taken not to arrive once the
   sender has handled that `file_bad`; module `StaleSack` says what happens otherwise.
   */
  predicate Enabled(source: seq<Byte>, l: Lane, step: Step) {
    match step
    case SweepBlock => !l.tx.swept && !l.tx.ok && l.tx.pos < BlockCount(|source|)
    case FinishSweep => !l.tx.swept && !l.tx.ok && l.tx.pos == BlockCount(|source|)
    case Resend(k) => l.tx.swept && !l.tx.ok && Repairable(l.tx, k) && k < BlockCount(|source|)
    case DeliverBlock(b) => b in l.data
    case DeliverDone => l.done == InFlight
    case SendSack => !l.rx.verified && (l.rx.dirty || l.rx.complete)
    case DeliverSack(p) => p in l.sacks && l.txEpoch <= p.epoch
    case DeliverAck => l.acks != []
  }

  function Apply(hash: Hash, source: seq<Byte>, l: Lane, step: Step): Lane
    requires Wf(l.rx) && Enabled(source, l, step)
  {
    match step
    case SweepBlock =>
      var sent := if l.tx.pos in l.tx.skip then {} else {SourceBlock(source, l.tx.pos)};
      l.(tx := l.tx.(pos := l.tx.pos + 1), data := l.data + sent)
    case FinishSweep =>
      l.(tx := l.tx.(swept := true), done := InFlight)
    case Resend(k) =>
      l.(data := l.data + {SourceBlock(source, k)})
    case DeliverBlock(b) =>
      Judged(hash, TakeBlock(l, b), Absorbed(l.rx, b))
    case DeliverDone =>
      Judged(hash, l.(done := Arrived), l.rx.(expected := Some(hash(source))))
    case SendSack =>
      l.(rx := l.rx.(dirty := false), sacks := l.sacks + {Report(l.rx, l.epoch)})
    case DeliverSack(p) =>
      TakePacket(l, p)
    case DeliverAck =>
      if l.acks[0] == FileOk then l.(tx := TakeOk(l.tx), acks := l.acks[1..])
      else l.(tx := TakeBad(l.tx), acks := l.acks[1..], txEpoch := l.txEpoch + 1, heard := None)
  }

  function TakePacket(l: Lane, p: Packet): Lane {
    l.(tx := TakeSack(l.tx, p.sack), heard := if Outdated(l.tx, p.sack) then l.heard else Some(p))
  }

  // ---- invariant -----------------------------------------------------------

  /** The resumed blocks the receiver still relies on. */
  function Trusted(l: Lane): set<nat> {
    if l.epoch == 0 then l.resumed else {}
  }

  predicate Honest(source: seq<Byte>, f: FileRx, k: nat) {
    && f.size == |source| <= |f.part|
    && k < BlockCount(f.size)
    && BlockOf(f.part, f.size, k) == BlockOf(source, f.size, k)
  }

  /** Everything about the received file, including that set bits tell the truth. */
  ghost predicate RxInv(hash: Hash, source: seq<Byte>, l: Lane) {
    && l.rx.size == |source|
    && (l.rx.expected.None? || l.rx.expected == Some(hash(source)))
    && (l.rx.expected.Some? <==> l.done == Arrived)
    && (l.epoch > 0 ==> l.done == Arrived)
    && (BlockCount(|source|) == 0 ==> l.rx.complete)
    && Received(l.rx.have, Trusted(l), BlockCount(|source|), l.rx.frontier)
    && forall k | k in l.rx.have && k !in Trusted(l) :: Honest(source, l.rx, k)
  }

  ghost predicate DataInv(source: seq<Byte>, l: Lane) {
    forall b | b in l.data :: b.index < BlockCount(|source|) && b == SourceBlock(source, b.index)
  }

  function Bads(m: nat): seq<Ack> {
    seq(m, _ => FileBad)
  }

  /** The verdicts on their way, and what the sender has made of the earlier ones. */
  ghost predicate AckInv(l: Lane) {
    && l.txEpoch <= l.epoch
    && l.acks == Bads(l.epoch - l.txEpoch) + (if l.rx.verified && !l.tx.ok then [FileOk] else [])
    && (l.tx.ok ==> l.rx.verified && l.txEpoch == l.epoch)
  }

  ghost predicate TxInv(source: seq<Byte>, l: Lane) {
    && l.tx.size == |source|
    && l.tx.pos <= BlockCount(|source|)
    && (l.tx.swept <==> l.done != NotSent)
    && (l.tx.swept ==> l.tx.pos == BlockCount(|source|))
    && (!l.early ==> l.tx.skip == SkipOf(source, l))
    && (l.early ==> l.rx.verified && l.tx.ok)
    && (l.early ==> l.sacks == {})
    && l.tx.acked == Booked(source, l)
  }

  /** What the sender was told in `accept`, until a `file_bad` makes it forget. */
  function SkipOf(source: seq<Byte>, l: Lane): set<nat> {
    if l.txEpoch == 0 then Marked(FirstRuns(l.resumed, BlockCount(|source|), 0, MAX_HAVE_RUNS), BlockCount(|source|))
    else {}
  }

  /** A SACK describes what the receiver had when it was sent, and holds until a reset. */
  ghost predicate PacketOk(source: seq<Byte>, l: Lane, p: Packet) {
    && p.epoch <= l.epoch && p.had <= AllBelow(BlockCount(|source|))
    && p.sack == MakeSack(p.had, BlockCount(|source|), p.seen) && FrontierHeld(p.had, p.seen)
    && (p.epoch == l.epoch ==> p.had <= l.rx.have && Received(p.had, Trusted(l), BlockCount(|source|), p.seen))
  }

  /** The SACKs under way and the one the sender holds. */
  function Packets(l: Lane): set<Packet> {
    l.sacks + (if l.heard.Some? then {l.heard.value} else {})
  }

  ghost predicate SackInv(source: seq<Byte>, l: Lane) {
    && (forall p | p in Packets(l) :: PacketOk(source, l, p))
    && (l.tx.sack.Some? <==> l.heard.Some?)
    && (l.heard.Some? ==> l.txEpoch <= l.heard.value.epoch && l.tx.sack == Some(l.heard.value.sack))
  }

  /** The bytes booked for a file: those the stored SACK confirms, until the verdict is in. */
  function Booked(source: seq<Byte>, l: Lane): nat {
    if l.early then 0
    else if l.tx.ok then |source|
    else if l.heard.Some? then AckedBy(|source|, l.heard.value.sack)
    else 0
  }

  ghost predicate Inv(hash: Hash, source: seq<Byte>, l: Lane) {
    && Wf(l.rx)
    && RxInv(hash, source, l)
    && DataInv(source, l)
    && AckInv(l)
    && TxInv(source, l)
    && SackInv(source, l)
  }
}
