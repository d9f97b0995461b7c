/**
 `HandleBatch` joins consecutive fresh blocks of one file into a single write.
 It is proved against the engine that accepts and writes one block at a time.
 */
module ReceiverBatch {
  import opened Wrappers
  import opened Manifest
  import opened Runs
  import opened Receiver

  /** A queued block and the file it is for. */
  datatype Item = Item(file: nat, block: Block)

  datatype Note = Note(file: nat, ack: Ack)

  datatype Engine = Engine(files: seq<FileRx>, notes: seq<Note>)

  /** Once this much data is collected the run is written. */
  const FLUSH_BYTES: nat := 0x10_0000

  ghost predicate EngineWf(e: Engine) {
    forall i | 0 <= i < |e.files| :: Wf(e.files[i])
  }

  function Tagged(file: nat, acks: seq<Ack>): seq<Note> {
    seq(|acks|, i requires 0 <= i < |acks| => Note(file, acks[i]))
  }

  function Put(e: Engine, file: nat, r: Reply): Engine
    requires file < |e.files|
  {
    Engine(e.files[file := r.file], e.notes + Tagged(file, r.acks))
  }

  /** One block at a time. */
  ghost function Deliver(hash: Hash, e: Engine, p: Item): (r: Engine)
    requires EngineWf(e) && p.file < |e.files|
    ensures EngineWf(r) && |r.files| == |e.files|
  {
    AcceptOneWf(hash, e.files[p.file], p.block);
    Put(e, p.file, AcceptOne(hash, e.files[p.file], p.block))
  }

  ghost predicate InRange(e: Engine, batch: seq<Item>) {
    forall k | 0 <= k < |batch| :: batch[k].file < |e.files|
  }

  ghost function DeliverAll(hash: Hash, e: Engine, batch: seq<Item>): (r: Engine)
    requires EngineWf(e) && InRange(e, batch)
    ensures EngineWf(r) && |r.files| == |e.files|
  {
    if batch == [] then e
    else
      var n := |batch| - 1;
      Deliver(hash, DeliverAll(hash, e, batch[..n]), batch[n])
  }

  /** Equal but for the SACK bookkeeping of a file that is already complete. */
  ghost predicate SameFile(a: FileRx, b: FileRx) {
    a == b || (a.complete && b.complete && a == b.(frontier := a.frontier, dirty := a.dirty))
  }

  ghost predicate Same(a: Engine, b: Engine) {
    && |a.files| == |b.files|
    && a.notes == b.notes
    && forall i | 0 <= i < |a.files| :: SameFile(a.files[i], b.files[i])
  }

  predicate Successor(p: Item, q: Item) {
    q.file == p.file && q.block.index == p.block.index + 1
  }

  /** Accepting `p` completes a file whose hash then does not match. */
  ghost predicate Resets(hash: Hash, e: Engine, p: Item)
    requires EngineWf(e) && p.file < |e.files|
  {
    AcceptOne(hash, e.files[p.file], p.block).acks == [FileBad]
  }

  /** No block that makes its file start over is directly followed by the next block of that file. */
  ghost predicate NoSuccessorAfterReset(hash: Hash, e: Engine, batch: seq<Item>)
    requires EngineWf(e) && InRange(e, batch)
  {
    forall k | 0 < k < |batch| && Successor(batch[k - 1], batch[k]) ::
      !Resets(hash, DeliverAll(hash, e, batch[..k - 1]), batch[k - 1])
  }

  function Extended(run: Pending, b: Block): Pending {
    Pending(run.first, run.count + 1, run.data + b.payload)
  }

  /** The `contiguous` test of the loop, for a run of the same file. */
  predicate Contiguous(run: Pending, b: Block) {
    b.index == run.first + run.count && |run.data| == run.count * PAYLOAD
  }

  /** A fresh block added to the run is the same as writing the run and then the block. */
  lemma AppendIsAccept(hash: Hash, f: FileRx, run: Pending, b: Block)
    requires Wf(f) && RunFits(f, run) && Contiguous(run, b)
    requires Acceptable(f, b) && b.index !in f.have
    ensures Wf(Touched(f, b)) && RunFits(Touched(f, b), Extended(run, b))
    ensures Wf(FlushRun(hash, f, run).file) && FlushRun(hash, f, run).acks == []
    ensures AcceptOne(hash, FlushRun(hash, f, run).file, b)
         == FlushRun(hash, Touched(f, b), Extended(run, b))
  {
    StoredNotFull(f, run, b.index);
    FlushRunWf(hash, f, run);
    var g := Stored(f, run);
    assert FlushRun(hash, f, run) == Reply(g, []);
    assert Acceptable(g, b);
    StoredTwice(f, run, b);
  }

  lemma StoredNotFull(f: FileRx, run: Pending, missing: nat)
    requires Wf(f) && RunFits(f, run)
    requires missing < f.Blocks() && missing !in f.have && missing == run.first + run.count
    ensures !f.complete && !Stored(f, run).complete
    ensures missing !in Stored(f, run).have
  {
    assert missing in AllBelow(f.Blocks());
    assert missing !in Between(run.first, run.first + run.count);
  }

  lemma ExtendedFits(f: FileRx, run: Pending, b: Block)
    requires Wf(f) && RunFits(f, run) && Contiguous(run, b)
    requires Acceptable(f, b) && b.index !in f.have
    ensures Wf(Touched(f, b)) && RunFits(Touched(f, b), Extended(run, b))
  {}

  lemma OneFits(f: FileRx, b: Block)
    requires Wf(f) && Acceptable(f, b) && b.index !in f.have
    ensures Wf(Touched(f, b)) && RunFits(Touched(f, b), One(b))
  {}

  lemma MarkedTwice(have: set<nat>, a: nat, b: nat)
    requires a <= b
    ensures have + Between(a, b) + Between(b, b + 1) == have + Between(a, b + 1)
  {}

  lemma StoredPart(f: FileRx, run: Pending)
    requires Wf(f) && RunFits(f, run)
    ensures run.first * PAYLOAD + |run.data| <= |f.part|
    ensures Stored(f, run).part == Overwrite(f.part, run.first * PAYLOAD, run.data)
  {
    RunInFile(f, run);
  }

  /** What storing a run does to the fields other than the part file. */
  lemma StoredMarks(f: FileRx, run: Pending)
    requires Wf(f) && RunFits(f, run)
    ensures Stored(f, run).have == f.have + Between(run.first, run.first + run.count)
    ensures Stored(f, run).complete <==> f.complete || Full(Stored(f, run).have, f.Blocks())
    ensures var g := Stored(f, run);
            && g.size == f.size && g.frontier == f.frontier && g.dirty == (f.dirty && !g.complete)
            && g.verified == f.verified && g.open == f.open && g.expected == f.expected
  {
    hide Overwrite, Between, Full;
  }

  lemma EqualByField(a: FileRx, b: FileRx)
    requires a.size == b.size && a.part == b.part && a.have == b.have && a.frontier == b.frontier
    requires a.dirty == b.dirty && a.complete == b.complete && a.verified == b.verified
    requires a.open == b.open && a.expected == b.expected
    ensures a == b
  {}

  lemma StoredTwice(f: FileRx, run: Pending, b: Block)
    requires Wf(f) && RunFits(f, run) && Contiguous(run, b)
    requires Acceptable(f, b) && b.index !in f.have
    requires !Stored(f, run).complete && Wf(Stored(f, run)) && b.index !in Stored(f, run).have
    ensures Wf(Touched(f, b)) && RunFits(Touched(f, b), Extended(run, b))
    ensures Wf(Touched(Stored(f, run), b)) && RunFits(Touched(Stored(f, run), b), One(b))
    ensures Stored(Touched(Stored(f, run), b), One(b)) == Stored(Touched(f, b), Extended(run, b))
  {
    hide Wf, RunFits, AllBelow, Overwrite, Between, Stored, Acceptable, BlockCount, Full;
    ExtendedFits(f, run, b);
    StoredAcceptable(f, run, b);
    OneFits(Stored(f, run), b);
    StoredTwicePart(f, run, b);
    StoredMarks(f, run);
    StoredMarks(Touched(f, b), Extended(run, b));
    StoredMarks(Touched(Stored(f, run), b), One(b));
    MarkedTwice(f.have, run.first, b.index);
    EqualByField(Stored(Touched(Stored(f, run), b), One(b)), Stored(Touched(f, b), Extended(run, b)));
  }

  lemma StoredAcceptable(f: FileRx, run: Pending, b: Block)
    requires Wf(f) && RunFits(f, run)
    ensures Acceptable(Stored(f, run), b) <==> Acceptable(f, b)
  {}

  lemma StoredTwicePart(f: FileRx, run: Pending, b: Block)
    requires Wf(f) && RunFits(f, run) && Contiguous(run, b)
    requires Wf(Touched(f, b)) && RunFits(Touched(f, b), Extended(run, b))
    requires Wf(Touched(Stored(f, run), b)) && RunFits(Touched(Stored(f, run), b), One(b))
    ensures Stored(Touched(Stored(f, run), b), One(b)).part == Stored(Touched(f, b), Extended(run, b)).part
  {
    hide Overwrite, Stored, Full, BlockCount, BlockLen;
    StoredPart(f, run);
    StoredPart(Touched(f, b), Extended(run, b));
    StoredPart(Touched(Stored(f, run), b), One(b));
    OverwriteJoin(f.part, run.first * PAYLOAD, run.data, b.payload);
  }

  /** What the loop does with a block it already holds: it is counted, nothing is written. */
  ghost predicate SkipCommutes(hash: Hash, f: FileRx, run: Pending, b: Block)
    requires Wf(f) && RunFits(f, run) && Wf(Touched(f, b)) && RunFits(Touched(f, b), run)
    requires Wf(FlushRun(hash, f, run).file)
  {
    var late := FlushRun(hash, Touched(f, b), run);
    var early := FlushRun(hash, f, run);
    var after := AcceptOne(hash, early.file, b);
    SameFile(late.file, after.file) && late.acks == early.acks + after.acks
  }

  /**
   Deciding that `b` is a duplicate before the pending run is written, instead of
   after, changes nothing exactly when writing the run does not reset the file.
   */
  lemma EarlyDecision(hash: Hash, f: FileRx, run: Pending, b: Block)
    requires Wf(f) && RunFits(f, run)
    requires Acceptable(f, b) && b.index in f.have
    ensures Wf(Touched(f, b)) && RunFits(Touched(f, b), run)
    ensures Wf(FlushRun(hash, f, run).file)
    ensures SkipCommutes(hash, f, run, b) <==> FlushRun(hash, f, run).acks != [FileBad]
  {
    hide Wf, RunFits, Stored, Acceptable, Overwrite, Between, Full;
    FlushRunWf(hash, f, run);
    var g := Stored(f, run);
    TouchedStored(f, run, b);
    if FlushRun(hash, f, run).acks == [FileBad] {
      ResetLosesDuplicate(hash, f, run, b);
    } else {
      StoredAcceptable(f, run, b);
      StoredMarks(f, run);
    }
  }

  lemma TouchedStored(f: FileRx, run: Pending, b: Block)
    requires Wf(f) && RunFits(f, run)
    requires Acceptable(f, b)
    ensures Wf(Touched(f, b)) && RunFits(Touched(f, b), run)
    ensures var g := Stored(f, run); Stored(Touched(f, b), run) == Touched(g, b).(dirty := !g.complete)
  {
    hide Overwrite, Between, Full;
  }

  lemma ResetLosesDuplicate(hash: Hash, f: FileRx, run: Pending, b: Block)
    requires Wf(f) && RunFits(f, run)
    requires Acceptable(f, b) && b.index in f.have
    requires FlushRun(hash, f, run).acks == [FileBad]
    ensures Wf(FlushRun(hash, f, run).file)
    ensures b.index in AcceptOne(hash, FlushRun(hash, f, run).file, b).file.have
    ensures Wf(Touched(f, b)) && RunFits(Touched(f, b), run)
    ensures FlushRun(hash, Touched(f, b), run).file.have == {}
  {
    hide Stored, Overwrite, RunFits, Between;
    FlushRunWf(hash, f, run);
    TouchedStored(f, run, b);
    StoredMarks(f, run);
    RunApart(f, run, b.index);
    FirstBlockAfterReset(hash, FlushRun(hash, f, run).file, b, run.first);
  }

  lemma RunApart(f: FileRx, run: Pending, k: nat)
    requires RunFits(f, run) && k in f.have
    ensures run.first < f.Blocks() && run.first != k
  {}

  lemma FirstBlockAfterReset(hash: Hash, g: FileRx, b: Block, other: nat)
    requires Wf(g) && g.have == {} && !g.complete && Acceptable(g, b)
    requires other < g.Blocks() && other != b.index
    ensures b.index in AcceptOne(hash, g, b).file.have
  {
    hide Overwrite, Stored, Wf, RunFits, Acceptable;
    OneFits(g, b);
    var h := Touched(g, b);
    assert other in AllBelow(g.Blocks());
    StoredMarks(h, One(b));
    assert b.index in Between(b.index, b.index + 1) && other !in Between(b.index, b.index + 1);
  }

  /** A complete file takes no further block, so what its SACKs would say does not matter. */
  lemma AcceptSame(hash: Hash, f: FileRx, g: FileRx, b: Block)
    requires Wf(f) && Wf(g) && SameFile(f, g)
    ensures SameFile(AcceptOne(hash, f, b).file, AcceptOne(hash, g, b).file)
    ensures AcceptOne(hash, f, b).acks == AcceptOne(hash, g, b).acks
  {
    hide FlushRun;
    if f != g { CompleteHasAll(f, b); }
  }

  lemma CompleteHasAll(f: FileRx, b: Block)
    requires Wf(f) && f.complete
    ensures Acceptable(f, b) ==> b.index in f.have
  {}

  /** Engines that are the same stay so. */
  lemma DeliverSame(hash: Hash, a: Engine, b: Engine, p: Item)
    requires EngineWf(a) && EngineWf(b) && Same(a, b) && p.file < |a.files|
    ensures Same(Deliver(hash, a, p), Deliver(hash, b, p))
    ensures Resets(hash, a, p) <==> Resets(hash, b, p)
  {
    hide AcceptOne, Wf, SameFile;
    AcceptSame(hash, a.files[p.file], b.files[p.file], p.block);
  }

  /** The run collected so far; `file` is negative when there is none. */
  datatype Collected = Collected(file: int, run: Pending)

  ghost predicate Fits(e: Engine, c: Collected) {
    0 <= c.file ==> c.file < |e.files| && RunFits(e.files[c.file], c.run)
  }

  /** The engine once the collected run is written. */
  ghost function Settled(hash: Hash, e: Engine, c: Collected): Engine
    requires EngineWf(e) && Fits(e, c)
  {
    if c.file < 0 then e else Put(e, c.file, FlushRun(hash, e.files[c.file], c.run))
  }

  ghost predicate SettlingResets(hash: Hash, e: Engine, c: Collected)
    requires EngineWf(e) && Fits(e, c)
  {
    0 <= c.file && FlushRun(hash, e.files[c.file], c.run).acks == [FileBad]
  }

  lemma SettledWf(hash: Hash, e: Engine, c: Collected)
    requires EngineWf(e) && Fits(e, c)
    ensures EngineWf(Settled(hash, e, c)) && |Settled(hash, e, c).files| == |e.files|
  {
    if 0 <= c.file {
      FlushRunWf(hash, e.files[c.file], c.run);
    }
  }

  function Touch(e: Engine, p: Item): Engine
    requires p.file < |e.files|
  {
    e.(files := e.files[p.file := Touched(e.files[p.file], p.block)])
  }

  /** A fresh block that starts a run. */
  lemma StartRun(hash: Hash, e: Engine, p: Item)
    requires EngineWf(e) && p.file < |e.files|
    requires Acceptable(e.files[p.file], p.block) && p.block.index !in e.files[p.file].have
    ensures var c := Collected(p.file, One(p.block));
            && EngineWf(Touch(e, p)) && Fits(Touch(e, p), c)
            && Settled(hash, Touch(e, p), c) == Deliver(hash, e, p)
            && (SettlingResets(hash, Touch(e, p), c) <==> Resets(hash, e, p))
  {
    hide FlushRun, Wf, RunFits, Acceptable;
    OneFits(e.files[p.file], p.block);
    var f := FlushRun(hash, Touched(e.files[p.file], p.block), One(p.block));
    assert e.files[p.file := Touched(e.files[p.file], p.block)][p.file := f.file] == e.files[p.file := f.file];
  }

  /** A fresh block that continues the run. */
  lemma ExtendRun(hash: Hash, e: Engine, c: Collected, p: Item)
    requires EngineWf(e) && Fits(e, c) && 0 <= c.file == p.file && Contiguous(c.run, p.block)
    requires Acceptable(e.files[p.file], p.block) && p.block.index !in e.files[p.file].have
    ensures var d := Collected(p.file, Extended(c.run, p.block));
            && EngineWf(Settled(hash, e, c)) && p.file < |Settled(hash, e, c).files|
            && EngineWf(Touch(e, p)) && Fits(Touch(e, p), d)
            && Settled(hash, Touch(e, p), d) == Deliver(hash, Settled(hash, e, c), p)
            && (SettlingResets(hash, Touch(e, p), d) <==> Resets(hash, Settled(hash, e, c), p))
  {
    hide FlushRun, Wf, RunFits, Acceptable, AcceptOne;
    var f := e.files[p.file];
    AppendIsAccept(hash, f, c.run, p.block);
    SettledWf(hash, e, c);
    PutTwice(e, p.file, FlushRun(hash, f, c.run), AcceptOne(hash, FlushRun(hash, f, c.run).file, p.block));
    PutTwice(e, p.file, Reply(Touched(f, p.block), []), AcceptOne(hash, FlushRun(hash, f, c.run).file, p.block));
  }

  lemma PutTwice(e: Engine, file: nat, r: Reply, q: Reply)
    requires file < |e.files|
    ensures Put(Put(e, file, r), file, q) == Put(e, file, Reply(q.file, r.acks + q.acks))
  {
    assert Tagged(file, r.acks) + Tagged(file, q.acks) == Tagged(file, r.acks + q.acks);
  }

  /** A duplicate is only noted; the run stays as it is. */
  lemma SkipDuplicate(hash: Hash, e: Engine, c: Collected, p: Item)
    requires EngineWf(e) && Fits(e, c) && p.file < |e.files| && (c.file < 0 || c.file == p.file)
    requires Acceptable(e.files[p.file], p.block) && p.block.index in e.files[p.file].have
    requires !SettlingResets(hash, e, c)
    ensures EngineWf(Settled(hash, e, c)) && p.file < |Settled(hash, e, c).files|
    ensures EngineWf(Touch(e, p)) && Fits(Touch(e, p), c)
    ensures Same(Settled(hash, Touch(e, p), c), Deliver(hash, Settled(hash, e, c), p))
  {
    hide FlushRun, RunFits, Acceptable;
    SettledWf(hash, e, c);
    TouchedWf(e.files[p.file], p.block);
    if 0 <= c.file {
      hide AcceptOne, Wf;
      var f := e.files[p.file];
      EarlyDecision(hash, f, c.run, p.block);
      var early := FlushRun(hash, f, c.run);
      PutTwice(e, p.file, early, AcceptOne(hash, early.file, p.block));
      PutTwice(e, p.file, Reply(Touched(f, p.block), []), FlushRun(hash, Touched(f, p.block), c.run));
    }
  }

  lemma TouchedWf(f: FileRx, b: Block)
    requires Wf(f) && Acceptable(f, b)
    ensures Wf(Touched(f, b))
  {}

  /** The touched file still settles without or with a reset as before. */
  lemma SkipKeepsReset(hash: Hash, e: Engine, c: Collected, p: Item)
    requires EngineWf(e) && Fits(e, c) && 0 <= c.file == p.file
    requires Acceptable(e.files[p.file], p.block)
    ensures EngineWf(Touch(e, p)) && Fits(Touch(e, p), c)
    ensures SettlingResets(hash, Touch(e, p), c) <==> SettlingResets(hash, e, c)
  {
    TouchedStored(e.files[p.file], c.run, p.block);
  }

  /** A block of the wrong length or out of range is ignored before and after the write. */
  lemma Reject(hash: Hash, e: Engine, c: Collected, p: Item)
    requires EngineWf(e) && Fits(e, c) && p.file < |e.files| && (c.file < 0 || c.file == p.file)
    requires !Acceptable(e.files[p.file], p.block)
    ensures EngineWf(Settled(hash, e, c)) && p.file < |Settled(hash, e, c).files|
    ensures Deliver(hash, Settled(hash, e, c), p) == Settled(hash, e, c)
  {
    hide FlushRun, Wf, RunFits, Acceptable;
    SettledWf(hash, e, c);
    var s := Settled(hash, e, c);
    if 0 <= c.file {
      StillRejected(hash, e.files[p.file], c.run, p.block);
    }
    assert s.files[p.file := s.files[p.file]] == s.files;
    assert s.notes + Tagged(p.file, []) == s.notes;
  }

  lemma StillRejected(hash: Hash, f: FileRx, run: Pending, b: Block)
    requires Wf(f) && RunFits(f, run) && !Acceptable(f, b)
    ensures !Acceptable(FlushRun(hash, f, run).file, b)
  {
    hide Overwrite, Between, BlockCount, BlockLen, Full;
  }

  lemma DeliverAllSnoc(hash: Hash, e: Engine, batch: seq<Item>, k: nat)
    requires EngineWf(e) && InRange(e, batch) && k < |batch|
    ensures InRange(e, batch[..k]) && InRange(e, batch[..k + 1])
    ensures DeliverAll(hash, e, batch[..k + 1]) == Deliver(hash, DeliverAll(hash, e, batch[..k]), batch[k])
  {
    assert batch[..k + 1][..k] == batch[..k];
  }

  const NOTHING := Collected(-1, Pending(0, 0, []))

  function Added(c: Collected, p: Item): Collected {
    Collected(p.file, if c.file < 0 then One(p.block) else Extended(c.run, p.block))
  }

  // ---- the loop --------------------------------------------------------------------------

  /** The state of the loop: the engine and the run it has collected. */
  datatype Loop = Loop(engine: Engine, run: Collected)

  ghost predicate LoopOk(l: Loop) {
    EngineWf(l.engine) && Fits(l.engine, l.run)
  }

  predicate Joins(c: Collected, p: Item) {
    c.file == p.file && Contiguous(c.run, p.block)
  }

  /** Writes the run. */
  ghost function Flushed(hash: Hash, l: Loop): (r: Loop)
    requires LoopOk(l)
    ensures LoopOk(r) && |r.engine.files| == |l.engine.files| && r.run == NOTHING
  {
    SettledWf(hash, l.engine, l.run);
    Loop(Settled(hash, l.engine, l.run), NOTHING)
  }

  /** Decides about a block once the run it does not join has been written. */
  ghost function Decided(hash: Hash, l: Loop, p: Item): (r: Loop)
    requires LoopOk(l) && p.file < |l.engine.files| && (l.run.file < 0 || Joins(l.run, p))
    ensures LoopOk(r) && |r.engine.files| == |l.engine.files|
  {
    if !Acceptable(l.engine.files[p.file], p.block) then l
    else if p.block.index in l.engine.files[p.file].have then
      TouchFits(l.engine, l.run, p);
      Loop(Touch(l.engine, p), l.run)
    else
      AddedFits(l.engine, l.run, p);
      var r := Loop(Touch(l.engine, p), Added(l.run, p));
      if |r.run.run.data| >= FLUSH_BYTES then Flushed(hash, r) else r
  }

  ghost function LoopStep(hash: Hash, l: Loop, p: Item): (r: Loop)
    requires LoopOk(l) && p.file < |l.engine.files|
    ensures LoopOk(r) && |r.engine.files| == |l.engine.files|
  {
    Decided(hash, if Joins(l.run, p) then l else Flushed(hash, l), p)
  }

  /** The loop after the first `k` blocks. */
  ghost function Looped(hash: Hash, start: Engine, batch: seq<Item>, k: nat): (r: Loop)
    requires EngineWf(start) && InRange(start, batch) && k <= |batch|
    ensures LoopOk(r) && |r.engine.files| == |start.files|
  {
    if k == 0 then Loop(start, NOTHING) else LoopStep(hash, Looped(hash, start, batch, k - 1), batch[k - 1])
  }

  /** The run in memory never reaches 1 MiB. */
  lemma {:induction false} RunStaysSmall(hash: Hash, start: Engine, batch: seq<Item>, k: nat)
    requires EngineWf(start) && InRange(start, batch) && k <= |batch|
    ensures |Looped(hash, start, batch, k).run.run.data| < 0x10_0000
    decreases k
  {
    hide EngineWf, InRange, LoopOk, Flushed;
    if k > 0 { RunStaysSmall(hash, start, batch, k - 1); }
  }

  /** The engine after `HandleBatch` on the first `k` blocks. */
  ghost function Batched(hash: Hash, start: Engine, batch: seq<Item>, k: nat): (r: Engine)
    requires EngineWf(start) && InRange(start, batch) && k <= |batch|
    ensures EngineWf(r) && |r.files| == |start.files|
  {
    Flushed(hash, Looped(hash, start, batch, k)).engine
  }

  predicate IsDuplicate(e: Engine, p: Item)
    requires p.file < |e.files|
  {
    Acceptable(e.files[p.file], p.block) && p.block.index in e.files[p.file].have
  }

  /** How many of the first `k` blocks are counted as duplicates. */
  ghost function Duplicates(hash: Hash, start: Engine, batch: seq<Item>, k: nat): nat
    requires EngineWf(start) && InRange(start, batch) && k <= |batch|
  {
    if k == 0 then 0
    else
      var l, p := Looped(hash, start, batch, k - 1), batch[k - 1];
      Duplicates(hash, start, batch, k - 1)
      + if IsDuplicate((if Joins(l.run, p) then l else Flushed(hash, l)).engine, p) then 1 else 0
  }

  lemma AddedFits(e: Engine, c: Collected, p: Item)
    requires EngineWf(e) && Fits(e, c) && p.file < |e.files| && (c.file < 0 || Joins(c, p))
    requires Acceptable(e.files[p.file], p.block) && p.block.index !in e.files[p.file].have
    ensures EngineWf(Touch(e, p)) && Fits(Touch(e, p), Added(c, p))
  {
    hide Acceptable, Touched;
    if c.file < 0 { OneFits(e.files[p.file], p.block); } else { ExtendedFits(e.files[p.file], c.run, p.block); }
  }

  lemma TouchFits(e: Engine, c: Collected, p: Item)
    requires EngineWf(e) && Fits(e, c) && p.file < |e.files| && (c.file < 0 || c.file == p.file)
    requires Acceptable(e.files[p.file], p.block)
    ensures EngineWf(Touch(e, p)) && Fits(Touch(e, p), c)
  {
    TouchedWf(e.files[p.file], p.block);
  }

  // ---- the simulation -------------------------------------------------------------------------

  /**
   The one situation in which the loop goes wrong: a block is dropped as a duplicate
   although the run still to be written will make its file start over.
   */
  ghost predicate DroppedTooEarly(hash: Hash, l: Loop, p: Item)
    requires LoopOk(l) && p.file < |l.engine.files|
  {
    Joins(l.run, p) && IsDuplicate(l.engine, p) && SettlingResets(hash, l.engine, l.run)
  }

  ghost predicate Clean(hash: Hash, start: Engine, batch: seq<Item>, k: nat)
    requires EngineWf(start) && InRange(start, batch) && k <= |batch|
  {
    forall j: nat | j < k :: !DroppedTooEarly(hash, Looped(hash, start, batch, j), batch[j])
  }

  ghost predicate SimulatesLoop(hash: Hash, l: Loop, e: Engine)
    requires LoopOk(l)
  {
    Same(Settled(hash, l.engine, l.run), e)
  }

  lemma FlushSimulates(hash: Hash, l: Loop, e: Engine)
    requires LoopOk(l) && SimulatesLoop(hash, l, e)
    ensures SimulatesLoop(hash, Flushed(hash, l), e)
  {
    hide Same;
  }

  /** A block that joins the run, or finds none, is treated as it would be on its own. */
  lemma DecidedSimulates(hash: Hash, l: Loop, e: Engine, p: Item)
    requires LoopOk(l) && EngineWf(e) && SimulatesLoop(hash, l, e) && p.file < |l.engine.files|
    requires l.run.file < 0 || Joins(l.run, p)
    requires !DroppedTooEarly(hash, l, p)
    ensures p.file < |e.files| && SimulatesLoop(hash, Decided(hash, l, p), Deliver(hash, e, p))
  {
    hide FlushRun, Wf, RunFits, AcceptOne, Acceptable, Settled, SettlingResets, Same, Deliver, Fits, Touch, Contiguous;
    SettledWf(hash, l.engine, l.run);
    SameSize(Settled(hash, l.engine, l.run), e);
    DeliverSame(hash, Settled(hash, l.engine, l.run), e, p);
    if !Acceptable(l.engine.files[p.file], p.block) {
      Reject(hash, l.engine, l.run, p);
    } else if p.block.index in l.engine.files[p.file].have {
      if l.run.file < 0 { NothingResets(hash, l.engine, l.run); }
      SkipDuplicate(hash, l.engine, l.run, p);
      SameTransitive(Settled(hash, Touch(l.engine, p), l.run), Deliver(hash, Settled(hash, l.engine, l.run), p),
                     Deliver(hash, e, p));
    } else {
      FreshSimulates(hash, l, p);
      var r := Loop(Touch(l.engine, p), Added(l.run, p));
      if |r.run.run.data| >= FLUSH_BYTES { FlushSimulates(hash, r, Deliver(hash, e, p)); }
    }
  }

  lemma SameSize(a: Engine, b: Engine)
    requires Same(a, b)
    ensures |a.files| == |b.files|
  {}

  lemma NothingResets(hash: Hash, e: Engine, c: Collected)
    requires EngineWf(e) && Fits(e, c) && c.file < 0
    ensures !SettlingResets(hash, e, c)
  {}

  lemma FreshSimulates(hash: Hash, l: Loop, p: Item)
    requires LoopOk(l) && p.file < |l.engine.files| && (l.run.file < 0 || Joins(l.run, p))
    requires Acceptable(l.engine.files[p.file], p.block) && p.block.index !in l.engine.files[p.file].have
    ensures EngineWf(Settled(hash, l.engine, l.run)) && p.file < |Settled(hash, l.engine, l.run).files|
    ensures LoopOk(Loop(Touch(l.engine, p), Added(l.run, p)))
    ensures Settled(hash, Touch(l.engine, p), Added(l.run, p)) == Deliver(hash, Settled(hash, l.engine, l.run), p)
    ensures SettlingResets(hash, Touch(l.engine, p), Added(l.run, p))
       <==> Resets(hash, Settled(hash, l.engine, l.run), p)
  {
    hide FlushRun, Wf, RunFits, AcceptOne, Acceptable, Settled, SettlingResets, Resets, Deliver, Contiguous;
    if l.run.file < 0 {
      StartRun(hash, l.engine, p);
      SettledNothing(hash, l.engine, l.run);
    } else {
      ExtendRun(hash, l.engine, l.run, p);
    }
  }

  lemma SettledNothing(hash: Hash, e: Engine, c: Collected)
    requires EngineWf(e) && c.file < 0
    ensures Fits(e, c) && Settled(hash, e, c) == e
  {}

  lemma SameTransitive(a: Engine, b: Engine, c: Engine)
    requires Same(a, b) && Same(b, c)
    ensures Same(a, c)
  {
    forall i | 0 <= i < |a.files| ensures SameFile(a.files[i], c.files[i]) {
      assert SameFile(a.files[i], b.files[i]) && SameFile(b.files[i], c.files[i]);
    }
  }

  /** One block of the batch. */
  lemma StepSimulates(hash: Hash, l: Loop, e: Engine, p: Item)
    requires LoopOk(l) && EngineWf(e) && SimulatesLoop(hash, l, e) && p.file < |l.engine.files|
    requires !DroppedTooEarly(hash, l, p)
    ensures p.file < |e.files| && SimulatesLoop(hash, LoopStep(hash, l, p), Deliver(hash, e, p))
  {
    hide LoopOk, SimulatesLoop, DroppedTooEarly, Decided, Deliver, EngineWf, Joins;
    if Joins(l.run, p) {
      DecidedSimulates(hash, l, e, p);
    } else {
      FlushSimulates(hash, l, e);
      NotDropped(hash, Flushed(hash, l), p);
      DecidedSimulates(hash, Flushed(hash, l), e, p);
    }
  }

  lemma NotDropped(hash: Hash, l: Loop, p: Item)
    requires LoopOk(l) && p.file < |l.engine.files| && l.run == NOTHING
    ensures !DroppedTooEarly(hash, l, p)
  {}

  lemma {:induction false} LoopSimulates(hash: Hash, start: Engine, batch: seq<Item>, k: nat)
    requires EngineWf(start) && InRange(start, batch) && k <= |batch| && Clean(hash, start, batch, k)
    ensures SimulatesLoop(hash, Looped(hash, start, batch, k), DeliverAll(hash, start, batch[..k]))
  {
    hide LoopOk, SimulatesLoop, DroppedTooEarly, LoopStep, Deliver, EngineWf, DeliverAll;
    if k == 0 {
      StartSimulates(hash, start, batch);
    } else {
      LoopSimulates(hash, start, batch, k - 1);
      DeliverAllSnoc(hash, start, batch, k - 1);
      StepSimulates(hash, Looped(hash, start, batch, k - 1), DeliverAll(hash, start, batch[..k - 1]), batch[k - 1]);
    }
  }

  lemma StartSimulates(hash: Hash, start: Engine, batch: seq<Item>)
    requires EngineWf(start) && InRange(start, batch)
    ensures LoopOk(Loop(start, NOTHING))
    ensures SimulatesLoop(hash, Loop(start, NOTHING), DeliverAll(hash, start, batch[..0]))
  {
    hide Wf;
  }

  /** A block dropped too early is missing, where one at a time it would have been kept. */
  lemma DroppedDiffers(hash: Hash, l: Loop, e: Engine, p: Item)
    requires LoopOk(l) && EngineWf(e) && SimulatesLoop(hash, l, e) && p.file < |l.engine.files|
    requires DroppedTooEarly(hash, l, p)
    ensures p.file < |e.files| && !SimulatesLoop(hash, LoopStep(hash, l, p), Deliver(hash, e, p))
  {
    hide FlushRun, Wf, RunFits, Acceptable, AcceptOne;
    var f := l.engine.files[p.file];
    ResetLosesDuplicate(hash, f, l.run.run, p.block);
    var early := FlushRun(hash, f, l.run.run);
    var s := Settled(hash, l.engine, l.run);
    SettledWf(hash, l.engine, l.run);
    DeliverSame(hash, s, e, p);
    assert SameFile(Deliver(hash, s, p).files[p.file], Deliver(hash, e, p).files[p.file]);
    assert s.files[p.file] == early.file;
    var r := LoopStep(hash, l, p);
    assert r == Loop(Touch(l.engine, p), l.run);
    assert Settled(hash, r.engine, r.run).files[p.file] == FlushRun(hash, Touched(f, p.block), l.run.run).file;
  }

  /**
   Batched writing refines one-at-a-time writing exactly while no block is dropped too
   early: every prefix of the batch leaves the engine as its blocks one by one would,
   if and only if the situation above never arises.
   */
  lemma BatchRefinesIff(hash: Hash, start: Engine, batch: seq<Item>)
    requires EngineWf(start) && InRange(start, batch)
    ensures (forall k: nat | k <= |batch| :: Same(Batched(hash, start, batch, k), DeliverAll(hash, start, batch[..k])))
       <==> Clean(hash, start, batch, |batch|)
  {
    hide LoopOk, SimulatesLoop, DroppedTooEarly, LoopStep, Looped, Deliver, EngineWf;
    hide DeliverAll, Same, Flushed, Batched;
    if Clean(hash, start, batch, |batch|) {
      forall k: nat | k <= |batch|
        ensures Same(Batched(hash, start, batch, k), DeliverAll(hash, start, batch[..k]))
      {
        LoopSimulates(hash, start, batch, k);
        BatchedMeans(hash, start, batch, k);
      }
    } else {
      var k := FirstDrop(hash, start, batch);
      NotRefined(hash, start, batch, k);
    }
  }

  lemma BatchedMeans(hash: Hash, start: Engine, batch: seq<Item>, k: nat)
    requires EngineWf(start) && InRange(start, batch) && k <= |batch|
    ensures Same(Batched(hash, start, batch, k), DeliverAll(hash, start, batch[..k]))
       <==> SimulatesLoop(hash, Looped(hash, start, batch, k), DeliverAll(hash, start, batch[..k]))
  {}

  lemma FirstDrop(hash: Hash, start: Engine, batch: seq<Item>) returns (k: nat)
    requires EngineWf(start) && InRange(start, batch) && !Clean(hash, start, batch, |batch|)
    ensures k < |batch| && Clean(hash, start, batch, k)
    ensures DroppedTooEarly(hash, Looped(hash, start, batch, k), batch[k])
  {
    hide LoopOk, DroppedTooEarly, Looped, EngineWf, InRange;
    k := 0;
    while Clean(hash, start, batch, k + 1)
      invariant k < |batch| && Clean(hash, start, batch, k)
      decreases |batch| - k
    {
      k := k + 1;
    }
  }

  lemma NotRefined(hash: Hash, start: Engine, batch: seq<Item>, k: nat)
    requires EngineWf(start) && InRange(start, batch) && k < |batch| && Clean(hash, start, batch, k)
    requires DroppedTooEarly(hash, Looped(hash, start, batch, k), batch[k])
    ensures !Same(Batched(hash, start, batch, k + 1), DeliverAll(hash, start, batch[..k + 1]))
  {
    hide *;
    LoopSimulates(hash, start, batch, k);
    DeliverAllSnoc(hash, start, batch, k);
    LoopedNext(hash, start, batch, k);
    DroppedDiffers(hash, Looped(hash, start, batch, k), DeliverAll(hash, start, batch[..k]), batch[k]);
    BatchedMeans(hash, start, batch, k + 1);
  }

  lemma LoopedNext(hash: Hash, start: Engine, batch: seq<Item>, k: nat)
    requires EngineWf(start) && InRange(start, batch) && k < |batch|
    ensures batch[k].file < |Looped(hash, start, batch, k).engine.files|
    ensures Looped(hash, start, batch, k + 1) == LoopStep(hash, Looped(hash, start, batch, k), batch[k])
  {}

  // ---- a condition on the batch alone ---------------------------------------------------------------

  /** `p` is the block the collected run ends with. */
  ghost predicate LastOf(c: Collected, p: Item) {
    p.file == c.file && p.block.index + 1 == c.run.first + c.run.count
  }

  /** If writing the run will reset the file, then it was the last block that completed it. */
  ghost predicate ResetIsLast(hash: Hash, start: Engine, batch: seq<Item>, k: nat)
    requires EngineWf(start) && InRange(start, batch) && k <= |batch|
  {
    var l := Looped(hash, start, batch, k);
    SettlingResets(hash, l.engine, l.run) ==>
      && 0 < k && LastOf(l.run, batch[k - 1])
      && Resets(hash, DeliverAll(hash, start, batch[..k - 1]), batch[k - 1])
  }

  /** A block that joins the run never finds a reset pending. */
  lemma NoLateReset(hash: Hash, start: Engine, batch: seq<Item>, k: nat)
    requires EngineWf(start) && InRange(start, batch) && k < |batch| && ResetIsLast(hash, start, batch, k)
    requires NoSuccessorAfterReset(hash, start, batch)
    requires Joins(Looped(hash, start, batch, k).run, batch[k])
    ensures var l := Looped(hash, start, batch, k); !SettlingResets(hash, l.engine, l.run)
  {
    hide FlushRun, Wf, RunFits, DeliverAll, AcceptOne, Resets, Looped, SettlingResets;
    var c := Looped(hash, start, batch, k).run;
    assert 0 < k && LastOf(c, batch[k - 1]) ==> Successor(batch[k - 1], batch[k]);
  }

  lemma ResetStaysLast(hash: Hash, start: Engine, batch: seq<Item>, k: nat)
    requires EngineWf(start) && InRange(start, batch) && k < |batch|
    requires ResetIsLast(hash, start, batch, k) && NoSuccessorAfterReset(hash, start, batch)
    requires Clean(hash, start, batch, k)
    ensures ResetIsLast(hash, start, batch, k + 1)
    ensures !DroppedTooEarly(hash, Looped(hash, start, batch, k), batch[k])
  {
    hide FlushRun, DeliverAll, Resets, SettlingResets, NoSuccessorAfterReset, EngineWf, LoopOk, Fits, Decided;
    hide SimulatesLoop, Flushed, LastOf, Clean;
    var l, p, e := Looped(hash, start, batch, k), batch[k], DeliverAll(hash, start, batch[..k]);
    LoopSimulates(hash, start, batch, k);
    if Joins(l.run, p) {
      NoLateReset(hash, start, batch, k);
      DecidedReset(hash, l, e, p);
    } else {
      var m := Flushed(hash, l);
      FlushSimulates(hash, l, e);
      FlushedResets(hash, l);
      DecidedReset(hash, m, e, p);
    }
  }

  lemma FlushedResets(hash: Hash, l: Loop)
    requires LoopOk(l)
    ensures var m := Flushed(hash, l);
            EngineWf(m.engine) && Fits(m.engine, m.run) && !SettlingResets(hash, m.engine, m.run)
  {}

  /** Only a fresh block can bring about a reset, and it does so on its own as well. */
  lemma DecidedReset(hash: Hash, l: Loop, e: Engine, p: Item)
    requires LoopOk(l) && EngineWf(e) && SimulatesLoop(hash, l, e) && p.file < |l.engine.files|
    requires l.run.file < 0 || Joins(l.run, p)
    requires !SettlingResets(hash, l.engine, l.run)
    ensures p.file < |e.files|
    ensures var r := Decided(hash, l, p);
            SettlingResets(hash, r.engine, r.run) ==> LastOf(r.run, p) && Resets(hash, e, p)
  {
    hide FlushRun, Wf, RunFits, AcceptOne, Acceptable, Settled, SettlingResets, Resets, Same, Fits, Touch;
    SettledWf(hash, l.engine, l.run);
    SameSize(Settled(hash, l.engine, l.run), e);
    DeliverSame(hash, Settled(hash, l.engine, l.run), e, p);
    if Acceptable(l.engine.files[p.file], p.block) {
      if p.block.index in l.engine.files[p.file].have {
        TouchFits(l.engine, l.run, p);
        if l.run.file < 0 {
          NothingResets(hash, Touch(l.engine, p), l.run);
        } else {
          SkipKeepsReset(hash, l.engine, l.run, p);
        }
      } else {
        FreshSimulates(hash, l, p);
        var r := Loop(Touch(l.engine, p), Added(l.run, p));
        if |r.run.run.data| >= FLUSH_BYTES { FlushedResets(hash, r); }
      }
    }
  }

  lemma {:induction false} NoSuccessorIsClean(hash: Hash, start: Engine, batch: seq<Item>, k: nat)
    requires EngineWf(start) && InRange(start, batch) && k <= |batch|
    requires NoSuccessorAfterReset(hash, start, batch)
    ensures Clean(hash, start, batch, k) && ResetIsLast(hash, start, batch, k)
  {
    hide DroppedTooEarly, LoopStep, EngineWf, InRange, NoSuccessorAfterReset, LoopOk, ResetIsLast;
    if k == 0 {
      NoResetAtStart(hash, start, batch);
    } else {
      NoSuccessorIsClean(hash, start, batch, k - 1);
      ResetStaysLast(hash, start, batch, k - 1);
    }
  }

  lemma NoResetAtStart(hash: Hash, start: Engine, batch: seq<Item>)
    requires EngineWf(start) && InRange(start, batch)
    ensures ResetIsLast(hash, start, batch, 0)
  {}

  /**
   In terms of the batch alone: unless a block that makes its file start over is
   directly followed by that file's next block, batching changes nothing.
   */
  lemma BatchRefines(hash: Hash, start: Engine, batch: seq<Item>)
    requires EngineWf(start) && InRange(start, batch) && NoSuccessorAfterReset(hash, start, batch)
    ensures Same(Batched(hash, start, batch, |batch|), DeliverAll(hash, start, batch))
  {
    hide Clean, Batched, DeliverAll, EngineWf, InRange, NoSuccessorAfterReset, Same;
    NoSuccessorIsClean(hash, start, batch, |batch|);
    BatchRefinesIff(hash, start, batch);
    assert batch[..|batch|] == batch;
  }

  // ---- duplicate decisions -------------------------------------------------------------------

  /** The engine that decides about a block: the run it does not join has been written. */
  ghost function Decider(hash: Hash, l: Loop, p: Item): (e: Engine)
    requires LoopOk(l) && p.file < |l.engine.files|
    ensures p.file < |e.files|
  {
    if Joins(l.run, p) then l.engine else Flushed(hash, l).engine
  }

  /** How many of the first `k` blocks are duplicates if each is taken on its own. */
  ghost function SingleDuplicates(hash: Hash, start: Engine, batch: seq<Item>, k: nat): nat
    requires EngineWf(start) && InRange(start, batch) && k <= |batch|
  {
    if k == 0 then 0
    else
      SingleDuplicates(hash, start, batch, k - 1)
      + if IsDuplicate(DeliverAll(hash, start, batch[..k - 1]), batch[k - 1]) then 1 else 0
  }

  /** A duplicate is counted although the run still to be written will settle its file. */
  ghost predicate CountedTooEarly(hash: Hash, l: Loop, p: Item)
    requires LoopOk(l) && p.file < |l.engine.files|
  {
    && Joins(l.run, p) && IsDuplicate(l.engine, p)
    && FlushRun(hash, l.engine.files[p.file], l.run.run).acks != []
  }

  /** What writing the run does to the decision about a block that joins it. */
  lemma JoinedDecision(hash: Hash, f: FileRx, run: Pending, b: Block)
    requires Wf(f) && RunFits(f, run) && Contiguous(run, b)
    ensures var r := FlushRun(hash, f, run);
            (Acceptable(r.file, b) && b.index in r.file.have) == (Acceptable(f, b) && b.index in f.have)
            <==> !(Acceptable(f, b) && b.index in f.have && r.acks != [])
  {
    hide Wf, RunFits, Stored, Acceptable, Between;
    if !Acceptable(f, b) {
      StillRejected(hash, f, run, b);
    } else if b.index !in f.have {
      JoinedIsMissing(f, run, b);
      StoredNotFull(f, run, b.index);
    } else {
      StoredAcceptable(f, run, b);
      StoredMarks(f, run);
      SettledTakesNone(hash, Stored(f, run), b);
    }
  }

  lemma JoinedIsMissing(f: FileRx, run: Pending, b: Block)
    requires Acceptable(f, b) && Contiguous(run, b)
    ensures b.index < f.Blocks() && b.index == run.first + run.count
  {}

  /** A file that has just been judged takes no block as a duplicate. */
  lemma SettledTakesNone(hash: Hash, f: FileRx, b: Block)
    ensures var r := MaybeVerify(hash, f);
            r.acks != [] ==> !(Acceptable(r.file, b) && b.index in r.file.have)
    ensures MaybeVerify(hash, f).acks == [] ==> MaybeVerify(hash, f).file == f
  {}

  lemma SameDecision(a: Engine, b: Engine, p: Item)
    requires Same(a, b) && p.file < |a.files|
    ensures IsDuplicate(a, p) <==> IsDuplicate(b, p)
  {
    assert SameFile(a.files[p.file], b.files[p.file]);
  }

  /** The decision is the one made block by block exactly if it is not made too early. */
  lemma DecisionIff(hash: Hash, l: Loop, e: Engine, p: Item)
    requires LoopOk(l) && EngineWf(e) && SimulatesLoop(hash, l, e) && p.file < |l.engine.files|
    ensures p.file < |e.files|
    ensures IsDuplicate(Decider(hash, l, p), p) == IsDuplicate(e, p) <==> !CountedTooEarly(hash, l, p)
  {
    hide Wf, RunFits, FlushRun, Acceptable, Contiguous, Same;
    SettledWf(hash, l.engine, l.run);
    var s := Settled(hash, l.engine, l.run);
    SameSize(s, e);
    SameDecision(s, e, p);
    if Joins(l.run, p) { JoinedDecision(hash, l.engine.files[p.file], l.run.run, p.block); }
  }

  ghost predicate CountedInTime(hash: Hash, start: Engine, batch: seq<Item>, k: nat)
    requires EngineWf(start) && InRange(start, batch) && k <= |batch|
  {
    forall j: nat | j < k :: !CountedTooEarly(hash, Looped(hash, start, batch, j), batch[j])
  }

  lemma InTimeIsClean(hash: Hash, start: Engine, batch: seq<Item>, k: nat)
    requires EngineWf(start) && InRange(start, batch) && k <= |batch| && CountedInTime(hash, start, batch, k)
    ensures Clean(hash, start, batch, k)
  {
    hide Looped, FlushRun, LoopOk, IsDuplicate;
    forall j: nat | j < k ensures !DroppedTooEarly(hash, Looped(hash, start, batch, j), batch[j]) {
      assert !CountedTooEarly(hash, Looped(hash, start, batch, j), batch[j]);
    }
  }

  lemma DuplicatesNext(hash: Hash, start: Engine, batch: seq<Item>, k: nat)
    requires EngineWf(start) && InRange(start, batch) && k < |batch|
    requires Clean(hash, start, batch, k)
    ensures var l := Looped(hash, start, batch, k);
            (Duplicates(hash, start, batch, k + 1) - Duplicates(hash, start, batch, k)
             == SingleDuplicates(hash, start, batch, k + 1) - SingleDuplicates(hash, start, batch, k))
            <==> !CountedTooEarly(hash, l, batch[k])
  {
    hide Looped, LoopOk, CountedTooEarly, SimulatesLoop, EngineWf, IsDuplicate, Clean, DeliverAll, Flushed;
    LoopSimulates(hash, start, batch, k);
    DecisionIff(hash, Looped(hash, start, batch, k), DeliverAll(hash, start, batch[..k]), batch[k]);
  }

  lemma {:induction false} InTimeCounts(hash: Hash, start: Engine, batch: seq<Item>, k: nat)
    requires EngineWf(start) && InRange(start, batch) && k <= |batch| && CountedInTime(hash, start, batch, k)
    ensures Duplicates(hash, start, batch, k) == SingleDuplicates(hash, start, batch, k)
  {
    hide EngineWf, InRange, Looped, LoopOk, CountedTooEarly, IsDuplicate, DeliverAll, Flushed;
    if k > 0 {
      InTimeCounts(hash, start, batch, k - 1);
      InTimeIsClean(hash, start, batch, k - 1);
      DuplicatesNext(hash, start, batch, k - 1);
    }
  }

  /**
   The duplicate counter of every prefix of the batch is that of its blocks one by one,
   if and only if no duplicate joins a run whose writing verifies or resets the file.
   */
  lemma DuplicatesIff(hash: Hash, start: Engine, batch: seq<Item>)
    requires EngineWf(start) && InRange(start, batch)
    ensures (forall k: nat | k <= |batch| ::
               Duplicates(hash, start, batch, k) == SingleDuplicates(hash, start, batch, k))
       <==> CountedInTime(hash, start, batch, |batch|)
  {
    hide EngineWf, InRange, Looped, LoopOk, CountedTooEarly, IsDuplicate, DeliverAll, Flushed;
    hide Duplicates, SingleDuplicates;
    if CountedInTime(hash, start, batch, |batch|) {
      forall k: nat | k <= |batch|
        ensures Duplicates(hash, start, batch, k) == SingleDuplicates(hash, start, batch, k)
      {
        InTimeCounts(hash, start, batch, k);
      }
    } else {
      var k := FirstMiscount(hash, start, batch);
      MiscountByOne(hash, start, batch, k);
    }
  }

  lemma FirstMiscount(hash: Hash, start: Engine, batch: seq<Item>) returns (k: nat)
    requires EngineWf(start) && InRange(start, batch) && !CountedInTime(hash, start, batch, |batch|)
    ensures k < |batch| && CountedInTime(hash, start, batch, k)
    ensures CountedTooEarly(hash, Looped(hash, start, batch, k), batch[k])
  {
    hide LoopOk, CountedTooEarly, Looped, EngineWf, InRange;
    k := 0;
    while CountedInTime(hash, start, batch, k + 1)
      invariant k < |batch| && CountedInTime(hash, start, batch, k)
      decreases |batch| - k
    {
      k := k + 1;
    }
  }

  lemma MiscountByOne(hash: Hash, start: Engine, batch: seq<Item>, k: nat)
    requires EngineWf(start) && InRange(start, batch) && k < |batch| && CountedInTime(hash, start, batch, k)
    requires CountedTooEarly(hash, Looped(hash, start, batch, k), batch[k])
    ensures Duplicates(hash, start, batch, k + 1) == SingleDuplicates(hash, start, batch, k + 1) + 1
  {
    hide EngineWf, InRange, Looped, LoopOk, CountedInTime, Clean, DeliverAll, Flushed;
    InTimeIsClean(hash, start, batch, k);
    InTimeCounts(hash, start, batch, k);
    DuplicatesNext(hash, start, batch, k);
  }

  // ---- both happen ------------------------------------------------------------------------------

  /** A file of two blocks of which the second has arrived. */
  function HalfFile(expected: Digest): FileRx {
    FileRx(2 * PAYLOAD, seq(2 * PAYLOAD, _ => 0), {1}, 2, false, false, false, true, Some(expected))
  }

  function Zeros(index: nat): Block {
    Block(index, seq(PAYLOAD, _ => 0))
  }

  /**
   It does happen: both blocks arrive in one batch and the hash does not match. The
   second one is lost with the reset, although it was received after the first.
   */
  lemma DropHappens(hash: Hash, expected: Digest)
    requires hash(seq(2 * PAYLOAD, _ => 0)) != expected
    ensures var start := Engine([HalfFile(expected)], []);
            var batch := [Item(0, Zeros(0)), Item(0, Zeros(1))];
            && EngineWf(start) && InRange(start, batch)
            && !Clean(hash, start, batch, 2)
  {
    hide Deliver, DeliverAll;
    var f := HalfFile(expected);
    var start := Engine([f], []);
    var p, q := Item(0, Zeros(0)), Item(0, Zeros(1));
    var batch := [p, q];
    HalfFileWf(expected);
    FirstHalf(hash, expected, start, batch);
    var l := Looped(hash, start, batch, 1);
    assert DroppedTooEarly(hash, l, batch[1]);
  }

  lemma HalfFileWf(expected: Digest)
    ensures Wf(HalfFile(expected))
  {
    assert 0 in AllBelow(2) && 0 !in {1};
  }

  /**
   Whatever the hash: that second block is counted as a duplicate, although its file has
   been verified or reset by then. One by one it is ignored or kept.
   */
  lemma MiscountHappens(hash: Hash, expected: Digest)
    ensures var start := Engine([HalfFile(expected)], []);
            var batch := [Item(0, Zeros(0)), Item(0, Zeros(1))];
            && EngineWf(start) && InRange(start, batch)
            && Duplicates(hash, start, batch, 2) == SingleDuplicates(hash, start, batch, 2) + 1
  {
    hide Deliver, DeliverAll, Duplicates, SingleDuplicates;
    var start := Engine([HalfFile(expected)], []);
    var batch := [Item(0, Zeros(0)), Item(0, Zeros(1))];
    HalfFileWf(expected);
    FirstHalf(hash, expected, start, batch);
    assert !CountedTooEarly(hash, Looped(hash, start, batch, 0), batch[0]);
    assert CountedTooEarly(hash, Looped(hash, start, batch, 1), batch[1]);
    assert CountedInTime(hash, start, batch, 1);
    MiscountByOne(hash, start, batch, 1);
  }

  lemma FirstHalf(hash: Hash, expected: Digest, start: Engine, batch: seq<Item>)
    requires start == Engine([HalfFile(expected)], []) && batch == [Item(0, Zeros(0)), Item(0, Zeros(1))]
    requires EngineWf(start) && InRange(start, batch)
    ensures Looped(hash, start, batch, 1) == Loop(Touch(start, batch[0]), Collected(0, One(Zeros(0))))
    ensures var l := Looped(hash, start, batch, 1);
            FlushRun(hash, l.engine.files[0], l.run.run).acks
            == if hash(seq(2 * PAYLOAD, _ => 0)) == expected then [FileOk] else [FileBad]
  {
    var f := HalfFile(expected);
    var g := Touched(f, Zeros(0));
    OneFits(f, Zeros(0));
    assert Looped(hash, start, batch, 0) == Loop(start, NOTHING);
    StoredMarks(g, One(Zeros(0)));
    StoredPart(g, One(Zeros(0)));
    assert Overwrite(g.part, 0, Zeros(0).payload) == seq(2 * PAYLOAD, _ => 0);
  }

  class ReceiverTransfer {
    const hash: Hash
    var files: seq<FileRx>
    var notes: seq<Note>
    var duplicates: nat

    constructor (hash: Hash, files: seq<FileRx>)
      ensures this.hash == hash && this.files == files && notes == [] && duplicates == 0
    {
      this.hash, this.files, notes, duplicates := hash, files, [], 0;
    }

    ghost function View(): Engine
      reads this
    {
      Engine(files, notes)
    }

    method Flush(c: Collected)
      requires EngineWf(View()) && Fits(View(), c)
      modifies this`files, this`notes
      ensures View() == Settled(hash, old(View()), c)
    {
      if 0 <= c.file {
        var r := FlushRun(hash, files[c.file], c.run);
        files := files[c.file := r.file];
        notes := notes + Tagged(c.file, r.acks);
      }
    }

    /**
     The batch is run to its end whatever it holds; no run is ever written to a closed
     part file, since `Fits` holds at each call of `Flush`.
     */
    method HandleBatch(batch: seq<Item>)
      requires EngineWf(View()) && InRange(View(), batch)
      modifies this
      ensures View() == Batched(hash, old(View()), batch, |batch|) && EngineWf(View())
      ensures duplicates == old(duplicates) + Duplicates(hash, old(View()), batch, |batch|)
    {
      hide EngineWf, InRange, Fits, Settled, Acceptable, Touched, Touch, Contiguous, Added;
      ghost var start := View();
      var c := NOTHING;
      for k := 0 to |batch|
        invariant Loop(View(), c) == Looped(hash, start, batch, k)
        invariant duplicates == old(duplicates) + Duplicates(hash, start, batch, k)
      {
        var p := batch[k];
        FileInRange(start, batch, k);
        ghost var l := Loop(View(), c);
        assert LoopOk(l);
        if !Joins(c, p) {
          Flush(c);
          c := NOTHING;
          assert Loop(View(), c) == Flushed(hash, l);
        }
        ghost var m := Loop(View(), c);
        assert Looped(hash, start, batch, k + 1) == Decided(hash, m, p);
        if !Acceptable(files[p.file], p.block) {
          continue;
        }
        files := files[p.file := Touched(files[p.file], p.block)];
        ViewTouch(m.engine, p);
        if p.block.index in files[p.file].have {
          duplicates := duplicates + 1;
          continue;
        }
        c := Added(c, p);
        AddedFits(m.engine, m.run, p);
        if |c.run.data| >= FLUSH_BYTES {
          Flush(c);
          c := NOTHING;
        }
      }
      assert LoopOk(Loop(View(), c));
      Flush(c);
    }

    lemma ViewTouch(e: Engine, p: Item)
      requires p.file < |e.files| == |files| && notes == e.notes
      requires files == e.files[p.file := Touched(e.files[p.file], p.block)]
      ensures View() == Touch(e, p)
      ensures files[p.file].have == e.files[p.file].have
    {}
  }

  lemma FileInRange(e: Engine, batch: seq<Item>, k: nat)
    requires InRange(e, batch) && k < |batch|
    ensures batch[k].file < |e.files|
  {}
}
