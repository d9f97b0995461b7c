/**
 The receiving engine for one file: which blocks it accepts, how they reach the
 part file and the bitmap, and how a complete file is verified or started over.
 The bitmap is represented by the set of received indices (module `BlockBitmaps`
 refines that set to packed words).
 */
module Receiver {
  import opened Wrappers
  import opened Manifest
  import opened Runs

  type Digest = seq<Byte>

  /** SHA-256, of which only injectivity is ever assumed, and only where stated. */
  type Hash = seq<Byte> -> Digest

  datatype Ack = FileOk | FileBad

  datatype Block = Block(index: nat, payload: seq<Byte>)

  /** `part` is the content of the .ctpart file, or of the final file once verified. */
  datatype FileRx = FileRx(
    size: nat,
    part: seq<Byte>,
    have: set<nat>,
    frontier: nat,
    dirty: bool,
    complete: bool,
    verified: bool,
    open: bool,
    expected: Option<Digest>)
  {
    function Blocks(): nat {
      BlockCount(size)
    }
  }

  /** A new file state and the ctrl messages sent on the way. */
  datatype Reply = Reply(file: FileRx, acks: seq<Ack>)

  /** Every block below `n` has been received: the bitmap count has reached its size. */
  predicate Full(have: set<nat>, n: nat) {
    AllBelow(n) <= have
  }

  /**
   What holds of a file between two calls: the flags agree with the bitmap, the
   part file is open exactly while blocks can still be written to it, and a
   complete file whose hash is known has been verified.
   */
  ghost predicate Wf(f: FileRx) {
    && f.have <= AllBelow(f.Blocks())
    && f.frontier <= f.Blocks()
    && (f.complete ==> Full(f.have, f.Blocks()))
    && (0 < f.Blocks() && Full(f.have, f.Blocks()) ==> f.complete)
    && (f.open <==> !f.verified && 0 < f.Blocks())
    && (f.open ==> f.size <= |f.part|)
    && (f.complete && f.expected.Some? ==> f.verified)
    && (f.verified ==> f.complete)
  }

  /** The checks of `AcceptBlock`, apart from freshness. */
  predicate Acceptable(f: FileRx, b: Block) {
    !f.verified && f.Blocks() != 0 && b.index < f.Blocks() && |b.payload| == BlockLen(f.size, b.index)
  }

  /** An acceptable block moves the frontier and makes a SACK due. */
  function Touched(f: FileRx, b: Block): FileRx {
    f.(dirty := true, frontier := Max(f.frontier, b.index + 1))
  }

  /** The hash comparison of a complete file; the file starts over on a mismatch. */
  function MaybeVerify(hash: Hash, f: FileRx): Reply {
    if f.verified || !f.complete || f.expected.None? then Reply(f, [])
    else
      var part := if f.Blocks() == 0 then [] else f.part;
      if hash(part) != f.expected.value then
        Reply(f.(have := {}, complete := false, frontier := 0), [FileBad])
      else
        Reply(f.(part := part, verified := true, open := false), [FileOk])
  }

  /** Consecutive fresh blocks first, first + 1, ... collected for one write. */
  datatype Pending = Pending(first: nat, count: nat, data: seq<Byte>)

  function Between(a: nat, b: nat): set<nat> {
    AllBelow(b) - AllBelow(a)
  }

  /** `run` holds blocks of `f` that are in range and not yet received. */
  ghost predicate RunFits(f: FileRx, run: Pending) {
    && f.open
    && 0 < run.count
    && run.first + run.count <= f.Blocks()
    && |run.data| == (run.count - 1) * PAYLOAD + BlockLen(f.size, run.first + run.count - 1)
    && forall k | k in f.have :: !(run.first <= k < run.first + run.count)
  }

  lemma RunInFile(f: FileRx, run: Pending)
    requires RunFits(f, run) && f.size <= |f.part|
    ensures run.first * PAYLOAD + |run.data| <= |f.part|
  {
    BlocksTile(f.size, run.first + run.count - 1);
  }

  /** Writes a run, marks its blocks and verifies the file if that completes it. */
  function FlushRun(hash: Hash, f: FileRx, run: Pending): Reply
    requires Wf(f) && RunFits(f, run)
  {
    MaybeVerify(hash, Stored(f, run))
  }

  /** A file that becomes complete is reported at once, so that no SACK is due any more. */
  function Stored(f: FileRx, run: Pending): FileRx
    requires Wf(f) && RunFits(f, run)
  {
    RunInFile(f, run);
    var have := f.have + Between(run.first, run.first + run.count);
    var complete := f.complete || Full(have, f.Blocks());
    f.(part := Overwrite(f.part, run.first * PAYLOAD, run.data),
       have := have, complete := complete, dirty := f.dirty && !complete)
  }

  function One(b: Block): Pending {
    Pending(b.index, 1, b.payload)
  }

  /** The specification of the engine: one block is checked, written and marked. */
  function AcceptOne(hash: Hash, f: FileRx, b: Block): Reply
    requires Wf(f)
  {
    if !Acceptable(f, b) then Reply(f, [])
    else if b.index in f.have then Reply(Touched(f, b), [])
    else FlushRun(hash, Touched(f, b), One(b))
  }

  lemma MaybeVerifyWf(hash: Hash, f: FileRx)
    requires Wf(f.(expected := None))
    ensures Wf(MaybeVerify(hash, f).file)
  {
    hide AllBelow, BlockCount;
    if f.complete && f.expected.Some? && !f.verified {
      RejectedWf(f);
      VerifiedWf(f);
    }
  }

  lemma RejectedWf(f: FileRx)
    requires Wf(f.(expected := None)) && f.complete && f.expected.Some? && !f.verified
    ensures f.Blocks() > 0 ==> Wf(f.(have := {}, complete := false, frontier := 0))
  {
    hide BlockCount;
    if f.Blocks() > 0 { assert 0 in AllBelow(f.Blocks()); }
  }

  lemma VerifiedWf(f: FileRx)
    requires Wf(f.(expected := None)) && f.complete
    ensures forall part :: Wf(f.(part := part, verified := true, open := false))
  {
    hide AllBelow, BlockCount;
  }

  lemma FlushRunWf(hash: Hash, f: FileRx, run: Pending)
    requires Wf(f) && RunFits(f, run)
    ensures Wf(FlushRun(hash, f, run).file)
  {
    StoredWf(f, run);
    MaybeVerifyWf(hash, Stored(f, run));
  }

  lemma StoredWf(f: FileRx, run: Pending)
    requires Wf(f) && RunFits(f, run)
    ensures Wf(Stored(f, run).(expected := None))
  {}

  lemma AcceptOneWf(hash: Hash, f: FileRx, b: Block)
    requires Wf(f)
    ensures Wf(AcceptOne(hash, f, b).file)
  {
    if Acceptable(f, b) && b.index !in f.have {
      FlushRunWf(hash, Touched(f, b), One(b));
    }
  }
}
