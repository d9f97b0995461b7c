/**
 What holds of every file in every interleaving of single deliveries, batches, the
 sending loop and the two sessions.
 */
module Plays {
  import opened Wrappers
  import opened Receiver
  import opened Transfer
  import opened TransferIntegrity
  import opened TransferProgress
  import opened BatchLanes
  import opened Agreement

  /** What one turn keeps of a lane. */
  ghost predicate LaneKept(source: seq<Byte>, l: Lane, m: Lane) {
    && m.early == l.early
    && (OneReset(source, l) ==> OneReset(source, m))
    && (AllHonest(source, l) ==> AllHonest(source, m) && m.epoch == l.epoch)
  }

  lemma StepKeepsLane(hash: Hash, source: seq<Byte>, l: Lane, step: Step)
    requires Inv(hash, source, l) && Enabled(source, l, step)
    ensures Wf(l.rx) && LaneKept(source, l, Apply(hash, source, l, step))
  {
    hide Inv, Enabled, Apply, Wf, OneReset, AllHonest;
    InvWf(hash, source, l);
    StepKeepsLength(hash, source, l, step);
    if OneReset(source, l) { OneResetStep(hash, source, l, step); }
    if AllHonest(source, l) { HonestStep(hash, source, l, step); }
  }

  lemma TurnKeepsLane(hash: Hash, sources: seq<seq<Byte>>, w: World, t: Turn, i: nat)
    requires WorldInv(hash, sources, w) && CanTake(sources, w, t) && i < |sources|
    ensures |w.lanes| == |Take(hash, sources, w, t).lanes| == |sources|
    ensures LaneKept(sources[i], w.lanes[i], Take(hash, sources, w, t).lanes[i])
  {
    hide Inv, Enabled, Apply, Wf, OneReset, AllHonest, CanBatch, BatchLane, ContentInv;
    assert LaneOk(hash, sources[i], w.lanes[i]);
    match t
    case LaneTurn(j, step) =>
      if j == i { StepKeepsLane(hash, sources[i], w.lanes[i], step); }
    case BatchTurn(batch) => BatchLaneKeeps(hash, sources, w.lanes, batch, i);
    case _ =>
  }

  lemma {:induction false} PlayKeepsLane(hash: Hash, sources: seq<seq<Byte>>, w: World, turns: seq<Turn>, i: nat)
    requires WorldInv(hash, sources, w) && IsPlay(hash, sources, w, turns) && i < |sources|
    ensures |w.lanes| == |Played(hash, sources, w, turns).lanes| == |sources|
    ensures LaneKept(sources[i], w.lanes[i], Played(hash, sources, w, turns).lanes[i])
    decreases |turns|
  {
    WorldLanes(hash, sources, w);
    if turns != [] {
      hide WorldInv, CanTake, Take, OneReset, AllHonest;
      TurnInv(hash, sources, w, turns[0]);
      TurnKeepsLane(hash, sources, w, turns[0], i);
      PlayKeepsLane(hash, sources, Take(hash, sources, w, turns[0]), turns[1..], i);
    }
  }

  lemma WorldLanes(hash: Hash, sources: seq<seq<Byte>>, w: World)
    requires WorldInv(hash, sources, w)
    ensures |w.lanes| == |sources|
  {}

  lemma WorldLane(hash: Hash, sources: seq<seq<Byte>>, w: World, i: nat)
    requires WorldInv(hash, sources, w) && i < |sources|
    ensures |w.lanes| == |sources| && Inv(hash, sources[i], w.lanes[i])
  {
    hide Inv;
    assert LaneOk(hash, sources[i], w.lanes[i]);
  }

  /** Where file `i` stands after a play from what the disk held. */
  ghost predicate Reached(hash: Hash, sources: seq<seq<Byte>>, disks: seq<Disk>, turns: seq<Turn>, i: nat, m: Lane) {
    && i < |sources| == |disks| && IsPlay(hash, sources, StartWorld(sources, disks), turns)
    && var w := Played(hash, sources, StartWorld(sources, disks), turns);
       i < |w.lanes| && m == w.lanes[i]
  }

  lemma ReachedKeeps(hash: Hash, sources: seq<seq<Byte>>, disks: seq<Disk>, turns: seq<Turn>, i: nat, m: Lane)
    requires Reached(hash, sources, disks, turns, i, m)
    ensures var d := disks[i];
            && Inv(hash, sources[i], m)
            && LaneKept(sources[i], StartLane(|sources[i]|, d.part, d.final, d.record), m)
  {
    hide StartLane, IsPlay, Played, LaneKept, Inv;
    var start := StartWorld(sources, disks);
    StartWorldInv(hash, sources, disks);
    PlayInv(hash, sources, start, turns);
    PlayKeepsLane(hash, sources, start, turns, i);
    WorldLane(hash, sources, Played(hash, sources, start, turns), i);
  }

  /**
   End-to-end integrity with batches: from a part file that is not too long and a record
   that is true of it, in every interleaving each set bit means that the part file holds
   that block of the source, a complete file is the source, it is verified as soon as
   its hash has arrived, and no `file_bad` is ever sent.
   */
  lemma PlayIntegrity(hash: Hash, sources: seq<seq<Byte>>, disks: seq<Disk>, turns: seq<Turn>, i: nat, m: Lane)
    requires Reached(hash, sources, disks, turns, i, m)
    requires AllHonest(sources[i], StartLane(|sources[i]|, disks[i].part, disks[i].final, disks[i].record))
    ensures forall k | k in m.rx.have :: Honest(sources[i], m.rx, k)
    ensures m.epoch == 0 && FileBad !in m.acks
    ensures m.rx.complete ==> m.rx.part == sources[i]
    ensures m.rx.complete && m.done == Arrived ==> m.rx.verified
  {
    StartEarly(|sources[i]|, disks[i].part, disks[i].final, disks[i].record);
    hide StartLane, Reached, AllHonest, Inv;
    ReachedKeeps(hash, sources, disks, turns, i, m);
    HonestLane(hash, sources[i], m);
  }

  lemma HonestLane(hash: Hash, source: seq<Byte>, m: Lane)
    requires Inv(hash, source, m) && AllHonest(source, m) && m.epoch == 0
    ensures forall k | k in m.rx.have :: Honest(source, m.rx, k)
    ensures FileBad !in m.acks
    ensures m.rx.complete ==> m.rx.part == source
    ensures m.rx.complete && m.done == Arrived ==> m.rx.verified
  {
    hide DataInv, SackInv, Honest;
    if m.rx.complete { CompleteIsSource(source, m); }
  }

  /**
   A part file that is not too long is rejected at most once, and the file can always
   still be finished, even if everything in flight is lost: in every interleaving, with
   batches, and however wrong the record was.
   */
  lemma PlayNeverStuck(hash: Hash, sources: seq<seq<Byte>>, disks: seq<Disk>, turns: seq<Turn>, i: nat, m: Lane)
    requires Reached(hash, sources, disks, turns, i, m)
    requires disks[i].part.Some? ==> |disks[i].part.value| <= |sources[i]|
    requires !StartRx(|sources[i]|, disks[i].part, disks[i].final, disks[i].record).verified
    ensures m.epoch <= 1
    ensures CanVerify(hash, sources[i], m) && CanVerify(hash, sources[i], Blackout(m))
  {
    StartOneReset(sources[i], disks[i].part, disks[i].final, disks[i].record);
    hide StartLane, StartRx, Reached, Inv, CanVerify, Blackout;
    ReachedKeeps(hash, sources, disks, turns, i, m);
    BlackoutGoing(hash, sources[i], m);
    Progress(hash, sources[i], m);
    Progress(hash, sources[i], Blackout(m));
  }
}
