/**
 One repair pass over a file: the holes of the latest SACK and the tail beyond the
 frontier are walked in order, and each block that is due is sent again.
 */
module Repair {
  import opened Wrappers
  import opened Runs
  import opened Sacks
  import opened Sender

  const BUCKET_BLOCKS: nat := 256
  const CLOCK_WRAP: int := 0x1_0000_0000

  /** Send times in milliseconds, 0 meaning never: per bucket for the sweep, per block for repairs. */
  datatype Stamps = Stamps(sweep: seq<nat>, repair: map<nat, nat>)

  /** When the sweep last passed the bucket of block `k`. */
  function SweptAt(t: Stamps, k: nat): nat {
    if k / BUCKET_BLOCKS < |t.sweep| then t.sweep[k / BUCKET_BLOCKS] else 0
  }

  function LastSent(t: Stamps, k: nat): nat {
    if k in t.repair then Max(SweptAt(t, k), t.repair[k]) else SweptAt(t, k)
  }

  /** `now - last >= hold` on 32-bit clock values. */
  predicate Due(t: Stamps, now: nat, hold: nat, k: nat) {
    var last := LastSent(t, k);
    last == 0 || (now - last) % CLOCK_WRAP >= hold
  }

  /** `k` was sent less than `hold` before `now`, in the sweep or as a repair. */
  predicate Recent(t: Stamps, now: nat, hold: nat, k: nat) {
    || (SweptAt(t, k) != 0 && now - SweptAt(t, k) < hold)
    || (k in t.repair && t.repair[k] != 0 && now - t.repair[k] < hold)
  }

  /** As long as the clock has not wrapped around, a block is due unless it was sent recently. */
  lemma DueUnlessRecent(t: Stamps, now: nat, hold: nat, k: nat)
    requires SweptAt(t, k) <= now < CLOCK_WRAP && (k in t.repair ==> t.repair[k] <= now)
    ensures Due(t, now, hold, k) <==> !Recent(t, now, hold, k)
  {}

  /** The runs a pass walks. */
  function RepairRuns(f: FileTx): seq<Run> {
    var holes := if f.sack.Some? then f.sack.value.holes else [];
    var frontier := if f.sack.Some? then Max(f.sack.value.frontier, f.sack.value.ackBase) else 0;
    if f.swept && frontier < f.Blocks() then holes + [Run(frontier, f.Blocks() - frontier)] else holes
  }

  /** Walking those runs visits exactly the repair candidates. */
  lemma RepairRunsCover(f: FileTx, k: nat)
    requires f.sack.Some? ==> !f.sack.value.complete
    ensures InRuns(RepairRuns(f), k) && k < f.Blocks() && k !in f.skip <==> Repairable(f, k)
  {
    var holes := if f.sack.Some? then f.sack.value.holes else [];
    var frontier := if f.sack.Some? then Max(f.sack.value.frontier, f.sack.value.ackBase) else 0;
    var tail := Run(frontier, if frontier < f.Blocks() then f.Blocks() - frontier else 0);
    InRunsConcat(holes, [tail], k);
  }

  lemma NothingLeft(f: FileTx)
    requires f.sack.Some? && f.sack.value.complete
    ensures forall k: nat :: !Repairable(f, k)
  {}

  /** Repair times below the ack base are dropped, unless there is nothing to repair. */
  function Pruned(f: FileTx, t: Stamps): Stamps {
    if f.sack.None? || f.sack.value.complete || RepairRuns(f) == [] then t
    else t.(repair := map k | k in t.repair && f.sack.value.ackBase <= k :: t.repair[k])
  }

  /** What a pass may send: a candidate that is due, or one it has sent already. */
  ghost predicate Justified(f: FileTx, t: Stamps, now: nat, hold: nat, sent: seq<nat>) {
    forall a | 0 <= a < |sent| ::
      Repairable(f, sent[a]) && (Due(t, now, hold, sent[a]) || sent[a] in sent[..a])
  }

  /** The last position of `k` in `sent`. */
  function LastOf(sent: seq<nat>, k: nat): (a: nat)
    requires k in sent
    ensures a < |sent| && sent[a] == k && forall b | a < b < |sent| :: sent[b] != k
  {
    if sent[|sent| - 1] == k then |sent| - 1 else LastOf(sent[..|sent| - 1], k)
  }

  /** A block sent in this pass has the time it was last sent at, the others what they had. */
  ghost predicate StampsOf(t: Stamps, u: Stamps, sent: seq<nat>, clock: nat -> nat) {
    && u.sweep == t.sweep
    && (forall k | k !in sent :: (k in u.repair <==> k in t.repair) && (k in t.repair ==> u.repair[k] == t.repair[k]))
    && (forall k | k in sent :: k in u.repair && u.repair[k] == clock(LastOf(sent, k)))
  }

  lemma DueUnlessSent(t: Stamps, u: Stamps, sent: seq<nat>, clock: nat -> nat, now: nat, hold: nat, k: nat)
    requires StampsOf(t, u, sent, clock)
    ensures k !in sent ==> (Due(t, now, hold, k) <==> Due(u, now, hold, k))
  {
    assert k !in sent ==> LastSent(t, k) == LastSent(u, k);
  }

  lemma JustifiedSnoc(f: FileTx, t: Stamps, now: nat, hold: nat, sent: seq<nat>, k: nat)
    requires Justified(f, t, now, hold, sent)
    requires Repairable(f, k) && (Due(t, now, hold, k) || k in sent)
    ensures Justified(f, t, now, hold, sent + [k])
  {
    hide Repairable, Due;
    var more := sent + [k];
    forall a | 0 <= a < |more|
      ensures Repairable(f, more[a]) && (Due(t, now, hold, more[a]) || more[a] in more[..a])
    {
      assert more[..a] == sent[..a];
      assert a == |sent| ==> more[..a] == sent;
    }
  }

  lemma StampsSnoc(t: Stamps, u: Stamps, sent: seq<nat>, clock: nat -> nat, k: nat)
    requires StampsOf(t, u, sent, clock)
    ensures StampsOf(t, u.(repair := u.repair[k := clock(|sent|)]), sent + [k], clock)
  {
    var more := sent + [k];
    assert more[..|sent|] == sent && k in more;
    assert forall j | j in more :: LastOf(more, j) == if j == k then |sent| else LastOf(sent, j);
  }

  lemma StampedAt(t: Stamps, u: Stamps, sent: seq<nat>, clock: nat -> nat, k: nat)
    requires StampsOf(t, u, sent, clock) && k in sent
    ensures k in u.repair && u.repair[k] == clock(LastOf(sent, k))
  {}

  /** Whatever a pass sends was due when it began. */
  lemma {:induction false} SentWasDue(f: FileTx, t: Stamps, now: nat, hold: nat, sent: seq<nat>, a: nat)
    requires Justified(f, t, now, hold, sent) && a < |sent|
    ensures Repairable(f, sent[a]) && Due(t, now, hold, sent[a])
    decreases a
  {
    hide Repairable, Due;
    if !Due(t, now, hold, sent[a]) {
      var b :| 0 <= b < a && sent[..a][b] == sent[a];
      SentWasDue(f, t, now, hold, sent, b);
    }
  }

  /** No run begins before the end of an earlier one. */
  predicate InOrder(runs: seq<Run>) {
    forall a, b | 0 <= a < b < |runs| :: runs[a].start + runs[a].length <= runs[b].start
  }

  predicate Ascending(sent: seq<nat>) {
    forall a, b | 0 <= a < b < |sent| :: sent[a] < sent[b]
  }

  /** What was sent are the candidates below `bound` that were due, lowest first. */
  ghost predicate LowestFirst(f: FileTx, t: Stamps, now: nat, hold: nat, sent: seq<nat>, bound: nat) {
    && Ascending(sent) && (forall k | k in sent :: k < bound)
    && forall k: nat | k < bound && Repairable(f, k) && Due(t, now, hold, k) :: k in sent
  }

  lemma LowestSnoc(f: FileTx, t: Stamps, now: nat, hold: nat, sent: seq<nat>, k: nat)
    requires LowestFirst(f, t, now, hold, sent, k)
    ensures LowestFirst(f, t, now, hold, sent + [k], k + 1)
  {
    hide Due, Repairable;
    assert forall j | j in sent + [k] :: j in sent || j == k;
    assert forall j | j in sent :: j in sent + [k];
    assert forall a | 0 <= a < |sent| :: sent[a] in sent;
    assert k in sent + [k];
  }

  lemma LowestSkip(f: FileTx, t: Stamps, now: nat, hold: nat, sent: seq<nat>, k: nat)
    requires LowestFirst(f, t, now, hold, sent, k)
    requires k in f.skip || k in sent || !Due(t, now, hold, k)
    ensures LowestFirst(f, t, now, hold, sent, k + 1)
  {
    hide Due;
  }

  lemma LowestBeyond(f: FileTx, t: Stamps, now: nat, hold: nat, sent: seq<nat>, lo: nat, hi: nat)
    requires LowestFirst(f, t, now, hold, sent, lo) && lo <= hi && (lo < hi ==> f.Blocks() <= lo)
    ensures LowestFirst(f, t, now, hold, sent, hi)
  {
    hide Due;
  }

  /** Between two runs that follow each other in order there is no candidate. */
  lemma LowestBetween(f: FileTx, t: Stamps, now: nat, hold: nat, sent: seq<nat>, a: nat, next: nat)
    requires InOrder(RepairRuns(f)) && a < |RepairRuns(f)| && (f.sack.Some? ==> !f.sack.value.complete)
    requires next == EndBefore(RepairRuns(f), a) && LowestFirst(f, t, now, hold, sent, next)
    ensures LowestFirst(f, t, now, hold, sent, RepairRuns(f)[a].start)
  {
    hide Due, Repairable, RepairRuns;
    var runs := RepairRuns(f);
    forall k: nat | next <= k < runs[a].start ensures !Repairable(f, k) {
      RepairRunsCover(f, k);
      GapUncovered(runs, a, k);
    }
  }

  function EndBefore(runs: seq<Run>, a: nat): nat
    requires a <= |runs|
  {
    if a == 0 then 0 else runs[a - 1].start + runs[a - 1].length
  }

  lemma GapUncovered(runs: seq<Run>, a: nat, k: nat)
    requires InOrder(runs) && a < |runs| && EndBefore(runs, a) <= k < runs[a].start
    ensures !InRuns(runs, k)
  {
    assert forall j: nat | j < a :: runs[j].start + runs[j].length <= k;
    assert forall j: nat | a <= j < |runs| :: k < runs[j].start;
    if InRuns(runs, k) { InRunsIndex(runs, k); }
  }

  class RepairPass {
    const f: FileTx
    const start: Stamps
    const now: nat
    const hold: nat
    const budget: nat
    const clock: nat -> nat
    var stamps: Stamps
    var sent: seq<nat>

    /** `clock` gives the time at which the n-th block of the pass is handed to the link. */
    constructor (f: FileTx, t: Stamps, now: nat, hold: nat, budget: nat, clock: nat -> nat)
      ensures this.f == f && start == Pruned(f, t) && this.now == now && this.hold == hold
      ensures this.budget == budget && this.clock == clock
      ensures stamps == start && sent == [] && Valid()
    {
      this.f, start, this.now, this.hold := f, Pruned(f, t), now, hold;
      this.budget, this.clock := budget, clock;
      stamps, sent := Pruned(f, t), [];
    }

    ghost predicate Valid()
      reads this
    {
      |sent| <= budget && Justified(f, start, now, hold, sent) && StampsOf(start, stamps, sent, clock)
    }

    /** Every candidate of the walked part that was due has been sent. */
    ghost predicate Served(lo: nat, hi: nat)
      reads this
    {
      forall k: nat | lo <= k < hi && k < f.Blocks() && k !in f.skip && Due(start, now, hold, k) :: k in sent
    }

    ghost predicate Lowest(bound: nat)
      reads this
    {
      LowestFirst(f, start, now, hold, sent, bound)
    }

    method RepairRun(run: Run) returns (next: nat)
      requires Valid()
      requires forall k: nat | InRun(run, k) && k < f.Blocks() && k !in f.skip :: Repairable(f, k)
      modifies this
      ensures Valid() && old(sent) <= sent
      ensures |sent| < budget ==> Served(run.start, run.start + run.length) && next == run.start + run.length
      ensures old(Lowest(run.start)) ==> Lowest(next)
    {
      hide Justified, StampsOf, Due, LowestFirst, Repairable;
      var end := Min(run.start + run.length, f.Blocks());
      next := run.start;
      while next < end && |sent| < budget
        invariant Valid() && old(sent) <= sent && run.start <= next
        invariant next <= end || next == run.start
        invariant Served(run.start, next)
        invariant old(Lowest(run.start)) ==> Lowest(next)
        decreases end as int - next
      {
        DueUnlessSent(start, stamps, sent, clock, now, hold, next);
        if next !in f.skip && Due(stamps, now, hold, next) {
          Resend(next);
        } else if Lowest(next) {
          LowestSkip(f, start, now, hold, sent, next);
        }
        next := next + 1;
      }
      if |sent| < budget {
        if Lowest(next) { LowestBeyond(f, start, now, hold, sent, next, run.start + run.length); }
        next := run.start + run.length;
      }
    }

    method Resend(block: nat)
      requires Valid() && |sent| < budget && Repairable(f, block)
      requires Due(stamps, now, hold, block)
      modifies this
      ensures Valid() && sent == old(sent) + [block]
      ensures old(Lowest(block)) ==> Lowest(block + 1)
    {
      hide Justified, StampsOf, Due, Repairable, LowestFirst;
      DueUnlessSent(start, stamps, sent, clock, now, hold, block);
      JustifiedSnoc(f, start, now, hold, sent, block);
      StampsSnoc(start, stamps, sent, clock, block);
      if Lowest(block) { LowestSnoc(f, start, now, hold, sent, block); }
      stamps := stamps.(repair := stamps.repair[block := clock(|sent|)]);
      sent := sent + [block];
    }

    /**
     At most `budget` blocks are sent, each a candidate that was due; if the budget is not
     used up, every such candidate has been sent. If the runs are in order, as they are for
     every SACK of the receiver, the lowest go first.
     */
    method RepairFile()
      requires Valid() && sent == []
      modifies this
      ensures Valid()
      ensures |sent| < budget ==> forall k: nat | Repairable(f, k) && Due(start, now, hold, k) :: k in sent
      ensures InOrder(RepairRuns(f)) ==> exists bound :: Lowest(bound)
    {
      hide Repairable, Due, Justified, StampsOf, RepairRuns;
      assert Lowest(0);
      if f.sack.Some? && f.sack.value.complete {
        NothingLeft(f);
        return;
      }
      var runs := RepairRuns(f);
      var a := 0;
      var next := 0;
      while a < |runs| && |sent| < budget
        invariant a <= |runs| && Valid()
        invariant |sent| < budget ==> forall j: nat | j < a :: Served(runs[j].start, runs[j].start + runs[j].length)
        invariant InOrder(runs) ==> Lowest(next)
        invariant |sent| < budget ==> next == EndBefore(runs, a)
      {
        hide LowestFirst;
        RunIsRepairable(runs, a);
        if InOrder(runs) { LowestBetween(f, start, now, hold, sent, a, next); }
        next := RepairRun(runs[a]);
        a := a + 1;
      }
      forall k: nat | |sent| < budget && Repairable(f, k) && Due(start, now, hold, k) ensures k in sent {
        RepairRunsCover(f, k);
        InRunsIndex(runs, k);
      }
    }

    lemma RunIsRepairable(runs: seq<Run>, a: nat)
      requires runs == RepairRuns(f) && a < |runs|
      requires f.sack.Some? ==> !f.sack.value.complete
      ensures forall k: nat | InRun(runs[a], k) && k < f.Blocks() && k !in f.skip :: Repairable(f, k)
    {
      forall k: nat | InRun(runs[a], k) && k < f.Blocks() && k !in f.skip ensures Repairable(f, k) {
        RepairRunsCover(f, k);
        InRunsAt(runs, a, k);
      }
    }
  }

  lemma {:induction false} InRunsAt(runs: seq<Run>, a: nat, k: nat)
    requires a < |runs| && InRun(runs[a], k)
    ensures InRuns(runs, k)
  {
    if a > 0 { InRunsAt(runs[1..], a - 1, k); }
  }

  lemma {:induction false} InRunsIndex(runs: seq<Run>, k: nat)
    requires InRuns(runs, k)
    ensures exists a: nat :: a < |runs| && InRun(runs[a], k)
  {
    if InRun(runs[0], k) {
      assert InRun(runs[0 as nat], k);
    } else {
      InRunsIndex(runs[1..], k);
      var a: nat :| a < |runs[1..]| && InRun(runs[1..][a], k);
      assert InRun(runs[a + 1], k);
    }
  }

  // ---- two passes --------------------------------------------------------------------------

  /**
   The hold: a block a pass has sent is not sent in a later one that begins less than `hold`
   after it, unless the clock gave it no time or a sweep time hides it.
   */
  lemma HeldBack(first: RepairPass, second: RepairPass, k: nat)
    requires first.Valid() && second.Valid() && second.start == Pruned(second.f, first.stamps)
    requires k in first.sent && (second.f.sack.Some? ==> second.f.sack.value.ackBase <= k)
    requires var at, swept := first.clock(LastOf(first.sent, k)), SweptAt(first.stamps, k);
             && at != 0 && (second.now - at) % CLOCK_WRAP < second.hold
             && (swept <= at || (second.now - swept) % CLOCK_WRAP < second.hold)
    ensures k !in second.sent
  {
    hide Repairable, Due, Pruned, Justified, StampsOf;
    StampedAt(first.start, first.stamps, first.sent, first.clock, k);
    NotYetDue(second.f, first.stamps, second.now, second.hold, k);
    if k in second.sent {
      var a :| 0 <= a < |second.sent| && second.sent[a] == k;
      SentWasDue(second.f, second.start, second.now, second.hold, second.sent, a);
    }
  }

  /** Below the ack base nothing but the sweep is remembered, so that a hole there is repaired every time. */
  lemma BelowBaseForgotten(f: FileTx, t: Stamps, now: nat, hold: nat, k: nat)
    requires f.sack.Some? && !f.sack.value.complete && RepairRuns(f) != []
    requires k < f.sack.value.ackBase && SweptAt(t, k) == 0
    ensures Due(Pruned(f, t), now, hold, k)
  {
    hide RepairRuns;
  }

  lemma NotYetDue(f: FileTx, t: Stamps, now: nat, hold: nat, k: nat)
    requires k in t.repair && t.repair[k] != 0 && (f.sack.Some? ==> f.sack.value.ackBase <= k)
    requires (now - t.repair[k]) % CLOCK_WRAP < hold
    requires SweptAt(t, k) <= t.repair[k] || (now - SweptAt(t, k)) % CLOCK_WRAP < hold
    ensures !Due(Pruned(f, t), now, hold, k)
  {
    hide RepairRuns;
    assert SweptAt(Pruned(f, t), k) == SweptAt(t, k);
  }

  /** What a pass that does not run out of budget sends, while the clock has not wrapped around. */
  lemma SentUnlessRecent(pass: RepairPass, k: nat)
    requires pass.Valid() && pass.now < CLOCK_WRAP && SweptAt(pass.start, k) <= pass.now
    requires k in pass.start.repair ==> pass.start.repair[k] <= pass.now
    requires Repairable(pass.f, k) && Due(pass.start, pass.now, pass.hold, k) ==> k in pass.sent
    ensures k in pass.sent <==> Repairable(pass.f, k) && !Recent(pass.start, pass.now, pass.hold, k)
  {
    hide Repairable;
    DueUnlessRecent(pass.start, pass.now, pass.hold, k);
    if k in pass.sent {
      var a :| 0 <= a < |pass.sent| && pass.sent[a] == k;
      SentWasDue(pass.f, pass.start, pass.now, pass.hold, pass.sent, a);
    }
  }

  // ---- the runs of a report ----------------------------------------------------------------

  lemma {:induction false} SeparatedInOrder(runs: seq<Run>, lo: nat, hi: nat)
    requires Separated(runs, lo, hi)
    ensures InOrder(runs) && forall r | r in runs :: lo <= r.start && r.start + r.length <= hi
  {
    if runs != [] {
      var next := runs[0].start + runs[0].length + 1;
      SeparatedInOrder(runs[1..], next, hi);
      assert forall a | 0 < a < |runs| :: runs[a] == runs[1..][a - 1];
      forall a, b | 0 <= a < b < |runs| ensures runs[a].start + runs[a].length <= runs[b].start {
        assert a > 0 ==> runs[1..][a - 1].start + runs[1..][a - 1].length <= runs[1..][b - 1].start;
      }
    }
  }

  lemma InOrderSnoc(runs: seq<Run>, last: Run)
    requires InOrder(runs) && forall r | r in runs :: r.start + r.length <= last.start
    ensures InOrder(runs + [last]) && forall r | r in runs + [last] :: r in runs || r == last
  {
    assert forall a | 0 <= a < |runs| :: runs[a] in runs;
  }

  /** A run as it is cut off at `frontier`. */
  function CutRun(r: Run, frontier: nat): Run
    requires r.start <= frontier
  {
    if r.start + r.length > frontier then Run(r.start, frontier - r.start) else r
  }

  lemma CutLastMeans(runs: seq<Run>, frontier: nat)
    requires runs != [] && runs[|runs| - 1].start <= frontier
    ensures CutLast(runs, frontier) == runs[..|runs| - 1] + [CutRun(runs[|runs| - 1], frontier)]
  {
    assert runs == runs[..|runs| - 1] + [runs[|runs| - 1]];
  }

  lemma CutInOrder(runs: seq<Run>, lo: nat, hi: nat, frontier: nat)
    requires runs != [] && Separated(runs, lo, hi) && runs[|runs| - 1].start < frontier
    ensures var c := CutLast(runs, frontier);
            InOrder(c) && forall r | r in c :: lo <= r.start && r.start + r.length <= frontier
  {
    hide Separated, InOrder, CutLast;
    var m := |runs| - 1;
    SeparatedInit(runs, lo, hi);
    SeparatedInOrder(runs[..m], lo, runs[m].start);
    CutLastMeans(runs, frontier);
    InOrderSnoc(runs[..m], CutRun(runs[m], frontier));
  }

  /** Clipped runs stay in order and end at the frontier. */
  lemma {:induction false} ClippedInOrder(runs: seq<Run>, lo: nat, hi: nat, frontier: nat)
    requires Separated(runs, lo, hi)
    ensures var c := CutLast(DropBeyond(runs, frontier), frontier);
            InOrder(c) && forall r | r in c :: lo <= r.start && r.start + r.length <= frontier
    decreases |runs|
  {
    if runs != [] {
      var m := |runs| - 1;
      if runs[m].start >= frontier {
        SeparatedInit(runs, lo, hi);
        SeparatedRaise(runs[..m], lo, runs[m].start, hi);
        ClippedInOrder(runs[..m], lo, hi, frontier);
      } else {
        CutInOrder(runs, lo, hi, frontier);
      }
    }
  }

  /** The holes of a SACK are in order, between its ack base and its frontier. */
  lemma HolesInOrder(had: set<nat>, n: nat, seen: nat)
    ensures var s := MakeSack(had, n, seen);
            InOrder(s.holes) && forall r | r in s.holes :: s.ackBase <= r.start && r.start + r.length <= s.frontier
    ensures MakeSack(had, n, seen).ackBase <= MakeSack(had, n, seen).frontier
  {
    var base, top := RunEnd(had, n, 0), Max(seen, RunEnd(had, n, 0));
    var missing := AllBelow(n) - had;
    hide InOrder, CutLast, DropBeyond, FirstRuns, AllBelow;
    FirstSeparated(missing, n, base);
    ClippedInOrder(FirstRuns(missing, n, base, MAX_RUNS), base, n, top);
    ClippedNone(top);
  }

  lemma ClippedNone(top: nat)
    ensures CutLast(DropBeyond([], top), top) == [] && InOrder([])
  {}

  lemma FirstSeparated(missing: set<nat>, n: nat, base: nat)
    ensures Separated(FirstRuns(missing, n, base, MAX_RUNS), base, n)
  {
    RunsFromExact(missing, n, base);
    SeparatedTake(RunsFrom(missing, n, base), base, n, MAX_RUNS);
  }

  /** For a SACK of the receiver a pass walks its runs in order, none below the ack base. */
  lemma ReportInOrder(f: FileTx, had: set<nat>, seen: nat)
    requires f.sack == Some(MakeSack(had, f.Blocks(), seen))
    ensures InOrder(RepairRuns(f)) && forall r | r in RepairRuns(f) :: f.sack.value.ackBase <= r.start
  {
    hide InOrder, MakeSack;
    HolesInOrder(had, f.Blocks(), seen);
    var s, n := f.sack.value, f.Blocks();
    InOrderSnoc(s.holes, Run(s.frontier, if s.frontier < n then n - s.frontier else 0));
  }
}
