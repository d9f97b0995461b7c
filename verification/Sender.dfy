/**
 The sending engine: what it keeps per file, how SACKs and the receiver's verdicts
 change it, the progress ledger, and one repair pass.
 */
module Sender {
  import opened Wrappers
  import opened Manifest
  import opened Runs
  import opened Sacks

  /** `sack` is the latest accepted SACK; `skip` the blocks reported in `accept`. */
  datatype FileTx = FileTx(
    size: nat,
    skip: set<nat>,
    pos: nat,
    swept: bool,
    ok: bool,
    sack: Option<Sack>,
    acked: nat)
  {
    function Blocks(): nat {
      BlockCount(size)
    }
  }

  /** The bytes a SACK confirms of a file. */
  function AckedBy(size: nat, s: Sack): nat {
    if s.complete then size else Min(s.count * PAYLOAD, size)
  }

  /** What the last block lacks to a full one, where it is held and other blocks are not. */
  function Overstated(size: nat, had: set<nat>): nat {
    var n := BlockCount(size);
    if 0 < n && n - 1 in had && |had| < n then PAYLOAD - BlockLen(size, n - 1) else 0
  }

  lemma CountBelow(had: set<nat>, m: nat)
    requires m > 0
    ensures |had * AllBelow(m)| == |had * AllBelow(m - 1)| + if m - 1 in had then 1 else 0
  {
    var less := had * AllBelow(m - 1);
    if m - 1 in had {
      assert had * AllBelow(m) == less + {m - 1};
    } else {
      assert had * AllBelow(m) == less;
    }
  }

  /** All blocks but the last are full. */
  lemma {:induction false} HeldFull(size: nat, had: set<nat>, m: nat)
    requires m < BlockCount(size)
    ensures HeldBytes(size, had, m) == |had * AllBelow(m)| * PAYLOAD
  {
    hide AllBelow, BlockLen, BlockCount;
    if m > 0 {
      HeldFull(size, had, m - 1);
      BlocksTile(size, m - 1);
      CountBelow(had, m);
    } else {
      assert had * AllBelow(0) == {};
    }
  }

  /** `s` reports `had`, as far as the counts go. */
  predicate Reports(s: Sack, size: nat, had: set<nat>) {
    had <= AllBelow(BlockCount(size)) && s.count == |had| && (s.complete <==> |had| == BlockCount(size))
  }

  lemma MadeReports(size: nat, had: set<nat>, seen: nat)
    requires had <= AllBelow(BlockCount(size))
    ensures Reports(MakeSack(had, BlockCount(size), seen), size, had)
  {}

  lemma HeldOfAll(size: nat, had: set<nat>)
    requires had <= AllBelow(BlockCount(size)) && 0 < BlockCount(size)
    ensures var n := BlockCount(size);
            HeldBytes(size, had, n) == if n - 1 in had then (|had| - 1) * PAYLOAD + BlockLen(size, n - 1)
                                       else |had| * PAYLOAD
  {
    hide BlockLen, BlockCount;
    var n := BlockCount(size);
    HeldFull(size, had, n - 1);
    CountBelow(had, n);
    assert had * AllBelow(n) == had;
  }

  /** A SACK that counts more confirms no less. */
  lemma AckedGrows(size: nat, s: Sack, had: set<nat>, t: Sack, have: set<nat>)
    requires Reports(s, size, had) && Reports(t, size, have) && s.count <= t.count
    ensures AckedBy(size, s) <= AckedBy(size, t) <= size
  {
    hide BlockCount;
    FullIffSize(have, BlockCount(size));
  }

  /**
   The bytes a SACK confirms are those of the blocks it was made from; where the last,
   shorter block is among them and others are missing, it is counted as a full one.
   */
  lemma AckedIsHeld(size: nat, had: set<nat>, s: Sack)
    requires Reports(s, size, had)
    ensures AckedBy(size, s) == HeldBytes(size, had, BlockCount(size)) + Overstated(size, had)
    ensures Overstated(size, had) < PAYLOAD
    ensures s.complete ==> HeldBytes(size, had, BlockCount(size)) == size
  {
    var n := BlockCount(size);
    FullIffSize(had, n);
    if n > 0 {
      hide HeldBytes, BlockLen;
      HeldOfAll(size, had);
      BlocksTile(size, n - 1);
    }
  }

  /** A SACK with a smaller count than the stored one is older and ignored. */
  predicate Outdated(f: FileTx, s: Sack) {
    f.sack.Some? && s.count < f.sack.value.count
  }

  function TakeSack(f: FileTx, s: Sack): FileTx {
    if Outdated(f, s) then f
    else f.(sack := Some(s), acked := Max(f.acked, AckedBy(f.size, s)))
  }

  function TakeBad(f: FileTx): FileTx {
    if f.ok then f else f.(skip := {}, acked := 0, sack := None)
  }

  function TakeOk(f: FileTx): FileTx {
    if f.ok then f else f.(ok := true, acked := Max(f.acked, f.size))
  }

  /** The repair candidates of a file: everything not skipped before the first SACK. */
  predicate Repairable(f: FileTx, k: nat) {
    if f.sack.Some? then Candidate(f.sack.value, f.swept, f.Blocks(), f.skip, k)
    else f.swept && k < f.Blocks() && k !in f.skip
  }

  // ---- the progress ledger -------------------------------------------------

  function SumAcked(tx: seq<FileTx>): nat {
    if tx == [] then 0 else tx[0].acked + SumAcked(tx[1..])
  }

  lemma {:induction false} SumAckedUpdate(tx: seq<FileTx>, i: nat, f: FileTx)
    requires i < |tx|
    ensures SumAcked(tx[i := f]) + tx[i].acked == SumAcked(tx) + f.acked
  {
    if i == 0 {
      assert tx[i := f][1..] == tx[1..];
    } else {
      SumAckedUpdate(tx[1..], i - 1, f);
      assert tx[i := f][1..] == tx[1..][i - 1 := f];
    }
  }

  /** Bytes of the files for which `counted` holds, and of all files. */
  function SumSizes(tx: seq<FileTx>, counted: seq<bool>): nat
    requires |tx| == |counted|
  {
    if tx == [] then 0
    else (if counted[0] then tx[0].size else 0) + SumSizes(tx[1..], counted[1..])
  }

  function TotalBytes(tx: seq<FileTx>): nat {
    if tx == [] then 0 else tx[0].size + TotalBytes(tx[1..])
  }

  /** No file is credited beyond its size, and files credited at accept are done. */
  ghost predicate WithinSizes(tx: seq<FileTx>, atAccept: seq<bool>)
    requires |tx| == |atAccept|
  {
    forall i | 0 <= i < |tx| :: tx[i].acked <= tx[i].size && (atAccept[i] ==> tx[i].ok)
  }

  /** Nothing has been acknowledged of a file that was credited at accept. */
  ghost predicate CreditedOnce(tx: seq<FileTx>, atAccept: seq<bool>)
    requires |tx| == |atAccept|
  {
    forall i | 0 <= i < |tx| && atAccept[i] :: tx[i].acked == 0
  }

  /** The bytes not confirmed yet, and those confirmed again after being credited at accept. */
  function Missing(tx: seq<FileTx>, atAccept: seq<bool>): int
    requires |tx| == |atAccept|
  {
    if tx == [] then 0
    else (if atAccept[0] then 0 else tx[0].size - tx[0].acked) + Missing(tx[1..], atAccept[1..])
  }

  function CreditedTwice(tx: seq<FileTx>, atAccept: seq<bool>): nat
    requires |tx| == |atAccept|
  {
    if tx == [] then 0
    else (if atAccept[0] then tx[0].acked else 0) + CreditedTwice(tx[1..], atAccept[1..])
  }

  /** The progress ledger is exact: confirmed and missing bytes make up the total and the double credit. */
  lemma {:induction false} LedgerExact(tx: seq<FileTx>, atAccept: seq<bool>)
    requires |tx| == |atAccept| && WithinSizes(tx, atAccept)
    ensures SumAcked(tx) + SumSizes(tx, atAccept) + Missing(tx, atAccept)
         == TotalBytes(tx) + CreditedTwice(tx, atAccept)
    ensures Missing(tx, atAccept) >= 0
    ensures CreditedTwice(tx, atAccept) == 0 <==> CreditedOnce(tx, atAccept)
  {
    if tx != [] {
      var t, a := tx[1..], atAccept[1..];
      assert forall i | 0 <= i < |t| :: t[i] == tx[i + 1] && a[i] == atAccept[i + 1];
      LedgerExact(t, a);
      assert CreditedOnce(tx, atAccept) <==> CreditedOnce(t, a) && (atAccept[0] ==> tx[0].acked == 0);
    }
  }

  lemma {:induction false} SumSizesUpdate(tx: seq<FileTx>, atAccept: seq<bool>, i: nat, f: FileTx)
    requires |tx| == |atAccept| && i < |tx| && f.size == tx[i].size
    ensures SumSizes(tx[i := f], atAccept) == SumSizes(tx, atAccept)
    ensures TotalBytes(tx[i := f]) == TotalBytes(tx)
  {
    if i == 0 {
      assert tx[i := f][1..] == tx[1..];
    } else {
      SumSizesUpdate(tx[1..], atAccept[1..], i - 1, f);
      assert tx[i := f][1..] == tx[1..][i - 1 := f];
    }
  }

  lemma {:induction false} SumSizesCredit(tx: seq<FileTx>, atAccept: seq<bool>, v: nat)
    requires |tx| == |atAccept| && v < |tx|
    ensures SumSizes(tx, atAccept[v := true])
         == SumSizes(tx, atAccept) + (if atAccept[v] then 0 else tx[v].size)
  {
    if v == 0 {
      assert atAccept[v := true][1..] == atAccept[1..];
    } else {
      SumSizesCredit(tx[1..], atAccept[1..], v - 1);
      assert atAccept[v := true][1..] == atAccept[1..][v - 1 := true];
    }
  }

  /** The file a sender starts with: `have` are the runs of `accept`, if any. */
  function StartFile(size: nat, have: seq<Run>): FileTx {
    FileTx(size, Marked(have, BlockCount(size)), 0, false, false, None, 0)
  }

  /** The bytes `accept` credits: the size of every file it lists, each time it lists it. */
  function Listed(tx: seq<FileTx>, verified: seq<nat>): nat {
    if verified == [] then 0
    else
      var v := verified[|verified| - 1];
      Listed(tx, verified[..|verified| - 1]) + if v < |tx| then tx[v].size else 0
  }

  /** The entries of the list that name a file. */
  function FilesListed(tx: seq<FileTx>, verified: seq<nat>): nat {
    if verified == [] then 0
    else
      FilesListed(tx, verified[..|verified| - 1]) + if verified[|verified| - 1] < |tx| then 1 else 0
  }

  lemma FilesListedNext(tx: seq<FileTx>, verified: seq<nat>, a: nat)
    requires a < |verified|
    ensures FilesListed(tx, verified[..a + 1])
         == FilesListed(tx, verified[..a]) + if verified[a] < |tx| then 1 else 0
  {
    assert verified[..a + 1][..a] == verified[..a];
  }

  lemma ListedNone(tx: seq<FileTx>)
    ensures Listed(tx, []) == 0 && FilesListed(tx, []) == 0
  {}

  lemma ListedNext(tx: seq<FileTx>, verified: seq<nat>, a: nat)
    requires a < |verified|
    ensures Listed(tx, verified[..a + 1])
         == Listed(tx, verified[..a]) + if verified[a] < |tx| then tx[verified[a]].size else 0
  {
    assert verified[..a + 1][..a] == verified[..a];
  }

  /** No file with any bytes is listed twice. */
  ghost predicate ListedOnce(tx: seq<FileTx>, verified: seq<nat>) {
    forall a, b | 0 <= a < b < |verified| && verified[a] == verified[b] < |tx| :: tx[verified[a]].size == 0
  }

  function Flags(n: nat, verified: seq<nat>): seq<bool> {
    seq(n, i => i in verified)
  }

  /** Files listed twice are credited twice: the ledger is right if and only if none with bytes is. */
  lemma {:induction false} ListedExact(tx: seq<FileTx>, verified: seq<nat>)
    ensures SumSizes(tx, Flags(|tx|, verified)) <= Listed(tx, verified)
    ensures SumSizes(tx, Flags(|tx|, verified)) == Listed(tx, verified) <==> ListedOnce(tx, verified)
  {
    hide SumSizes;
    if verified == [] {
      NoneCounted(tx, Flags(|tx|, verified));
    } else {
      var m := |verified| - 1;
      var init, v := verified[..m], verified[m];
      ListedExact(tx, init);
      assert verified == init + [v];
      var before, after := Flags(|tx|, init), Flags(|tx|, verified);
      if v < |tx| {
        SumSizesCredit(tx, before, v);
        assert after == before[v := true];
      } else {
        assert after == before;
      }
      ListedOnceSnoc(tx, init, v);
    }
  }

  lemma {:induction false} NoneCounted(tx: seq<FileTx>, counted: seq<bool>)
    requires |tx| == |counted| && forall i | 0 <= i < |tx| :: !counted[i]
    ensures SumSizes(tx, counted) == 0
  {
    if tx != [] { NoneCounted(tx[1..], counted[1..]); }
  }

  lemma ListedOnceSnoc(tx: seq<FileTx>, init: seq<nat>, v: nat)
    ensures ListedOnce(tx, init + [v]) <==> ListedOnce(tx, init) && (v < |tx| && v in init ==> tx[v].size == 0)
  {
    var all := init + [v];
    if ListedOnce(tx, all) {
      forall a, b | 0 <= a < b < |init| && init[a] == init[b] < |tx| ensures tx[init[a]].size == 0 {
        assert all[a] == all[b];
      }
      if v < |tx| && v in init {
        var a :| 0 <= a < |init| && init[a] == v;
        assert all[a] == all[|init|];
      }
    }
  }

  lemma AckedByWithin(size: nat, s: Sack)
    ensures AckedBy(size, s) <= size
  {}

  class SenderTransfer {
    var tx: seq<FileTx>
    var bytesAcked: nat
    var filesDone: nat
    ghost var atAccept: seq<bool>

    /** Acked bytes are what SACKs confirmed plus the files verified before this run. */
    ghost predicate Accounted()
      reads this
    {
      && |atAccept| == |tx|
      && WithinSizes(tx, atAccept)
      && bytesAcked == SumAcked(tx) + SumSizes(tx, atAccept)
    }

    ghost predicate Balanced()
      reads this
    {
      Accounted() && CreditedOnce(tx, atAccept)
    }

    /** Files acknowledged by SACKs or credited at accept, but not both, never exceed the total. */
    lemma BalancedBound()
      requires Balanced()
      ensures bytesAcked <= TotalBytes(tx)
    {
      LedgerExact(tx, atAccept);
    }

    constructor (sizes: seq<nat>, have: map<nat, seq<Run>>, verified: seq<nat>)
      ensures |tx| == |sizes|
      ensures forall i | 0 <= i < |tx| ::
                tx[i] == StartFile(sizes[i], if i in have then have[i] else []).(ok := i in verified)
      ensures atAccept == Flags(|tx|, verified) && bytesAcked == Listed(tx, verified)
      ensures filesDone == FilesListed(tx, verified)
      ensures Balanced() <==> ListedOnce(tx, verified)
    {
      tx := seq(|sizes|, i requires 0 <= i < |sizes| => StartFile(sizes[i], if i in have then have[i] else []));
      bytesAcked, filesDone := 0, 0;
      atAccept := seq(|sizes|, _ => false);
      new;
      hide Listed, FilesListed, ListedOnce, SumAcked, SumSizes, StartFile, WithinSizes, CreditedOnce;
      StartsUnacked(sizes, have);
      CreditAll(verified);
      StartsBalanced(verified);
    }

    lemma StartsBalanced(verified: seq<nat>)
      requires atAccept == Flags(|tx|, verified) && bytesAcked == Listed(tx, verified)
      requires forall i | 0 <= i < |tx| :: tx[i].acked == 0 && (tx[i].ok <==> i in verified)
      ensures Balanced() <==> ListedOnce(tx, verified)
    {
      hide Listed, ListedOnce, SumAcked, SumSizes;
      NoneAcked(tx);
      ListedExact(tx, verified);
    }

    method CreditAll(verified: seq<nat>)
      requires |tx| == |atAccept| && forall i | 0 <= i < |tx| :: !tx[i].ok && !atAccept[i]
      modifies this
      ensures |tx| == |old(tx)|
      ensures forall i | 0 <= i < |tx| :: tx[i] == old(tx)[i].(ok := i in verified)
      ensures atAccept == Flags(|tx|, verified)
      ensures bytesAcked == old(bytesAcked) + Listed(tx, verified)
      ensures filesDone == old(filesDone) + FilesListed(tx, verified)
    {
      hide Listed, FilesListed;
      ListedNone(tx);
      assert verified[..0] == [];
      for a := 0 to |verified|
        invariant |tx| == |old(tx)| == |atAccept|
        invariant forall i | 0 <= i < |tx| ::
                    tx[i] == old(tx)[i].(ok := atAccept[i]) && (atAccept[i] <==> i in verified[..a])
        invariant bytesAcked == old(bytesAcked) + Listed(old(tx), verified[..a])
        invariant filesDone == old(filesDone) + FilesListed(old(tx), verified[..a])
      {
        FilesListedNext(old(tx), verified, a);
        ListedNext(old(tx), verified, a);
        assert verified[..a + 1] == verified[..a] + [verified[a]];
        CreditVerified(verified[a]);
      }
      SameFilesListed(old(tx), tx, verified);
      SameSizesListed(old(tx), tx, verified);
      assert verified[..|verified|] == verified;
    }

    static lemma StartsUnacked(sizes: seq<nat>, have: map<nat, seq<Run>>)
      ensures forall i | 0 <= i < |sizes| ::
                var f := StartFile(sizes[i], if i in have then have[i] else []);
                f.acked == 0 && !f.ok
    {}

    method CreditVerified(v: nat)
      requires |tx| == |atAccept|
      modifies this
      ensures tx == if v < |old(tx)| then old(tx)[v := old(tx)[v].(ok := true)] else old(tx)
      ensures atAccept == if v < |old(tx)| then old(atAccept)[v := true] else old(atAccept)
      ensures bytesAcked == old(bytesAcked) + if v < |tx| then tx[v].size else 0
      ensures filesDone == old(filesDone) + if v < |tx| then 1 else 0
    {
      if v < |tx| {
        var f := tx[v].(ok := true);
        tx := tx[v := f];
        filesDone := filesDone + 1;
        bytesAcked := bytesAcked + f.size;
        atAccept := atAccept[v := true];
      }
    }

    /** Late or reordered SACKs are ignored; the acked bytes of a file only grow here. */
    method OnSack(i: nat, s: Sack)
      requires Accounted()
      modifies this`tx, this`bytesAcked
      ensures tx == if i < |old(tx)| then old(tx)[i := TakeSack(old(tx)[i], s)] else old(tx)
      ensures Accounted()
      ensures old(Balanced()) && (i < |tx| ==> !atAccept[i]) ==> Balanced()
      ensures i < |tx| ==> tx[i].acked >= old(tx)[i].acked
      ensures forall had | i < |tx| && Reports(s, tx[i].size, had) && !Outdated(old(tx)[i], s) ::
                tx[i].acked == Max(old(tx)[i].acked,
                                   HeldBytes(tx[i].size, had, tx[i].Blocks()) + Overstated(tx[i].size, had))
    {
      if i >= |tx| { return; }
      var f := tx[i];
      if Outdated(f, s) {
        assert tx[i := f] == tx;
        return;
      }
      hide Reports, HeldBytes, Overstated, AckedBy;
      var acked := AckedBy(f.size, s);
      AckedByWithin(f.size, s);
      forall had | Reports(s, f.size, had)
        ensures acked == HeldBytes(f.size, had, f.Blocks()) + Overstated(f.size, had)
      {
        AckedIsHeld(f.size, had, s);
      }
      SumAckedUpdate(tx, i, TakeSack(f, s));
      SumSizesUpdate(tx, atAccept, i, TakeSack(f, s));
      if acked > f.acked {
        bytesAcked := bytesAcked + (acked - f.acked);
      }
      tx := tx[i := TakeSack(f, s)];
    }

    /** The receiver discarded the file: everything it confirmed is taken back. */
    method OnFileBad(i: nat)
      requires Accounted()
      modifies this`tx, this`bytesAcked
      ensures tx == if i < |old(tx)| then old(tx)[i := TakeBad(old(tx)[i])] else old(tx)
      ensures Accounted() && (old(Balanced()) ==> Balanced())
    {
      if i >= |tx| { return; }
      var f := tx[i];
      if f.ok {
        assert tx[i := f] == tx;
        return;
      }
      SumAckedUpdate(tx, i, TakeBad(f));
      SumSizesUpdate(tx, atAccept, i, TakeBad(f));
      if f.acked > 0 {
        bytesAcked := bytesAcked - Min(bytesAcked, f.acked);
      }
      tx := tx[i := TakeBad(f)];
    }

    /** The receiver verified the file. */
    method OnFileOk(i: nat)
      requires Accounted()
      modifies this`tx, this`bytesAcked, this`filesDone
      ensures tx == if i < |old(tx)| then old(tx)[i := TakeOk(old(tx)[i])] else old(tx)
      ensures Accounted() && (old(Balanced()) ==> Balanced())
      ensures filesDone == old(filesDone) + (if i < |tx| && !old(tx)[i].ok then 1 else 0)
    {
      if i >= |tx| { return; }
      var f := tx[i];
      if f.ok {
        assert tx[i := f] == tx;
        return;
      }
      SumAckedUpdate(tx, i, TakeOk(f));
      SumSizesUpdate(tx, atAccept, i, TakeOk(f));
      if f.size > f.acked {
        bytesAcked := bytesAcked + (f.size - f.acked);
      }
      tx := tx[i := TakeOk(f)];
      filesDone := filesDone + 1;
    }
  }

  lemma {:induction false} NoneAcked(tx: seq<FileTx>)
    requires forall i | 0 <= i < |tx| :: tx[i].acked == 0
    ensures SumAcked(tx) == 0
  {
    if tx != [] { NoneAcked(tx[1..]); }
  }

  lemma {:induction false} SameFilesListed(tx: seq<FileTx>, ty: seq<FileTx>, verified: seq<nat>)
    requires |tx| == |ty|
    ensures FilesListed(tx, verified) == FilesListed(ty, verified)
    decreases |verified|
  {
    if verified != [] { SameFilesListed(tx, ty, verified[..|verified| - 1]); }
  }

  lemma {:induction false} SameSizesListed(tx: seq<FileTx>, ty: seq<FileTx>, verified: seq<nat>)
    requires |tx| == |ty| && forall i | 0 <= i < |tx| :: tx[i].size == ty[i].size
    ensures Listed(tx, verified) == Listed(ty, verified)
    decreases |verified|
  {
    if verified != [] { SameSizesListed(tx, ty, verified[..|verified| - 1]); }
  }
}
