/**
 The bounded history of packets behind the congestion control feedback of RFC 8888,
 and what a report says about one sequence number. Sequence numbers are already
 unwrapped.
 */
module FeedbackHistory {
  import opened Wrappers

  const MAX_HISTORY: nat := 16384

  datatype Ecn = NotEct | Ect1 | Ect0 | Ce

  datatype PacketInfo = PacketInfo(ssrc: nat, seqNo: int, arrival: int, ecn: Ecn)

  // ---- which numbers are retained -----------------------------------------------------

  /** The eviction queue after a packet with number `s`: the oldest entry makes room. */
  function Retain(order: seq<int>, s: int): seq<int> {
    if s in order then order
    else
      var o := order + [s];
      if |o| > MAX_HISTORY then o[1..] else o
  }

  /** The numbers in the history after the packets of `log`, oldest entry first. */
  function Retained(log: seq<PacketInfo>): seq<int> {
    if log == [] then [] else Retain(Retained(log[..|log| - 1]), log[|log| - 1].seqNo)
  }

  ghost predicate NoDup(q: seq<int>) {
    forall i, j | 0 <= i < j < |q| :: q[i] != q[j]
  }

  lemma RetainKeeps(q: seq<int>, s: int)
    requires NoDup(q) && |q| <= MAX_HISTORY
    ensures NoDup(Retain(q, s)) && |Retain(q, s)| <= MAX_HISTORY && s in Retain(q, s)
    ensures forall t | t in Retain(q, s) :: t == s || t in q
    ensures forall t | t in q && t !in Retain(q, s) :: |q| == MAX_HISTORY && t == q[0]
  {
    var o := q + [s];
    if s !in q {
      var r := Retain(q, s);
      assert |o| > MAX_HISTORY ==> r[|r| - 1] == s;
      assert |o| <= MAX_HISTORY ==> r[|q|] == s;
      assert |o| <= MAX_HISTORY ==> forall i | 0 <= i < |q| :: r[i] == q[i];
      assert |o| > MAX_HISTORY ==> forall i | 0 < i < |q| :: q[i] == r[i - 1];
    }
  }

  /** The eviction queue never repeats a number and never outgrows its bound. */
  lemma {:induction false} RetainedBounded(log: seq<PacketInfo>)
    ensures NoDup(Retained(log)) && |Retained(log)| <= MAX_HISTORY == 16384
  {
    if log != [] {
      RetainedBounded(log[..|log| - 1]);
      RetainKeeps(Retained(log[..|log| - 1]), log[|log| - 1].seqNo);
    }
  }

  lemma RetainedSnoc(log: seq<PacketInfo>, p: PacketInfo)
    ensures Retained(log + [p]) == Retain(Retained(log), p.seqNo)
  {
    assert (log + [p])[..|log|] == log;
  }

  // ---- what the history knows about a number -------------------------------------------

  /** The number `s` has been in the history ever since the packet at `j` was received. */
  ghost predicate Kept(log: seq<PacketInfo>, j: nat, s: int) {
    forall k | j < k <= |log| :: InAfter(log, k, s)
  }

  /** The number `s` is in the history after the first `k` packets. */
  ghost predicate InAfter(log: seq<PacketInfo>, k: nat, s: int) {
    k <= |log| && s in Retained(log[..k])
  }

  lemma InAfterSnoc(log: seq<PacketInfo>, p: PacketInfo, k: nat, s: int)
    ensures k <= |log| ==> (InAfter(log + [p], k, s) <==> InAfter(log, k, s))
    ensures InAfter(log + [p], |log| + 1, s) <==> s in Retained(log + [p])
  {
    var l := log + [p];
    assert l[..|l|] == l;
    if k <= |log| { assert l[..k] == log[..k]; }
  }

  /** The packet at `j` is a copy of `s` received since `s` entered the history. */
  ghost predicate CopySince(log: seq<PacketInfo>, j: nat, s: int) {
    j < |log| && log[j].seqNo == s && Kept(log, j, s)
  }

  ghost predicate CeSince(log: seq<PacketInfo>, s: int) {
    exists j: nat :: CopySince(log, j, s) && log[j].ecn.Ce?
  }

  ghost predicate EarliestSince(log: seq<PacketInfo>, s: int, t: int) {
    && (exists j: nat :: CopySince(log, j, s) && log[j].arrival == t)
    && forall j: nat | CopySince(log, j, s) :: t <= log[j].arrival
  }

  /** One more packet: it is a copy itself, and older copies count while `s` stays. */
  lemma CopyStep(log: seq<PacketInfo>, p: PacketInfo, s: int, j: nat)
    ensures CopySince(log + [p], j, s) <==>
              s in Retained(log + [p])
              && (CopySince(log, j, s) || (j == |log| && p.seqNo == s))
  {
    hide InAfter, Retained;
    forall k: nat ensures k <= |log| ==> (InAfter(log + [p], k, s) <==> InAfter(log, k, s)) {
      InAfterSnoc(log, p, k, s);
    }
    InAfterSnoc(log, p, 0, s);
  }

  lemma CopyMeansRetained(log: seq<PacketInfo>, j: nat, s: int)
    requires CopySince(log, j, s)
    ensures s in Retained(log)
  {
    assert InAfter(log, |log|, s);
    assert log[..|log|] == log;
  }

  /** The CE mark of a history entry: any CE copy since entry, and nothing older. */
  lemma CeStep(log: seq<PacketInfo>, p: PacketInfo, s: int)
    ensures CeSince(log + [p], s) <==>
              s in Retained(log + [p]) && (CeSince(log, s) || (p.seqNo == s && p.ecn.Ce?))
  {
    var l := log + [p];
    if CeSince(l, s) {
      var j: nat :| CopySince(l, j, s) && l[j].ecn.Ce?;
      CopyStep(log, p, s, j);
    }
    if s in Retained(l) && CeSince(log, s) {
      var j: nat :| CopySince(log, j, s) && log[j].ecn.Ce?;
      CopyStep(log, p, s, j);
      assert l[j] == log[j];
    }
    if s in Retained(l) && p.seqNo == s && p.ecn.Ce? {
      CopyStep(log, p, s, |log|);
      assert l[|log|] == p;
    }
  }

  /** The arrival time of an entry that stays: the earlier of the old one and the new copy's. */
  lemma EarliestStep(log: seq<PacketInfo>, p: PacketInfo, s: int, t: int)
    requires EarliestSince(log, s, t) && s in Retained(log + [p])
    ensures EarliestSince(log + [p], s, if p.seqNo == s && p.arrival < t then p.arrival else t)
  {
    var l := log + [p];
    var u := if p.seqNo == s && p.arrival < t then p.arrival else t;
    var j: nat :| CopySince(log, j, s) && log[j].arrival == t;
    var w := if p.seqNo == s && p.arrival < t then |log| else j;
    CopyStep(log, p, s, w);
    assert CopySince(l, w, s) && l[w].arrival == u;
    forall i: nat | CopySince(l, i, s) ensures u <= l[i].arrival {
      CopyStep(log, p, s, i);
      assert i < |log| ==> l[i] == log[i];
    }
  }

  /** A number entering the history starts afresh, whatever was evicted before. */
  lemma EarliestFirst(log: seq<PacketInfo>, p: PacketInfo)
    requires p.seqNo !in Retained(log) && p.seqNo in Retained(log + [p])
    ensures EarliestSince(log + [p], p.seqNo, p.arrival)
    ensures CeSince(log + [p], p.seqNo) <==> p.ecn.Ce?
  {
    var l := log + [p];
    CopyStep(log, p, p.seqNo, |log|);
    assert CopySince(l, |log|, p.seqNo) && l[|log|] == p;
    forall i: nat | CopySince(l, i, p.seqNo) ensures i == |log| {
      CopyStep(log, p, p.seqNo, i);
      if CopySince(log, i, p.seqNo) { CopyMeansRetained(log, i, p.seqNo); }
    }
  }

  /** The packet at `j` is the one with which `s` entered the history. */
  ghost predicate FirstSince(log: seq<PacketInfo>, s: int, j: nat) {
    CopySince(log, j, s) && forall i: nat | CopySince(log, i, s) :: j <= i
  }

  lemma FirstStep(log: seq<PacketInfo>, p: PacketInfo, s: int, j: nat)
    requires FirstSince(log, s, j) && s in Retained(log + [p])
    ensures FirstSince(log + [p], s, j)
  {
    hide CopySince, Retained;
    CopyStep(log, p, s, j);
    InLog(log, s, j);
    forall i: nat | CopySince(log + [p], i, s) ensures j <= i {
      CopyStep(log, p, s, i);
    }
  }

  lemma InLog(log: seq<PacketInfo>, s: int, j: nat)
    requires CopySince(log, j, s)
    ensures j < |log|
  {}

  lemma FirstStarts(log: seq<PacketInfo>, p: PacketInfo)
    requires p.seqNo !in Retained(log) && p.seqNo in Retained(log + [p])
    ensures FirstSince(log + [p], p.seqNo, |log|)
  {
    hide Retained;
    CopyStep(log, p, p.seqNo, |log|);
    forall i: nat | CopySince(log + [p], i, p.seqNo) ensures |log| <= i {
      CopyStep(log, p, p.seqNo, i);
      if CopySince(log, i, p.seqNo) { CopyMeansRetained(log, i, p.seqNo); }
    }
  }

  /** The eviction queue lists the numbers in the order in which they entered the history. */
  lemma {:induction false} RetainedInOrder(log: seq<PacketInfo>, i: nat, j: nat)
    requires i < j < |Retained(log)|
    ensures exists a: nat, b: nat ::
              a < b && FirstSince(log, Retained(log)[i], a) && FirstSince(log, Retained(log)[j], b)
    decreases |log|
  {
    var front, p := log[..|log| - 1], log[|log| - 1];
    assert log == front + [p];
    RetainedBounded(front);
    var q, r := Retained(front), Retained(log);
    var shift := |q + [p.seqNo]| > MAX_HISTORY && p.seqNo !in q;
    var i', j' := if shift then i + 1 else i, if shift then j + 1 else j;
    assert r[i] in r && r[j] in r && r[i] == q[i'];
    if j' < |q| {
      assert r[j] == q[j'];
      RetainedInOrder(front, i', j');
      var a: nat, b: nat :| a < b && FirstSince(front, q[i'], a) && FirstSince(front, q[j'], b);
      FirstStep(front, p, q[i'], a);
      FirstStep(front, p, q[j'], b);
    } else {
      assert r[j] == p.seqNo;
      var a := EntryPosition(front, i');
      FirstStep(front, p, q[i'], a);
      FirstStarts(front, p);
    }
  }

  /** Where a retained number entered the history. */
  lemma {:induction false} EntryPosition(log: seq<PacketInfo>, i: nat) returns (a: nat)
    requires i < |Retained(log)|
    ensures FirstSince(log, Retained(log)[i], a) && a < |log|
    decreases |log|
  {
    var front, p := log[..|log| - 1], log[|log| - 1];
    assert log == front + [p];
    var q, r := Retained(front), Retained(log);
    var i' := if |q + [p.seqNo]| > MAX_HISTORY && p.seqNo !in q then i + 1 else i;
    assert r[i] in r;
    if i' < |q| {
      a := EntryPosition(front, i');
      FirstStep(front, p, q[i'], a);
    } else {
      a := |front|;
      FirstStarts(front, p);
    }
  }

  /** An entry has the stream and mark of its first packet, the earliest arrival, and sticks to CE. */
  ghost predicate EntryOk(log: seq<PacketInfo>, s: int, h: PacketInfo) {
    && h.seqNo == s
    && (h.ecn.Ce? <==> CeSince(log, s))
    && FirstEntry(log, s, h)
    && EarliestSince(log, s, h.arrival)
  }

  ghost predicate FirstEntry(log: seq<PacketInfo>, s: int, h: PacketInfo) {
    exists j: nat :: FirstSince(log, s, j) && h.ssrc == log[j].ssrc && (!h.ecn.Ce? ==> h.ecn == log[j].ecn)
  }

  /** The history map holds exactly the retained numbers and, of each, what its copies say. */
  ghost predicate HistoryOk(log: seq<PacketInfo>, history: map<int, PacketInfo>) {
    && (forall s :: s in history <==> s in Retained(log))
    && forall s | s in history :: EntryOk(log, s, history[s])
  }

  /** The history entry after one more copy of its packet. */
  function Updated(h: PacketInfo, p: PacketInfo): PacketInfo {
    h.(arrival := if p.arrival < h.arrival then p.arrival else h.arrival,
       ecn := if p.ecn.Ce? then Ce else h.ecn)
  }

  /** What a receipt makes of any entry that stays. */
  lemma EntryStays(log: seq<PacketInfo>, p: PacketInfo, s: int, h: PacketInfo)
    requires EntryOk(log, s, h) && s in Retained(log + [p])
    ensures EntryOk(log + [p], s, if p.seqNo == s then Updated(h, p) else h)
  {
    hide EarliestSince, CeSince, Retained;
    CeStep(log, p, s);
    EarliestStep(log, p, s, h.arrival);
    var j: nat :| FirstSince(log, s, j) && h.ssrc == log[j].ssrc && (!h.ecn.Ce? ==> h.ecn == log[j].ecn);
    FirstStep(log, p, s, j);
    assert (log + [p])[j] == log[j];
  }

  lemma EntryStarts(log: seq<PacketInfo>, p: PacketInfo)
    requires p.seqNo !in Retained(log) && p.seqNo in Retained(log + [p])
    ensures EntryOk(log + [p], p.seqNo, p)
  {
    hide EarliestSince, CeSince, Retained;
    EarliestFirst(log, p);
    FirstStarts(log, p);
    assert (log + [p])[|log|] == p;
  }

  // ---- what a report says about one number -----------------------------------------------

  /** The later of two arrival times, of which the first may be missing. */
  function Later(a: Option<int>, t: int): Option<int> {
    if a.Some? && t <= a.value then a else Some(t)
  }

  /** The arrival time reported: the latest of the history's and the new copies'. */
  function LatestArrival(h: Option<int>, copies: seq<PacketInfo>): Option<int> {
    if copies == [] then h
    else Later(LatestArrival(h, copies[..|copies| - 1]), copies[|copies| - 1].arrival)
  }

  /** The mark reported: CE sticks; the first copy's mark stands in for a missing one. */
  function CombinedEcn(base: Ecn, copies: seq<PacketInfo>): Ecn {
    if copies == [] then base
    else
      var m, p := |copies| - 1, copies[|copies| - 1];
      var before := CombinedEcn(base, copies[..m]);
      if p.ecn.Ce? then Ce else if m == 0 && before.NotEct? then p.ecn else before
  }

  ghost predicate AnyCe(copies: seq<PacketInfo>) {
    exists k | 0 <= k < |copies| :: copies[k].ecn.Ce?
  }

  /** CE is reported exactly if the history or any of the new copies carried it. */
  lemma {:induction false} CombinedEcnMeans(base: Ecn, copies: seq<PacketInfo>)
    ensures CombinedEcn(base, copies).Ce? <==> base.Ce? || AnyCe(copies)
    ensures !CombinedEcn(base, copies).Ce? ==>
              CombinedEcn(base, copies) == if base.NotEct? && copies != [] then copies[0].ecn else base
  {
    if copies != [] {
      var m := |copies| - 1;
      var front := copies[..m];
      CombinedEcnMeans(base, front);
      assert forall k | 0 <= k < m :: front[k] == copies[k];
      assert AnyCe(front) ==> AnyCe(copies);
      assert copies[m].ecn.Ce? ==> AnyCe(copies);
      assert AnyCe(copies) ==> AnyCe(front) || copies[m].ecn.Ce?;
    }
  }

  ghost predicate IsArrival(h: Option<int>, copies: seq<PacketInfo>, t: int) {
    h == Some(t) || exists k | 0 <= k < |copies| :: copies[k].arrival == t
  }

  lemma {:induction false} LatestArrivalMeans(h: Option<int>, copies: seq<PacketInfo>)
    ensures LatestArrival(h, copies).None? <==> h.None? && copies == []
    ensures LatestArrival(h, copies).Some? ==>
              var t := LatestArrival(h, copies).value;
              IsArrival(h, copies, t) && forall u | IsArrival(h, copies, u) :: u <= t
  {
    if copies != [] {
      var m := |copies| - 1;
      var front := copies[..m];
      LatestArrivalMeans(h, front);
      var t := LatestArrival(h, copies).value;
      assert forall k | 0 <= k < m :: front[k] == copies[k];
      assert IsArrival(h, copies, copies[m].arrival);
      assert forall u :: IsArrival(h, front, u) ==> IsArrival(h, copies, u);
      assert forall u :: IsArrival(h, copies, u) ==> IsArrival(h, front, u) || u == copies[m].arrival;
    }
  }

  /**
   RFC 8888 asks for the arrival of the first copy. The report gives it exactly if no
   new copy arrived later than it.
   */
  lemma FirstCopyReported(h: Option<int>, copies: seq<PacketInfo>, first: int)
    requires IsArrival(h, copies, first) && forall u | IsArrival(h, copies, u) :: first <= u
    requires h.Some? ==> h.value == first
    ensures LatestArrival(h, copies) == Some(first) <==> (forall k | 0 <= k < |copies| :: copies[k].arrival <= first)
  {
    LatestArrivalMeans(h, copies);
    var t := LatestArrival(h, copies).value;
    forall k | 0 <= k < |copies| ensures copies[k].arrival <= t {
      assert IsArrival(h, copies, copies[k].arrival);
    }
  }

  /** Two copies of packet 7, seen at 1 and 2: the report gives the second one's arrival. */
  lemma SecondCopyReported()
    ensures var copies := [PacketInfo(1, 7, 1, NotEct), PacketInfo(1, 7, 2, NotEct)];
            LatestArrival(Some(1), copies) == Some(2)
  {
    var a, b := PacketInfo(1, 7, 1, NotEct), PacketInfo(1, 7, 2, NotEct);
    assert [a, b][..1] == [a];
    assert [a][..0] == [];
  }
}
