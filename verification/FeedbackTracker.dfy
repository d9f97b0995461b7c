/**
 The tracker that turns received packets into the reports of RFC 8888: a merge of the
 sorted packets since the last report with the history.
 */
module FeedbackTracker {
  import opened Wrappers
  import opened FeedbackHistory

  /** One line of a report; no offset means that the packet has not been received. */
  datatype Line = Line(ssrc: nat, seqNo: nat, offset: Option<int>, ecn: Ecn)

  // ---- sorting ------------------------------------------------------------------------

  predicate InOrder(a: PacketInfo, b: PacketInfo) {
    a.seqNo < b.seqNo || (a.seqNo == b.seqNo && a.arrival <= b.arrival)
  }

  ghost predicate Sorted(q: seq<PacketInfo>) {
    forall i, j | 0 <= i < j < |q| :: InOrder(q[i], q[j])
  }

  ghost predicate SamePackets(q: seq<PacketInfo>, r: seq<PacketInfo>) {
    multiset(q) == multiset(r)
  }

  method SortPackets(packets: seq<PacketInfo>) returns (sorted: seq<PacketInfo>)
    ensures Sorted(sorted) && SamePackets(sorted, packets)
  {
    sorted := [];
    for n := 0 to |packets|
      invariant Sorted(sorted) && SamePackets(sorted, packets[..n])
    {
      assert packets[..n + 1] == packets[..n] + [packets[n]];
      sorted := Insert(sorted, packets[n]);
    }
    assert packets[..|packets|] == packets;
  }

  method Insert(q: seq<PacketInfo>, p: PacketInfo) returns (r: seq<PacketInfo>)
    requires Sorted(q)
    ensures Sorted(r) && SamePackets(r, q + [p])
  {
    hide Sorted, InOrder;
    var k := FindPlace(q, p);
    r := q[..k] + [p] + q[k..];
    InsertedSorted(q, p, k);
    InsertedSame(q, p, k);
  }

  /** The place after the last packet that comes no later than `p`. */
  method FindPlace(q: seq<PacketInfo>, p: PacketInfo) returns (k: nat)
    requires Sorted(q)
    ensures k <= |q|
    ensures forall i | 0 <= i < k :: InOrder(q[i], p)
    ensures forall i | k <= i < |q| :: InOrder(p, q[i])
  {
    k := |q|;
    while k > 0 && !InOrder(q[k - 1], p)
      invariant 0 <= k <= |q|
      invariant forall i | k <= i < |q| :: InOrder(p, q[i])
    {
      k := k - 1;
    }
    assert forall i | 0 <= i < k - 1 :: InOrder(q[i], q[k - 1]);
  }

  lemma InsertedSame(q: seq<PacketInfo>, p: PacketInfo, k: nat)
    requires k <= |q|
    ensures SamePackets(q[..k] + [p] + q[k..], q + [p])
  {
    assert q[..k] + q[k..] == q;
  }

  lemma InsertedSorted(q: seq<PacketInfo>, p: PacketInfo, k: nat)
    requires Sorted(q) && k <= |q|
    requires forall i | 0 <= i < k :: InOrder(q[i], p)
    requires forall i | k <= i < |q| :: InOrder(p, q[i])
    ensures Sorted(q[..k] + [p] + q[k..])
  {
    hide InOrder;
    var r := q[..k] + [p] + q[k..];
    assert forall i | 0 <= i < k :: r[i] == q[i];
    assert forall i | k < i < |r| :: r[i] == q[i - 1];
  }

  // ---- what one line means --------------------------------------------------------------

  /** Some copy of `s`, in the history or among the new packets, arrived at `u`. */
  ghost predicate ArrivedAt(history: map<int, PacketInfo>, pending: seq<PacketInfo>, s: int, u: int) {
    (s in history && history[s].arrival == u) || exists p | p in pending :: p.seqNo == s && p.arrival == u
  }

  ghost predicate NewCe(pending: seq<PacketInfo>, s: int) {
    exists p | p in pending :: p.seqNo == s && p.ecn.Ce?
  }

  ghost predicate FirstNew(pending: seq<PacketInfo>, p: PacketInfo) {
    p in pending && forall q | q in pending && q.seqNo == p.seqNo :: p.arrival <= q.arrival
  }

  /** The line about `s` in a report at `time`. */
  ghost predicate Reports(e: Line, s: int, time: int, history: map<int, PacketInfo>, pending: seq<PacketInfo>) {
    && e.seqNo == s % 0x1_0000
    && (e.ecn.Ce? <==> (s in history && history[s].ecn.Ce?) || NewCe(pending, s))
    && (!e.ecn.Ce? ==>
          if s in history && !history[s].ecn.NotEct? then e.ecn == history[s].ecn
          else if forall p | p in pending :: p.seqNo != s then e.ecn.NotEct?
          else exists p :: FirstNew(pending, p) && p.seqNo == s && p.ecn == e.ecn)
    && (e.offset.None? <==> s !in history && forall p | p in pending :: p.seqNo != s)
    && (e.offset.Some? ==>
          && ArrivedAt(history, pending, s, time - e.offset.value)
          && forall u | ArrivedAt(history, pending, s, u) :: u <= time - e.offset.value)
  }

  function Arrival(history: map<int, PacketInfo>, s: int): Option<int> {
    if s in history then Some(history[s].arrival) else None
  }

  function Mark(history: map<int, PacketInfo>, s: int): Ecn {
    if s in history then history[s].ecn else NotEct
  }

  function MakeLine(ssrc: nat, s: int, time: int, history: map<int, PacketInfo>, copies: seq<PacketInfo>): Line {
    var t := LatestArrival(Arrival(history, s), copies);
    Line(ssrc, s % 0x1_0000, if t.None? then None else Some(time - t.value), CombinedEcn(Mark(history, s), copies))
  }

  /** The new packets with number `s` are exactly `copies`, in order of arrival. */
  ghost predicate CopiesOf(copies: seq<PacketInfo>, pending: seq<PacketInfo>, s: int) {
    && (forall p :: p in copies <==> p in pending && p.seqNo == s)
    && forall k | 0 < k < |copies| :: copies[0].arrival <= copies[k].arrival
  }

  lemma LineArrival(history: map<int, PacketInfo>, copies: seq<PacketInfo>, pending: seq<PacketInfo>, s: int, u: int)
    requires CopiesOf(copies, pending, s)
    ensures IsArrival(Arrival(history, s), copies, u) <==> ArrivedAt(history, pending, s, u)
  {
    if exists p | p in pending :: p.seqNo == s && p.arrival == u {
      var p :| p in pending && p.seqNo == s && p.arrival == u;
      assert p in copies;
    }
    if exists k | 0 <= k < |copies| :: copies[k].arrival == u {
      var k :| 0 <= k < |copies| && copies[k].arrival == u;
      assert copies[k] in copies;
    }
  }

  lemma LineCe(copies: seq<PacketInfo>, pending: seq<PacketInfo>, s: int)
    requires CopiesOf(copies, pending, s)
    ensures AnyCe(copies) <==> NewCe(pending, s)
    ensures copies == [] <==> forall p | p in pending :: p.seqNo != s
    ensures copies != [] ==> FirstNew(pending, copies[0]) && copies[0].seqNo == s
  {
    assert forall k | 0 <= k < |copies| :: copies[k] in copies;
    if NewCe(pending, s) {
      var p :| p in pending && p.seqNo == s && p.ecn.Ce?;
      assert p in copies;
    }
    if copies != [] {
      assert copies[0] in copies;
      forall q | q in pending && q.seqNo == s ensures copies[0].arrival <= q.arrival {
        assert q in copies;
      }
    }
  }

  /** The merged line says what RFC 8888 asks for, save for the arrival of duplicates. */
  lemma LineReports(ssrc: nat, s: int, time: int, history: map<int, PacketInfo>,
                    copies: seq<PacketInfo>, pending: seq<PacketInfo>)
    requires CopiesOf(copies, pending, s)
    ensures Reports(MakeLine(ssrc, s, time, history, copies), s, time, history, pending)
  {
    hide CopiesOf, AnyCe, IsArrival, ArrivedAt, NewCe, FirstNew, LatestArrival, CombinedEcn;
    LineCe(copies, pending, s);
    CombinedEcnMeans(Mark(history, s), copies);
    LatestArrivalMeans(Arrival(history, s), copies);
    forall u ensures IsArrival(Arrival(history, s), copies, u) <==> ArrivedAt(history, pending, s, u) {
      LineArrival(history, copies, pending, s, u);
    }
  }

  // ---- the merge ---------------------------------------------------------------------------

  /** Every packet before `it` is below `s`, every other one is not. */
  ghost predicate SplitAt(sorted: seq<PacketInfo>, it: nat, s: int) {
    && it <= |sorted|
    && (forall i | 0 <= i < it :: sorted[i].seqNo < s)
    && (forall i | it <= i < |sorted| :: s <= sorted[i].seqNo)
  }

  /** The packets numbered `s` are those between two consecutive splits. */
  lemma GroupIsCopies(sorted: seq<PacketInfo>, it: nat, next: nat, s: int)
    requires Sorted(sorted) && it <= next && SplitAt(sorted, it, s) && SplitAt(sorted, next, s + 1)
    ensures CopiesOf(sorted[it..next], sorted, s)
  {
    var copies := sorted[it..next];
    forall p | p in sorted && p.seqNo == s ensures p in copies {
      var i :| 0 <= i < |sorted| && sorted[i] == p;
      assert copies[i - it] == p;
    }
    forall k | 0 < k < |copies| ensures copies[0].arrival <= copies[k].arrival {
      assert InOrder(sorted[it], sorted[it + k]);
    }
  }

  lemma NextCopy(h: Option<int>, base: Ecn, copies: seq<PacketInfo>, p: PacketInfo)
    ensures LatestArrival(h, copies + [p]) == Later(LatestArrival(h, copies), p.arrival)
    ensures CombinedEcn(base, copies + [p])
         == if p.ecn.Ce? then Ce
            else if copies == [] && base.NotEct? then p.ecn else CombinedEcn(base, copies)
  {
    assert (copies + [p])[..|copies|] == copies;
  }

  /** The new copies of `s`, from the packet iterator on. */
  method MergeCopies(sorted: seq<PacketInfo>, it: nat, s: int, ghost h: Option<int>, ghost base: Ecn,
                     arrival0: Option<int>, ecn0: Ecn)
    returns (arrival: Option<int>, ecn: Ecn, next: nat)
    requires it < |sorted| && sorted[it].seqNo == s && arrival0 == h && ecn0 == base
    ensures it < next <= |sorted|
    ensures forall i | it <= i < next :: sorted[i].seqNo == s
    ensures next < |sorted| ==> sorted[next].seqNo != s
    ensures arrival == LatestArrival(h, sorted[it..next]) && ecn == CombinedEcn(base, sorted[it..next])
  {
    hide LatestArrival, CombinedEcn, Later;
    arrival, ecn, next := Later(arrival0, sorted[it].arrival), ecn0, it + 1;
    if sorted[it].ecn.Ce? {
      ecn := Ce;
    } else if ecn.NotEct? {
      ecn := sorted[it].ecn;
    }
    NoCopies(h, base);
    NextCopy(h, base, [], sorted[it]);
    assert sorted[it..next] == [] + [sorted[it]];
    while next < |sorted| && sorted[next].seqNo == s
      invariant it < next <= |sorted|
      invariant forall i | it <= i < next :: sorted[i].seqNo == s
      invariant arrival == LatestArrival(h, sorted[it..next])
      invariant ecn == CombinedEcn(base, sorted[it..next])
    {
      NextCopy(h, base, sorted[it..next], sorted[next]);
      assert sorted[it..next + 1] == sorted[it..next] + [sorted[next]];
      arrival := Later(arrival, sorted[next].arrival);
      if sorted[next].ecn.Ce? {
        ecn := Ce;
      }
      next := next + 1;
    }
  }

  lemma NoCopies(h: Option<int>, base: Ecn)
    ensures LatestArrival(h, []) == h && CombinedEcn(base, []) == base
  {}

  /** One line: the history entry first, then each new copy. */
  method MergeLine(sorted: seq<PacketInfo>, it: nat, s: int, time: int, history: map<int, PacketInfo>, ssrc: nat)
    returns (line: Line, next: nat)
    requires SplitAt(sorted, it, s) && it < |sorted| && Sorted(sorted)
    ensures it <= next && SplitAt(sorted, next, s + 1)
    ensures line == MakeLine(ssrc, s, time, history, sorted[it..next])
  {
    hide LatestArrival, CombinedEcn;
    var arrival, ecn := None, NotEct;
    if s in history {
      arrival, ecn := Some(history[s].arrival), history[s].ecn;
    }
    next := it;
    NoCopies(Arrival(history, s), Mark(history, s));
    assert sorted[it..next] == [];
    if sorted[it].seqNo == s {
      arrival, ecn, next := MergeCopies(sorted, it, s, Arrival(history, s), Mark(history, s), arrival, ecn);
    }
    assert forall i | next < i < |sorted| :: InOrder(sorted[next], sorted[i]);
    line := Line(ssrc, s % 0x1_0000, if arrival.None? then None else Some(time - arrival.value), ecn);
  }

  /**
   The lines from `first` to the highest number received. The packet iterator is never
   past the end while a line is made, and every packet is consumed.
   */
  method Merge(sorted: seq<PacketInfo>, first: int, time: int, history: map<int, PacketInfo>)
    returns (lines: seq<Line>)
    requires Sorted(sorted) && sorted != [] && forall p | p in sorted :: first <= p.seqNo
    ensures first + |lines| == sorted[|sorted| - 1].seqNo + 1
    ensures forall k | 0 <= k < |lines| ::
              lines[k].ssrc == sorted[0].ssrc && Reports(lines[k], first + k, time, history, sorted)
  {
    hide Reports, CopiesOf;
    var last := sorted[|sorted| - 1].seqNo;
    assert last >= first;
    var it := 0;
    var s := first;
    lines := [];
    assert forall i | 0 <= i < |sorted| :: sorted[i] in sorted;
    while s <= last
      invariant first <= s <= last + 1 && |lines| == s - first
      invariant SplitAt(sorted, it, s)
      invariant forall k | 0 <= k < |lines| ::
                  lines[k].ssrc == sorted[0].ssrc && Reports(lines[k], first + k, time, history, sorted)
      decreases last - s
    {
      var line, next := MergeLine(sorted, it, s, time, history, sorted[0].ssrc);
      GroupIsCopies(sorted, it, next, s);
      LineReports(sorted[0].ssrc, s, time, history, sorted[it..next], sorted);
      lines := lines + [line];
      it := next;
      s := s + 1;
    }
    assert it == |sorted|;
  }

  // ---- the tracker -----------------------------------------------------------------------------

  /** Where the next report starts from: a late packet pulls it back. */
  function Lowered(last: Option<int>, s: int): Option<int> {
    if last.Some? && s < last.value + 1 then Some(s - 1) else last
  }

  /** The next report starts right after the last one, or at the lowest packet waiting, if that is lower. */
  ghost predicate PulledBack(last: Option<int>, end: Option<int>, packets: seq<PacketInfo>) {
    && (last.Some? <==> end.Some?)
    && (last.Some? ==>
          last.value <= end.value
          && (last == end || exists p | p in packets :: p.seqNo == last.value + 1))
  }

  class CongestionControlFeedbackTracker {
    var lastInFeedback: Option<int>
    var packets: seq<PacketInfo>
    var history: map<int, PacketInfo>
    var historyOrder: seq<int>

    /** Everything received, and how much of it has been reported. */
    ghost var log: seq<PacketInfo>
    ghost var reported: nat
    /** The numbers reported so far, and where the last report ended. */
    ghost var covered: set<int>
    ghost var lastEnd: Option<int>

    ghost predicate Valid()
      reads this
    {
      && reported <= |log| && packets == log[reported..]
      && historyOrder == Retained(log)
      && HistoryOk(log, history)
      && (lastInFeedback.None? ==> covered == {})
      && (lastInFeedback.Some? ==>
            && (forall p | p in packets :: lastInFeedback.value < p.seqNo)
            && NoGap(covered, lastInFeedback.value))
      && PulledBack(lastInFeedback, lastEnd, packets)
    }

    constructor ()
      ensures Valid() && log == [] && reported == 0 && covered == {} && lastInFeedback == lastEnd == None
    {
      lastInFeedback, packets, history, historyOrder := None, [], map[], [];
      log, reported, covered, lastEnd := [], 0, {}, None;
    }

    method ReceivedPacket(p: PacketInfo)
      requires Valid()
      modifies this
      ensures Valid() && log == old(log) + [p]
      ensures reported == old(reported) && covered == old(covered) && lastEnd == old(lastEnd)
      ensures lastInFeedback == Lowered(old(lastInFeedback), p.seqNo)
    {
      hide Retained, HistoryOk;
      RetainedSnoc(log, p);
      RetainedBounded(log);
      if lastInFeedback.Some? && p.seqNo < lastInFeedback.value + 1 {
        lastInFeedback := Some(p.seqNo - 1);
      }
      Remember(p);
      assert forall q | q in old(packets) :: q in old(packets) + [p];
      packets := packets + [p];
      log := log + [p];
    }

    /** The history part of a receipt. */
    method Remember(p: PacketInfo)
      requires historyOrder == Retained(log) && HistoryOk(log, history)
      modifies this`history, this`historyOrder
      ensures historyOrder == Retained(log + [p]) && HistoryOk(log + [p], history)
    {
      hide Retained, NoDup, EntryOk, HistoryOk;
      ghost var before := history;
      HistoryKeys(log, history);
      RetainedSnoc(log, p);
      RetainedBounded(log);
      RetainKeeps(Retained(log), p.seqNo);
      if p.seqNo !in history {
        history := history[p.seqNo := p];
        historyOrder := historyOrder + [p.seqNo];
        if |historyOrder| > MAX_HISTORY {
          var oldest := historyOrder[0];
          historyOrder := historyOrder[1..];
          history := map s | s in history && s != oldest :: history[s];
        }
        Entered(log, before, history, p);
      } else {
        var h := history[p.seqNo];
        if p.arrival < h.arrival {
          h := h.(arrival := p.arrival);
        }
        if p.ecn.Ce? {
          h := h.(ecn := Ce);
        }
        history := history[p.seqNo := h];
        Refreshed(log, before, p);
      }
    }

    /**
     A report: consecutive numbers from the one after the last report, or lower if a
     late packet came in, up to the highest received.
     */
    method AddPacketsToFeedback(time: int, feedback: seq<Line>) returns (out: seq<Line>, ghost first: int)
      requires Valid()
      modifies this`packets, this`lastInFeedback, this`reported, this`covered, this`lastEnd
      ensures Valid()
      ensures old(packets) == [] ==>
                out == feedback && covered == old(covered) && lastInFeedback == old(lastInFeedback)
                && lastEnd == old(lastEnd)
      ensures old(packets) != [] ==>
                && lastInFeedback.Some? && |out| == |feedback| + lastInFeedback.value + 1 - first
                && (forall p | p in old(packets) :: first <= p.seqNo <= lastInFeedback.value)
                && (exists p | p in old(packets) :: p.seqNo == lastInFeedback.value)
                && lastEnd == lastInFeedback
                && (old(lastEnd).Some? ==> first <= old(lastEnd).value + 1)
                && (old(lastEnd) == Some(first - 1) || exists p | p in old(packets) :: p.seqNo == first)
                && (forall s :: s in covered <==> s in old(covered) || first <= s <= lastInFeedback.value)
      ensures |feedback| <= |out| && out[..|feedback|] == feedback
      ensures forall k | |feedback| <= k < |out| ::
                Reports(out[k], first + k - |feedback|, time, history, old(packets))
      ensures old(packets) != [] ==>
                exists p | p in old(packets) :: forall k | |feedback| <= k < |out| :: out[k].ssrc == p.ssrc
      ensures packets == [] && reported == |log|
    {
      hide Reports, HistoryOk, Retained, NoGap;
      out := feedback;
      first := 0;
      if packets == [] {
        reported := |log|;
        return;
      }
      var lines, start, end := MakeReport(packets, lastInFeedback, time, history);
      first := start;
      out := out + lines;
      assert forall k | |feedback| <= k < |out| :: out[k] == lines[k - |feedback|];
      lastInFeedback, lastEnd := Some(end), Some(end);
      covered := covered + Span(start, end);
      NoGapExtends(old(covered), covered, start, old(lastInFeedback), end);
      packets := [];
      reported := |log|;
    }
  }

  lemma HistoryKeys(log: seq<PacketInfo>, history: map<int, PacketInfo>)
    requires HistoryOk(log, history)
    ensures forall s :: s in history <==> s in Retained(log)
  {}

  /** The lines of a report on packets that all come after the last one reported. */
  method MakeReport(packets: seq<PacketInfo>, last: Option<int>, time: int, history: map<int, PacketInfo>)
    returns (lines: seq<Line>, first: int, end: int)
    requires packets != [] && (last.Some? ==> forall p | p in packets :: last.value < p.seqNo)
    ensures |lines| == end + 1 - first
    ensures last.Some? ==> first == last.value + 1
    ensures last.None? ==> exists p | p in packets :: p.seqNo == first
    ensures forall p | p in packets :: first <= p.seqNo <= end
    ensures exists p | p in packets :: p.seqNo == end
    ensures exists p | p in packets :: forall k | 0 <= k < |lines| :: lines[k].ssrc == p.ssrc
    ensures forall k | 0 <= k < |lines| :: Reports(lines[k], first + k, time, history, packets)
  {
    hide Reports, Sorted, SamePackets;
    var sorted := SortPackets(packets);
    SortedEnds(sorted, packets);
    first := if last.Some? then last.value + 1 else sorted[0].seqNo;
    lines := Merge(sorted, first, time, history);
    end := sorted[|sorted| - 1].seqNo;
    forall k | 0 <= k < |lines| ensures Reports(lines[k], first + k, time, history, packets) {
      ReportsSame(lines[k], first + k, time, history, sorted, packets);
    }
  }

  lemma SortedEnds(sorted: seq<PacketInfo>, packets: seq<PacketInfo>)
    requires Sorted(sorted) && SamePackets(sorted, packets) && packets != []
    ensures sorted != []
    ensures forall p :: p in sorted <==> p in packets
    ensures forall p | p in packets :: sorted[0].seqNo <= p.seqNo <= sorted[|sorted| - 1].seqNo
    ensures sorted[0] in packets && sorted[|sorted| - 1] in packets
  {
    assert packets[0] in multiset(packets);
    forall p ensures p in sorted <==> p in packets {
      assert p in sorted <==> p in multiset(sorted);
    }
    assert sorted[0] in sorted && sorted[|sorted| - 1] in sorted;
  }

  lemma ReportsSame(e: Line, s: int, time: int, history: map<int, PacketInfo>, q: seq<PacketInfo>, r: seq<PacketInfo>)
    requires Reports(e, s, time, history, q) && forall p :: p in q <==> p in r
    ensures Reports(e, s, time, history, r)
  {
    assert forall u :: ArrivedAt(history, q, s, u) <==> ArrivedAt(history, r, s, u);
    assert forall p :: FirstNew(q, p) <==> FirstNew(r, p);
  }

  function Span(first: int, last: int): (r: set<int>)
    ensures forall s :: s in r <==> first <= s <= last
    decreases last - first
  {
    if first > last then {} else Span(first, last - 1) + {last}
  }

  /** Everything between the lowest number reported and `last` has been reported. */
  ghost predicate NoGap(covered: set<int>, last: int) {
    forall c, s | c in covered && c <= s <= last :: s in covered
  }

  /**
   A report that starts no later than right after the previous one leaves no gap, even
   when late packets have pulled its start, or its end, below earlier reports.
   */
  lemma NoGapExtends(before: set<int>, after: set<int>, first: int, last: Option<int>, end: int)
    requires last.None? ==> before == {}
    requires last.Some? ==> first == last.value + 1 && NoGap(before, last.value)
    requires forall s :: s in after <==> s in before || first <= s <= end
    ensures NoGap(after, end)
  {
    forall c, s | c in after && c <= s <= end ensures s in after {
      assert last.Some? && s <= last.value ==> c in before;
    }
  }

  /** A new number enters the history, at its bound in place of the oldest one. */
  lemma Entered(log: seq<PacketInfo>, before: map<int, PacketInfo>, after: map<int, PacketInfo>, p: PacketInfo)
    requires HistoryOk(log, before) && p.seqNo !in before
    requires forall s :: s in after <==> (s in before || s == p.seqNo) && s in Retained(log + [p])
    requires forall s | s in after :: after[s] == if s == p.seqNo then p else before[s]
    requires forall s | s in Retained(log + [p]) :: s == p.seqNo || s in Retained(log)
    ensures HistoryOk(log + [p], after)
  {
    hide EntryOk, Retained;
    forall s | s in after ensures EntryOk(log + [p], s, after[s]) {
      if s == p.seqNo { EntryStarts(log, p); } else { EntryStays(log, p, s, before[s]); }
    }
  }

  /** Another copy of a retained packet. */
  lemma Refreshed(log: seq<PacketInfo>, before: map<int, PacketInfo>, p: PacketInfo)
    requires HistoryOk(log, before) && p.seqNo in before && Retained(log + [p]) == Retained(log)
    ensures HistoryOk(log + [p], before[p.seqNo := Updated(before[p.seqNo], p)])
  {
    hide EntryOk, Retained, Updated;
    forall s | s in before
      ensures EntryOk(log + [p], s, if p.seqNo == s then Updated(before[s], p) else before[s])
    {
      EntryStays(log, p, s, before[s]);
    }
  }

  /** CE in a report: any CE copy since the number entered the history, or a new CE copy. */
  lemma CeReported(e: Line, s: int, time: int, history: map<int, PacketInfo>, log: seq<PacketInfo>, reported: nat)
    requires reported <= |log| && HistoryOk(log, history)
    requires Reports(e, s, time, history, log[reported..])
    ensures e.ecn.Ce? <==> CeSince(log, s) || NewCe(log[reported..], s)
  {
    hide Retained, NewCe;
    if CeSince(log, s) {
      var j: nat :| CopySince(log, j, s) && log[j].ecn.Ce?;
      CopyMeansRetained(log, j, s);
    }
    if s in history { assert EntryOk(log, s, history[s]); }
  }
}
