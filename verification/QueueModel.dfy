/**
 The packet queue as a list of waiting packets in the order they were pushed, with a
 round-robin table per priority level. A stream's FIFO at a level is the part of the
 list with its SSRC and that level.
 */
module QueueModel {
  import opened Wrappers

  datatype MediaType = Audio | Video | Retransmission | ForwardErrorCorrection | Padding

  datatype OriginalType = OriginalAudio | OriginalVideo

  datatype Packet = Packet(ssrc: nat, media: MediaType, original: Option<OriginalType>, bytes: nat, keyFrame: bool)

  const LEVELS: nat := 5

  /** Streams that have been empty for this long are culled, at most this often (500 ms). */
  const TIMEOUT: int := 500_000

  function Priority(media: MediaType, original: Option<OriginalType>): (level: nat)
    ensures level < LEVELS
  {
    match media
    case Audio => 0
    case Retransmission => if original == Some(OriginalVideo) then 2 else 1
    case Video => 3
    case ForwardErrorCorrection => 3
    case Padding => 4
  }

  /**
   A waiting packet. `pushed` is when it was pushed, `pausedBefore` how long the queue
   had been paused by then, and `born` how much unpaused time had passed by then.
   */
  datatype Item = Item(level: nat, packet: Packet, pushed: int, pausedBefore: int, born: int, id: nat)
  {
    /** The enqueue time the queue stores. */
    function Enqueued(): int {
      pushed - pausedBefore
    }
  }

  /**
   `live` is the unpaused time that has passed since the queue was created, and
   `streams` the known streams with their creation times.
   */
  datatype Model = Model(
    items: seq<Item>,
    tables: seq<seq<nat>>,
    streams: map<nat, int>,
    live: int,
    pauseSum: int,
    lastUpdate: int,
    paused: bool,
    lastCulling: int,
    top: int,
    next: nat,
    splitRetransmissions: bool,
    ttl: seq<Option<int>>)

  // ---- the list of waiting packets ---------------------------------------------

  predicate IsAt(x: Item, s: nat, l: nat) {
    x.packet.ssrc == s && x.level == l
  }

  /** The FIFO of stream `s` at level `l`. */
  function Queue(items: seq<Item>, s: nat, l: nat): seq<Item> {
    if items == [] then []
    else if IsAt(items[0], s, l) then [items[0]] + Queue(items[1..], s, l)
    else Queue(items[1..], s, l)
  }

  /** The list without the first packet of `s` at `l`. */
  function WithoutFirst(items: seq<Item>, s: nat, l: nat): seq<Item> {
    if items == [] then []
    else if IsAt(items[0], s, l) then items[1..]
    else [items[0]] + WithoutFirst(items[1..], s, l)
  }

  lemma {:induction false} QueueWithoutFirst(items: seq<Item>, s: nat, l: nat, t: nat, m: nat)
    ensures Queue(items, s, l) == [] ==> WithoutFirst(items, s, l) == items
    ensures Queue(items, s, l) != [] ==>
              Queue(WithoutFirst(items, s, l), t, m)
              == if t == s && m == l then Queue(items, s, l)[1..] else Queue(items, t, m)
  {
    if items != [] && !IsAt(items[0], s, l) {
      QueueWithoutFirst(items[1..], s, l, t, m);
      assert WithoutFirst(items, s, l)[1..] == WithoutFirst(items[1..], s, l);
      assert [items[0]] + items[1..] == items;
    }
  }

  lemma {:induction false} QueueAppend(items: seq<Item>, x: Item, s: nat, l: nat)
    ensures Queue(items + [x], s, l) == Queue(items, s, l) + (if IsAt(x, s, l) then [x] else [])
  {
    if items == [] {
      assert items + [x] == [x];
      assert [x][1..] == [];
    } else {
      QueueAppend(items[1..], x, s, l);
      assert (items + [x])[1..] == items[1..] + [x];
    }
  }

  // ---- totals ----------------------------------------------------------------------

  function SumBytes(items: seq<Item>): nat {
    if items == [] then 0 else items[0].packet.bytes + SumBytes(items[1..])
  }

  function CountMedia(items: seq<Item>, m: MediaType): nat {
    if items == [] then 0 else (if items[0].packet.media == m then 1 else 0) + CountMedia(items[1..], m)
  }

  function CountKeys(items: seq<Item>, s: nat): nat {
    if items == [] then 0
    else (if items[0].packet.ssrc == s && items[0].packet.keyFrame then 1 else 0) + CountKeys(items[1..], s)
  }

  /** The unpaused time all waiting packets have spent in the queue so far. */
  function SumAges(items: seq<Item>, live: int): int {
    if items == [] then 0 else (live - items[0].born) + SumAges(items[1..], live)
  }

  datatype Entry = Entry(id: nat, time: int)

  function Times(items: seq<Item>): seq<Entry> {
    if items == [] then [] else [Entry(items[0].id, items[0].pushed)] + Times(items[1..])
  }

  /** `std::list::erase` of the entry an iterator points to. */
  function Erase(times: seq<Entry>, id: nat): seq<Entry> {
    if times == [] then []
    else if times[0].id == id then times[1..]
    else [times[0]] + Erase(times[1..], id)
  }

  /** What removing the first packet of a FIFO does to each total. */
  lemma {:induction false} TotalsWithoutFirst(items: seq<Item>, s: nat, l: nat, live: int)
    requires Queue(items, s, l) != []
    ensures var x, rest := Queue(items, s, l)[0], WithoutFirst(items, s, l);
            && |rest| + 1 == |items|
            && SumBytes(rest) + x.packet.bytes == SumBytes(items)
            && SumAges(rest, live) + (live - x.born) == SumAges(items, live)
            && (forall m :: CountMedia(rest, m) + (if x.packet.media == m then 1 else 0) == CountMedia(items, m))
            && (forall t :: CountKeys(rest, t) + (if t == s && x.packet.keyFrame then 1 else 0) == CountKeys(items, t))
            && x.packet.ssrc == s && x.level == l
  {
    if !IsAt(items[0], s, l) {
      TotalsWithoutFirst(items[1..], s, l, live);
      assert WithoutFirst(items, s, l)[1..] == WithoutFirst(items[1..], s, l);
    }
  }

  ghost predicate Increasing(items: seq<Item>) {
    forall i, j | 0 <= i < j < |items| :: items[i].id < items[j].id
  }

  lemma {:induction false} QueueMember(items: seq<Item>, s: nat, l: nat, k: nat)
    requires k < |Queue(items, s, l)|
    ensures Queue(items, s, l)[k] in items && IsAt(Queue(items, s, l)[k], s, l)
  {
    if IsAt(items[0], s, l) {
      if k > 0 { QueueMember(items[1..], s, l, k - 1); }
    } else {
      QueueMember(items[1..], s, l, k);
    }
  }

  /** The packet's iterator erases exactly its own entry from the list of times. */
  lemma {:induction false} TimesWithoutFirst(items: seq<Item>, s: nat, l: nat)
    requires Queue(items, s, l) != [] && Increasing(items)
    ensures Times(WithoutFirst(items, s, l)) == Erase(Times(items), Queue(items, s, l)[0].id)
  {
    if !IsAt(items[0], s, l) {
      assert Increasing(items[1..]) by {
        assert forall i | 0 <= i < |items[1..]| :: items[1..][i] == items[i + 1];
      }
      TimesWithoutFirst(items[1..], s, l);
      QueueMember(items[1..], s, l, 0);
      var i :| 0 <= i < |items[1..]| && items[1..][i] == Queue(items[1..], s, l)[0];
      assert items[0].id < items[i + 1].id;
      assert Times(items)[1..] == Times(items[1..]);
      assert WithoutFirst(items, s, l)[1..] == WithoutFirst(items[1..], s, l);
    } else {
      assert Times(items)[1..] == Times(items[1..]);
    }
  }

  lemma {:induction false} TotalsAppend(items: seq<Item>, x: Item, live: int)
    ensures SumBytes(items + [x]) == SumBytes(items) + x.packet.bytes
    ensures SumAges(items + [x], live) == SumAges(items, live) + (live - x.born)
    ensures forall m :: CountMedia(items + [x], m) == CountMedia(items, m) + (if x.packet.media == m then 1 else 0)
    ensures forall t ::
              CountKeys(items + [x], t)
              == CountKeys(items, t) + (if x.packet.ssrc == t && x.packet.keyFrame then 1 else 0)
    ensures Times(items + [x]) == Times(items) + [Entry(x.id, x.pushed)]
  {
    if items == [] {
      assert items + [x] == [x];
      assert [x][1..] == [];
    } else {
      TotalsAppend(items[1..], x, live);
      assert (items + [x])[1..] == items[1..] + [x];
    }
  }

  /** Unpaused time passes for every waiting packet alike. */
  lemma {:induction false} AgesGrow(items: seq<Item>, live: int, delta: int)
    ensures SumAges(items, live + delta) == SumAges(items, live) + delta * |items|
  {
    if items != [] { AgesGrow(items[1..], live, delta); }
  }
}
