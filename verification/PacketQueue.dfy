/**
 The packet queue as it is stored: a map from SSRC to stream objects, round-robin
 tables of pointers to those objects, redundant counters and a list of enqueue times.
 The methods update it in place and are proved against the model.
 */
module PacketQueue {
  import opened Wrappers
  import opened QueueModel
  import opened QueueOps
  import opened QueueInvariant

  /** A packet as a stream stores it; `entry` is its iterator into the list of times. */
  datatype QueuedPacket = QueuedPacket(packet: Packet, enqueueTime: int, entry: nat)

  function Image(x: Item): QueuedPacket {
    QueuedPacket(x.packet, x.Enqueued(), x.id)
  }

  function Images(q: seq<Item>): seq<QueuedPacket> {
    seq(|q|, i requires 0 <= i < |q| => Image(q[i]))
  }

  lemma ImagesTail(q: seq<Item>)
    requires q != []
    ensures Images(q) != [] && Images(q)[0] == Image(q[0]) && Images(q)[1..] == Images(q[1..])
  {}

  lemma ImagesSnoc(q: seq<Item>, x: Item)
    ensures Images(q + [x]) == Images(q) + [Image(x)]
  {}

  /** One stream's FIFOs, one per level. */
  class StreamQueue {
    ghost const ssrc: nat
    const lastEnqueueTime: int
    var packets: seq<seq<QueuedPacket>>
    var keyframes: int

    constructor (ghost ssrc: nat, creationTime: int)
      ensures this.ssrc == ssrc && lastEnqueueTime == creationTime
      ensures packets == seq(LEVELS, _ => []) && keyframes == 0
    {
      this.ssrc, lastEnqueueTime := ssrc, creationTime;
      packets, keyframes := seq(LEVELS, _ => []), 0;
    }

    method EnqueuePacket(p: QueuedPacket, l: nat) returns (first: bool)
      requires l < |packets|
      modifies this
      ensures packets == old(packets)[l := old(packets)[l] + [p]]
      ensures keyframes == old(keyframes) + (if p.packet.keyFrame then 1 else 0)
      ensures first <==> old(packets)[l] == []
    {
      if p.packet.keyFrame { keyframes := keyframes + 1; }
      first := packets[l] == [];
      packets := packets[l := packets[l] + [p]];
    }

    method DequeuePacket(l: nat) returns (p: QueuedPacket)
      requires l < |packets| && packets[l] != []
      modifies this
      ensures p == old(packets)[l][0] && packets == old(packets)[l := old(packets)[l][1..]]
      ensures keyframes == old(keyframes) - (if p.packet.keyFrame then 1 else 0)
    {
      p := packets[l][0];
      packets := packets[l := packets[l][1..]];
      if p.packet.keyFrame { keyframes := keyframes - 1; }
    }

    predicate IsEmpty()
      reads this
    {
      forall l | 0 <= l < |packets| :: packets[l] == []
    }
  }

  /** A stream object holds exactly the model's FIFOs of its SSRC. */
  ghost predicate StreamOk(q: StreamQueue, s: nat, items: seq<Item>, created: int)
    reads q
  {
    && q.ssrc == s && q.lastEnqueueTime == created
    && |q.packets| == LEVELS
    && (forall l: nat | l < LEVELS :: q.packets[l] == Images(Queue(items, s, l)))
    && q.keyframes == CountKeys(items, s)
  }

  /** A table of pointers stands for a table of SSRCs of known streams. */
  ghost predicate TableOk(t: seq<StreamQueue>, m: seq<nat>, streams: map<nat, StreamQueue>) {
    && |t| == |m|
    && forall i | 0 <= i < |t| :: t[i].ssrc == m[i] && m[i] in streams && streams[m[i]] == t[i]
  }

  class PrioritizedPacketQueue {
    const splitRetransmissions: bool
    const ttl: seq<Option<int>>
    var streams: map<nat, StreamQueue>
    var tables: seq<seq<StreamQueue>>
    var top: int
    var sizePackets: int
    var sizePerMedia: map<MediaType, int>
    var sizePayload: int
    var queueTimeSum: int
    var pauseTimeSum: int
    var lastUpdate: int
    var paused: bool
    var lastCulling: int
    var enqueueTimes: seq<Entry>
    var nextEntry: nat
    ghost var model: Model

    ghost predicate StreamsOk()
      reads this, streams.Values
    {
      && streams.Keys == model.streams.Keys
      && forall s | s in streams :: StreamOk(streams[s], s, model.items, model.streams[s])
    }

    ghost predicate TablesOk()
      reads this
    {
      && |tables| == |model.tables| == LEVELS
      && forall l: nat | l < LEVELS :: TableOk(tables[l], model.tables[l], streams)
    }

    /** Sizes, sums and the list of times match the waiting packets; `extra` are entries not filled yet. */
    ghost predicate TotalsOk(extra: seq<Entry>)
      reads this
    {
      && sizePackets == |model.items|
      && sizePayload == SumBytes(model.items)
      && (forall m :: m in sizePerMedia && sizePerMedia[m] == CountMedia(model.items, m))
      && queueTimeSum == SumAges(model.items, model.live)
      && enqueueTimes == Times(model.items) + extra
    }

    ghost predicate ScalarsOk()
      reads this
    {
      && top == model.top && pauseTimeSum == model.pauseSum && lastUpdate == model.lastUpdate
      && paused == model.paused && lastCulling == model.lastCulling && nextEntry == model.next
      && splitRetransmissions == model.splitRetransmissions && ttl == model.ttl
    }

    /** The stored queue stands for the model. */
    ghost predicate Represents(extra: seq<Entry>)
      reads this, streams.Values
    {
      StreamsOk() && TablesOk() && TotalsOk(extra) && ScalarsOk()
    }

    /** The representation invariant between two calls. */
    ghost predicate Valid()
      reads this, streams.Values
    {
      Represents([]) && ModelInv(model)
    }

    constructor (creationTime: int, splitRetransmissions: bool, limits: Limits)
      ensures Valid() && model == New(creationTime, splitRetransmissions, limits) && streams == map[]
    {
      this.splitRetransmissions, this.ttl := splitRetransmissions, TtlPerLevel(limits);
      streams, tables, top := map[], seq(LEVELS, _ => []), -1;
      sizePackets, sizePayload, queueTimeSum, pauseTimeSum := 0, 0, 0, 0;
      sizePerMedia := map[Audio := 0, Video := 0, Retransmission := 0, ForwardErrorCorrection := 0, Padding := 0];
      lastUpdate, paused, lastCulling := creationTime, false, creationTime;
      enqueueTimes, nextEntry := [], 0;
      model := New(creationTime, splitRetransmissions, limits);
      new;
      hide TtlPerLevel, ModelInv;
      EmptyModelInv(model);
      NothingCounted();
      EmptyRepresents();
    }

    lemma NothingCounted()
      requires sizePerMedia
            == map[Audio := 0, Video := 0, Retransmission := 0, ForwardErrorCorrection := 0, Padding := 0]
      ensures forall m :: m in sizePerMedia && sizePerMedia[m] == 0
    {
      forall m: MediaType ensures m in sizePerMedia && sizePerMedia[m] == 0 {
        match m case Audio => case Video => case Retransmission => case ForwardErrorCorrection => case Padding =>
      }
    }

    lemma EmptyRepresents()
      requires model.items == [] && streams == map[] && model.streams == map[]
      requires tables == seq(LEVELS, _ => []) && model.tables == seq(LEVELS, _ => [])
      requires sizePackets == sizePayload == queueTimeSum == 0 && enqueueTimes == []
      requires forall m :: m in sizePerMedia && sizePerMedia[m] == 0
      requires top == model.top && pauseTimeSum == model.pauseSum && lastUpdate == model.lastUpdate
      requires paused == model.paused && lastCulling == model.lastCulling && nextEntry == model.next
      requires splitRetransmissions == model.splitRetransmissions && ttl == model.ttl && ModelInv(model)
      ensures Valid()
    {
      hide ModelInv;
    }

    /** The packet's share of every total is taken out again, and its waiting time reported. */
    method DequeuePacketInternal(p: QueuedPacket) returns (spent: int)
      requires p.packet.media in sizePerMedia
      modifies this`sizePackets, this`sizePerMedia, this`sizePayload, this`queueTimeSum, this`enqueueTimes
      ensures sizePackets == old(sizePackets) - 1
      ensures sizePerMedia == old(sizePerMedia)[p.packet.media := old(sizePerMedia)[p.packet.media] - 1]
      ensures sizePayload == old(sizePayload) - p.packet.bytes
      ensures spent == lastUpdate - p.enqueueTime - pauseTimeSum
      ensures queueTimeSum == old(queueTimeSum) - spent
      ensures enqueueTimes == Erase(old(enqueueTimes), p.entry)
    {
      sizePackets := sizePackets - 1;
      sizePerMedia := sizePerMedia[p.packet.media := sizePerMedia[p.packet.media] - 1];
      sizePayload := sizePayload - p.packet.bytes;
      spent := lastUpdate - p.enqueueTime - pauseTimeSum;
      queueTimeSum := queueTimeSum - spent;
      enqueueTimes := EraseEntry(enqueueTimes, p.entry);
    }

    /** `DequeuePacket` and `DequeuePacketInternal`: the front packet of one FIFO leaves the queue. */
    method TakeFront(q: StreamQueue, l: nat, ghost extra: seq<Entry>) returns (p: QueuedPacket, spent: int)
      requires Represents(extra) && Shape(model)
      requires q.ssrc in streams && streams[q.ssrc] == q && l < LEVELS && |q.packets| == LEVELS && q.packets[l] != []
      modifies this`sizePackets, this`sizePerMedia, this`sizePayload, this`queueTimeSum, this`enqueueTimes
      modifies this`model, q
      ensures Represents(extra)
      ensures model == old(model).(items := WithoutFirst(old(model).items, q.ssrc, l))
      ensures Queue(old(model).items, q.ssrc, l) != []
      ensures var x := Queue(old(model).items, q.ssrc, l)[0];
              p == Image(x) && spent == model.live - x.born
    {
      hide Images, Shape, StreamOk, TableOk, Queue, WithoutFirst;
      hide CountKeys, Erase, Times, CountMedia, SumBytes, SumAges;
      ghost var items, s := model.items, q.ssrc;
      p := Detach(q, l);
      ghost var x := Queue(items, s, l)[0];
      TotalsWithoutFirst(items, s, l, model.live);
      AgeOf(model, x, l);
      EraseOwn(model, s, l, extra);
      spent := DequeuePacketInternal(p);
      model := model.(items := WithoutFirst(items, s, l));
    }

    /** The stream object gives up its front packet; the stream objects then match the shorter list. */
    method Detach(q: StreamQueue, l: nat) returns (p: QueuedPacket)
      requires StreamsOk()
      requires q.ssrc in streams && streams[q.ssrc] == q && l < LEVELS && |q.packets| == LEVELS && q.packets[l] != []
      modifies q
      ensures Queue(model.items, q.ssrc, l) != [] && p == Image(Queue(model.items, q.ssrc, l)[0])
      ensures forall t | t in streams ::
                StreamOk(streams[t], t, WithoutFirst(model.items, q.ssrc, l), model.streams[t])
    {
      hide Images, Queue, WithoutFirst, CountKeys;
      ghost var items, s := model.items, q.ssrc;
      assert StreamOk(q, s, items, model.streams[s]);
      FrontOf(items, s, l);
      label before:
      p := q.DequeuePacket(l);
      forall t | t in streams ensures StreamOk(streams[t], t, WithoutFirst(items, s, l), model.streams[t]) {
        assert old@before(StreamOk(streams[t], t, items, model.streams[t]));
        StreamAfter(items, s, l, t);
      }
    }

    /** Drops the packets at the front of one FIFO that are older than `limit`. */
    method PurgeStream(q: StreamQueue, l: nat, now: int, limit: int, ghost extra: seq<Entry>)
      requires Represents(extra) && Shape(model)
      requires q.ssrc in streams && streams[q.ssrc] == q && l < LEVELS && |q.packets| == LEVELS
      modifies this`sizePackets, this`sizePerMedia, this`sizePayload, this`queueTimeSum, this`enqueueTimes
      modifies this`model, q
      ensures Represents(extra) && |q.packets| == LEVELS
      ensures model == old(model).(items := PurgedItems(old(model).items, q.ssrc, l, now, limit))
      ensures Shape(model)
    {
      hide Represents, Shape, PurgedItems, WithoutFirst, Queue, Images;
      FrontStored(q, l, extra);
      while q.packets[l] != [] && now - q.packets[l][0].enqueueTime > limit
        invariant Represents(extra) && Shape(model) && |q.packets| == LEVELS
        invariant q.packets[l] == Images(Queue(model.items, q.ssrc, l))
        invariant model == old(model).(items := model.items)
        invariant PurgedItems(model.items, q.ssrc, l, now, limit)
               == PurgedItems(old(model).items, q.ssrc, l, now, limit)
        decreases |model.items|
      {
        FrontOf(model.items, q.ssrc, l);
        PurgedMore(model.items, q.ssrc, l, now, limit);
        TakenShape(model, q.ssrc, l);
        var _, _ := TakeFront(q, l, extra);
        FrontStored(q, l, extra);
      }
      PurgedDone(model.items, q.ssrc, l, now, limit);
    }

    lemma FrontStored(q: StreamQueue, l: nat, extra: seq<Entry>)
      requires Represents(extra) && q.ssrc in streams && streams[q.ssrc] == q && l < LEVELS
      ensures |q.packets| == LEVELS && q.packets[l] == Images(Queue(model.items, q.ssrc, l))
    {}

    /** Purges every stream of a level and takes emptied streams out of its table. */
    method PurgeOldPackets(l: nat, now: int, ghost extra: seq<Entry>)
      requires Represents(extra) && Shape(model) && l < LEVELS
      modifies this`tables, this`sizePackets, this`sizePerMedia, this`sizePayload, this`queueTimeSum
      modifies this`enqueueTimes, this`model, streams.Values
      ensures Represents(extra) && Shape(model) && model == Purge(old(model), l, now)
    {
      hide Represents, Shape, PurgeFrom, Queue, Images, PurgedItems, DropAt;
      StoredShape(extra);
      ShapeSizes(model);
      if ttl[l].None? { return; }
      var limit := ttl[l].value;
      var i := 0;
      while i < |tables[l]|
        invariant Represents(extra) && Shape(model) && |tables| == |model.tables| == LEVELS
        invariant PurgeFrom(model, l, now, limit, i) == PurgeFrom(old(model), l, now, limit, 0)
        decreases |tables[l]| - i
      {
        PointerKnown(l, i, extra);
        var q := tables[l][i];
        PurgeUnfold(model, l, now, limit, i);
        PurgeStream(q, l, now, limit, extra);
        FrontStored(q, l, extra);
        EmptyImages(Queue(model.items, q.ssrc, l));
        if q.packets[l] == [] {
          DropShape(model, l, i);
          DropPointer(l, i, extra);
        } else {
          i := i + 1;
        }
        StoredShape(extra);
      }
      StoredShape(extra);
      PurgeEnd(model, l, now, limit, i);
    }

    /** The table entry points to a known stream object with that SSRC. */
    lemma PointerKnown(l: nat, i: nat, extra: seq<Entry>)
      requires Represents(extra) && l < LEVELS && i < |tables[l]|
      ensures |model.tables[l]| == |tables[l]| && tables[l][i].ssrc == model.tables[l][i]
      ensures tables[l][i].ssrc in streams && streams[tables[l][i].ssrc] == tables[l][i]
      ensures |tables[l][i].packets| == LEVELS
    {
      assert TableOk(tables[l], model.tables[l], streams);
      assert StreamOk(tables[l][i], tables[l][i].ssrc, model.items, model.streams[tables[l][i].ssrc]);
    }

    lemma StoredShape(extra: seq<Entry>)
      requires Represents(extra)
      ensures |tables| == |model.tables| == LEVELS && ttl == model.ttl
      ensures forall l: nat | l < LEVELS :: |tables[l]| == |model.tables[l]|
    {
      forall l: nat | l < LEVELS ensures |tables[l]| == |model.tables[l]| {
        assert TableOk(tables[l], model.tables[l], streams);
      }
    }

    method DropPointer(l: nat, i: nat, ghost extra: seq<Entry>)
      requires Represents(extra) && l < LEVELS && |tables| == |model.tables| == LEVELS
      requires i < |tables[l]| == |model.tables[l]|
      modifies this`tables, this`model
      ensures Represents(extra)
      ensures tables == old(tables)[l := old(tables)[l][..i] + old(tables)[l][i + 1..]]
      ensures model == old(model).(tables := old(model).tables[l := DropAt(old(model).tables[l], i)])
    {
      hide StreamOk, CountMedia, SumBytes, SumAges, Times;
      assert TableOk(tables[l], model.tables[l], streams);
      tables := tables[l := tables[l][..i] + tables[l][i + 1..]];
      model := model.(tables := model.tables[l := DropAt(model.tables[l], i)]);
      forall m: nat | m < LEVELS ensures TableOk(tables[m], model.tables[m], streams) {
        assert old(TableOk(tables[m], model.tables[m], streams));
      }
    }

    /** Finds the best level with packets, purging the levels on the way. */
    method MaybeUpdateTopPrioLevel()
      requires Represents([]) && Shape(model) && -1 <= top < LEVELS
      modifies this, streams.Values
      ensures streams == old(streams)
      ensures Represents([]) && Shape(model) && model == MaybeUpdateTop(old(model))
    {
      hide Represents, Shape, Purge, FindTop;
      StoredShape([]);
      ShapeSizes(model);
      SameTop([]);
      if top != -1 && tables[top] != [] { return; }
      ghost var start := model;
      var i := 0;
      while i < LEVELS
        invariant i <= LEVELS && Represents([]) && Shape(model) && streams == old(streams)
        invariant |model.tables| == |model.ttl| == LEVELS
        invariant FindTop(model, i) == FindTop(start, 0)
        decreases LEVELS - i
      {
        FindTopUnfold(model, i);
        SameTop([]);
        PurgeOldPackets(i, lastUpdate, []);
        StoredShape([]);
        ShapeSizes(model);
        if tables[i] != [] {
          MoveTop(i);
          break;
        }
        i := i + 1;
      }
      if i == LEVELS { FindTopEnd(model); }
      SizeKnown([]);
      if sizePackets == 0 { MoveTop(-1); }
    }

    lemma SameTop(extra: seq<Entry>)
      requires Represents(extra)
      ensures top == model.top && lastUpdate == model.lastUpdate && ttl == model.ttl
      ensures splitRetransmissions == model.splitRetransmissions && nextEntry == model.next
      ensures lastCulling == model.lastCulling
    {}

    lemma SizeKnown(extra: seq<Entry>)
      requires Represents(extra)
      ensures sizePackets == |model.items|
    {}

    method MoveTop(t: int)
      requires Represents([])
      modifies this`top, this`model
      ensures Represents([]) && top == t && model == old(model).(top := t)
      ensures Shape(old(model)) ==> Shape(model)
    {
      hide StreamOk, TableOk, CountMedia, SumBytes, SumAges, Times;
      TopShape(model, t);
      top := t;
      model := model.(top := t);
    }

    /** The head of a table moves to its end, or leaves the table. */
    method RotateTable(l: nat, again: bool)
      requires Represents([]) && l < LEVELS && |tables| == |model.tables| == LEVELS
      requires tables[l] != [] && model.tables[l] != []
      modifies this`tables, this`model
      ensures Represents([])
      ensures model == old(model).(tables := old(model).tables[l := Rotated(old(model).tables[l], again)])
    {
      hide StreamOk, CountMedia, SumBytes, SumAges, Times, TableOk, Rotated;
      assert TableOk(tables[l], model.tables[l], streams);
      var q := tables[l][0];
      var t := tables[l][1..];
      if again { t := t + [q]; }
      RotatedTable(tables[l], model.tables[l], streams, again);
      tables := tables[l := t];
      model := model.(tables := model.tables[l := Rotated(model.tables[l], again)]);
      forall m: nat | m < LEVELS ensures TableOk(tables[m], model.tables[m], streams) {
        if m != l { assert old(TableOk(tables[m], model.tables[m], streams)); }
      }
    }

    /** Returns the next packet and the unpaused time it spent in the queue. */
    method Pop() returns (r: Option<Packet>, spent: int)
      requires Valid()
      modifies this, streams.Values
      ensures Valid() && streams == old(streams)
      ensures model == QueueOps.Pop(old(model))
      ensures r == if Popped(old(model)).Some? then Some(Popped(old(model)).value.packet) else None
      ensures Popped(old(model)).Some? ==> spent == old(model).live - Popped(old(model)).value.born
      ensures r == None <==> old(model).items == []
    {
      hide Represents, ModelInv, MaybeUpdateTop;
      ghost var start := model;
      PopInv(start);
      PopReady(start);
      StoredShape([]);
      SameTop([]);
      SizeKnown([]);
      if sizePackets == 0 { return None, 0; }
      var l := top;
      PointerKnown(l, 0, []);
      var q := tables[l][0];
      FrontStored(q, l, []);
      EmptyImages(Queue(start.items, q.ssrc, l));
      TakenShape(start, q.ssrc, l);
      var p;
      p, spent := TakeFront(q, l, []);
      FrontStored(q, l, []);
      EmptyImages(Queue(model.items, q.ssrc, l));
      StoredShape([]);
      var again := q.packets[l] != [];
      RotatedShape(model, l, again);
      RotateTable(l, again);
      if !again {
        MaybeUpdateTopPrioLevel();
      }
      r := Some(p.packet);
    }

    /** A stream object for a new SSRC, and an entry in the list of times for the new packet. */
    method Admit(s: nat, now: int)
      requires Valid()
      modifies this`streams, this`enqueueTimes, this`nextEntry, this`model
      ensures fresh(streams.Values - old(streams.Values))
      ensures model == AddStream(old(model), s, now).(next := old(model).next + 1)
      ensures Represents([Entry(old(model).next, now)]) && ModelInv(model) && s in streams
    {
      hide Represents, ModelInv;
      AddStreamInv(model, s, now);
      KnownKeys([]);
      if s !in streams {
        UnknownStream(model, s);
        AddObject(s, now);
        KnownKeys([]);
      }
      AddEntry(now);
    }

    lemma KnownKeys(extra: seq<Entry>)
      requires Represents(extra)
      ensures streams.Keys == model.streams.Keys
    {}

    method AddEntry(now: int)
      requires Represents([])
      modifies this`enqueueTimes, this`nextEntry, this`model
      ensures model == old(model).(next := old(model).next + 1)
      ensures Represents([Entry(old(model).next, now)])
    {
      hide StreamOk, TableOk, CountMedia, SumBytes, SumAges, Times;
      enqueueTimes := enqueueTimes + [Entry(nextEntry, now)];
      nextEntry := nextEntry + 1;
      model := model.(next := model.next + 1);
    }

    method AddObject(s: nat, now: int)
      requires Represents([]) && s !in model.streams
      requires (forall l: nat :: Queue(model.items, s, l) == []) && CountKeys(model.items, s) == 0
      modifies this`streams, this`model
      ensures fresh(streams.Values - old(streams.Values))
      ensures Represents([]) && model == AddStream(old(model), s, now)
    {
      hide StreamOk, CountMedia, SumBytes, SumAges, Times, Queue, CountKeys;
      var q := new StreamQueue(s, now);
      EmptyStreamOk(q, s, model.items, now);
      streams := streams[s := q];
      model := AddStream(model, s, now);
      forall t | t in streams ensures StreamOk(streams[t], t, model.items, model.streams[t]) {
        assert t != s ==> old(StreamOk(streams[t], t, model.items, model.streams[t]));
      }
      forall l: nat | l < LEVELS ensures TableOk(tables[l], model.tables[l], streams) {
        assert old(TableOk(tables[l], model.tables[l], streams));
      }
    }

    /** The stream object takes a new packet; the stream objects then match the longer list. */
    method Attach(q: StreamQueue, l: nat, p: QueuedPacket, ghost x: Item) returns (first: bool)
      requires StreamsOk()
      requires q.ssrc in streams && streams[q.ssrc] == q && l < LEVELS && |q.packets| == LEVELS
      requires p == Image(x) && IsAt(x, q.ssrc, l)
      modifies q
      ensures first <==> Queue(model.items, q.ssrc, l) == []
      ensures forall t | t in streams :: StreamOk(streams[t], t, model.items + [x], model.streams[t])
    {
      hide Images, Queue, CountKeys;
      ghost var items, s := model.items, q.ssrc;
      assert StreamOk(q, s, items, model.streams[s]);
      EmptyImages(Queue(items, s, l));
      label before:
      first := q.EnqueuePacket(p, l);
      forall t | t in streams ensures StreamOk(streams[t], t, items + [x], model.streams[t]) {
        assert old@before(StreamOk(streams[t], t, items, model.streams[t]));
        StreamWith(items, x, t);
      }
    }

    method CountPacket(p: Packet)
      requires p.media in sizePerMedia
      modifies this`sizePackets, this`sizePerMedia, this`sizePayload
      ensures sizePackets == old(sizePackets) + 1
      ensures sizePerMedia == old(sizePerMedia)[p.media := old(sizePerMedia)[p.media] + 1]
      ensures sizePayload == old(sizePayload) + p.bytes
    {
      sizePackets := sizePackets + 1;
      sizePerMedia := sizePerMedia[p.media := sizePerMedia[p.media] + 1];
      sizePayload := sizePayload + p.bytes;
    }

    /** The packet joins its FIFO and is counted. */
    method AppendItem(l: nat, p: Packet, now: int, id: nat) returns (first: bool)
      requires Represents([Entry(id, now)]) && p.ssrc in streams && l < LEVELS
      modifies this`sizePackets, this`sizePerMedia, this`sizePayload, this`model, streams.Values
      ensures first <==> Queue(old(model).items, p.ssrc, l) == []
      ensures var x := Item(l, p, now, old(model).pauseSum, old(model).live, id);
              model == old(model).(items := old(model).items + [x])
      ensures Represents([])
    {
      hide StreamOk, TableOk, Queue, Images, CountMedia, SumBytes, SumAges, Times;
      ghost var x := Item(l, p, now, model.pauseSum, model.live, id);
      PointerOf(p.ssrc);
      first := Attach(streams[p.ssrc], l, QueuedPacket(p, now - pauseTimeSum, id), x);
      TotalsAppend(model.items, x, model.live);
      CountPacket(p);
      model := model.(items := model.items + [x]);
    }

    method JoinTable(l: nat, s: nat)
      requires Represents([]) && s in streams && l < LEVELS && |tables| == |model.tables| == LEVELS
      modifies this`tables, this`model
      ensures Represents([])
      ensures model == old(model).(tables := old(model).tables[l := old(model).tables[l] + [s]])
    {
      hide StreamOk, CountMedia, SumBytes, SumAges, Times;
      PointerOf(s);
      tables := tables[l := tables[l] + [streams[s]]];
      model := model.(tables := model.tables[l := model.tables[l] + [s]]);
      forall m: nat | m < LEVELS ensures TableOk(tables[m], model.tables[m], streams) {
        assert old(TableOk(tables[m], model.tables[m], streams));
      }
    }

    /** The packet joins its FIFO, its stream the table if needed, and the top level follows. */
    method AppendPacket(now: int, p: Packet, id: nat)
      requires Represents([Entry(id, now)]) && p.ssrc in streams && |model.tables| == LEVELS
      modifies this`sizePackets, this`sizePerMedia, this`sizePayload, this`tables, this`top, this`model, streams.Values
      ensures Represents([]) && model == Append(old(model), now, p, id)
    {
      hide Represents, Queue;
      SameTop([Entry(id, now)]);
      var l := Priority(p.media, if splitRetransmissions then p.original else None);
      var first := AppendItem(l, p, now, id);
      if first {
        StoredShape([]);
        JoinTable(l, p.ssrc);
      }
      if top < 0 || l < top {
        MoveTop(l);
      }
    }

    lemma PointerOf(s: nat)
      requires StreamsOk() && s in streams
      ensures streams[s].ssrc == s && |streams[s].packets| == LEVELS
    {
      assert StreamOk(streams[s], s, model.items, model.streams[s]);
    }

    /** Forgets the streams that are empty and were created too long ago. */
    method CullStreams(now: int)
      requires Valid()
      modifies this`streams, this`lastCulling, this`model
      ensures Valid() && model == Cull(old(model), now)
      ensures streams.Values <= old(streams.Values)
    {
      hide ModelInv, Idle, StreamOk, TableOk, CountMedia, SumBytes, SumAges, Times;
      CullInv(model, now);
      if now - lastCulling > TIMEOUT {
        var kept := LiveStreams(now);
        CullKeeps(kept, now);
        ghost var culled := Cull(model, now);
        streams := kept;
        lastCulling := now;
        model := culled;
      }
    }

    /** The streams that stay; the others are erased one by one. */
    method LiveStreams(now: int) returns (kept: map<nat, StreamQueue>)
      requires StreamsOk()
      ensures kept.Keys <= streams.Keys && forall s | s in kept :: kept[s] == streams[s]
      ensures forall s | s in streams :: s in kept <==> !Idle(model, s, now)
    {
      kept := streams;
      var todo := streams.Keys;
      while todo != {}
        invariant todo <= streams.Keys && kept.Keys <= streams.Keys
        invariant forall s | s in kept :: kept[s] == streams[s]
        invariant forall s | s in streams :: s in kept <==> s in todo || !Idle(model, s, now)
        decreases todo
      {
        var s :| s in todo;
        todo := todo - {s};
        IdleStream(s, now);
        if streams[s].IsEmpty() && streams[s].lastEnqueueTime + TIMEOUT < now {
          kept := kept - {s};
        }
      }
    }

    lemma IdleStream(s: nat, now: int)
      requires StreamsOk() && s in streams
      ensures Idle(model, s, now) <==> streams[s].IsEmpty() && streams[s].lastEnqueueTime + TIMEOUT < now
    {
      var q := streams[s];
      assert StreamOk(q, s, model.items, model.streams[s]);
      forall l: nat | l < LEVELS ensures q.packets[l] == [] <==> Queue(model.items, s, l) == [] {
        EmptyImages(Queue(model.items, s, l));
      }
    }

    /** No table points to a stream that is forgotten. */
    lemma CullKeeps(kept: map<nat, StreamQueue>, now: int)
      requires Valid()
      requires kept.Keys <= streams.Keys && forall s | s in kept :: kept[s] == streams[s]
      requires forall s | s in streams :: s in kept <==> !Idle(model, s, now)
      ensures forall l: nat | l < LEVELS :: TableOk(tables[l], model.tables[l], kept)
    {
      forall l: nat | l < LEVELS ensures TableOk(tables[l], model.tables[l], kept) {
        assert TableOk(tables[l], model.tables[l], streams);
        assert Linked(model, l);
        forall i | 0 <= i < |tables[l]| ensures model.tables[l][i] in kept {
          assert model.tables[l][i] in model.tables[l];
        }
      }
    }

    /** Adds a packet: its level is purged first, then time is brought up to date. */
    method Push(now: int, p: Packet)
      requires Valid()
      modifies this, streams.Values
      ensures fresh(streams.Values - old(streams.Values))
      ensures Valid() && model == QueueOps.Push(old(model), now, p)
    {
      hide Represents, ModelInv, Purge, UpdateTime, Append, Cull, Shape;
      ghost var start := model;
      PushInv(start, now, p);
      SameTop([]);
      var entry := nextEntry;
      ghost var extra := [Entry(entry, now)];
      Admit(p.ssrc, now);
      ModelShape(model);
      var l := Priority(p.media, if splitRetransmissions then p.original else None);
      PurgeOldPackets(l, now, extra);
      Advance(now, extra);
      StoredShape(extra);
      AppendPacket(now, p, entry);
      PushedInv(start, now, p);
      CullStreams(now);
    }

    /** Takes every packet of one FIFO out of the queue. */
    method DrainLevel(q: StreamQueue, l: nat)
      requires Represents([]) && Shape(model)
      requires q.ssrc in streams && streams[q.ssrc] == q && l < LEVELS && |q.packets| == LEVELS
      modifies this`sizePackets, this`sizePerMedia, this`sizePayload, this`queueTimeSum, this`enqueueTimes
      modifies this`model, q
      ensures Represents([]) && Shape(model) && |q.packets| == LEVELS
      ensures model == old(model).(items := WithoutLevel(old(model).items, q.ssrc, l))
    {
      hide Represents, Shape, WithoutLevel, WithoutFirst, Queue, Images;
      FrontStored(q, l, []);
      while q.packets[l] != []
        invariant Represents([]) && Shape(model) && |q.packets| == LEVELS
        invariant q.packets[l] == Images(Queue(model.items, q.ssrc, l))
        invariant model == old(model).(items := model.items)
        invariant WithoutLevel(model.items, q.ssrc, l) == WithoutLevel(old(model).items, q.ssrc, l)
        decreases |model.items|
      {
        FrontOf(model.items, q.ssrc, l);
        WithoutLevelFirst(model.items, q.ssrc, l);
        TakenShape(model, q.ssrc, l);
        var _, _ := TakeFront(q, l, []);
        FrontStored(q, l, []);
      }
      EmptyImages(Queue(model.items, q.ssrc, l));
      WithoutLevelDone(model.items, q.ssrc, l);
    }

    /** Takes one stream out of a level's table. */
    method Deregister(q: StreamQueue, l: nat)
      requires Represents([]) && Shape(model) && l < LEVELS && |tables| == |model.tables| == LEVELS
      requires q.ssrc in streams && streams[q.ssrc] == q && q.ssrc in model.tables[l]
      modifies this`tables, this`model
      ensures Represents([]) && Shape(model)
      ensures model == old(model).(tables := old(model).tables[l := Without(old(model).tables[l], q.ssrc)])
    {
      WithoutShape(model, l, q.ssrc);
      hide Shape, StreamOk, CountMedia, SumBytes, SumAges, Times;
      assert TableOk(tables[l], model.tables[l], streams);
      var kept := [];
      if |tables[l]| == 1 {
        WithoutOnly(model.tables[l], q.ssrc);
      } else {
        kept := OtherStreams(tables[l], q, model.tables[l]);
      }
      tables := tables[l := kept];
      model := model.(tables := model.tables[l := Without(model.tables[l], q.ssrc)]);
      forall m: nat | m < LEVELS ensures TableOk(tables[m], model.tables[m], streams) {
        assert old(TableOk(tables[m], model.tables[m], streams));
      }
    }

    method OtherStreams(t: seq<StreamQueue>, q: StreamQueue, ghost m: seq<nat>) returns (kept: seq<StreamQueue>)
      requires TableOk(t, m, streams) && q.ssrc in streams && streams[q.ssrc] == q
      ensures TableOk(kept, Without(m, q.ssrc), streams)
    {
      kept := [];
      for i := 0 to |t|
        invariant TableOk(kept, Without(m[..i], q.ssrc), streams)
      {
        WithoutSnoc(m, i, q.ssrc);
        if t[i] != q {
          kept := kept + [t[i]];
        }
      }
      assert m[..|m|] == m;
    }

    /** Removes every packet of a stream; the stream object itself stays. */
    method RemovePacketsForSsrc(s: nat)
      requires Valid()
      modifies this, streams.Values
      ensures streams == old(streams)
      ensures Valid() && model == RemoveSsrc(old(model), s)
    {
      hide Represents, ModelInv, MaybeUpdateTop, Removed, RemoveSsrc, Shape;
      ghost var start := model;
      RemoveInv(start, s);
      ModelShape(start);
      KnownKeys([]);
      if s in streams {
        RemoveLevels(s);
      } else {
        RemoveAbsent(start, s);
      }
      RemovedAll(start, s);
      SameTop([]);
      MaybeUpdateTopPrioLevel();
    }

    method RemoveLevels(s: nat)
      requires Valid() && s in streams
      modifies this`tables, this`sizePackets, this`sizePerMedia, this`sizePayload, this`queueTimeSum
      modifies this`enqueueTimes, this`model, streams.Values
      ensures Represents([]) && Shape(model) && model == Removed(old(model), s, LEVELS)
    {
      hide Represents, ModelInv, Without, WithoutLevel, Shape, Queue, Images, Removed;
      ghost var start := model;
      ModelShape(start);
      StreamKnown(s);
      var q := streams[s];
      RemovedNone(start, s);
      for l := 0 to LEVELS
        invariant Represents([]) && Shape(model) && model == Removed(start, s, l)
        invariant |model.tables| == LEVELS && |q.packets| == LEVELS
      {
        FrontStored(q, l, []);
        EmptyImages(Queue(model.items, s, l));
        RemovedStep(start, s, l);
        if q.packets[l] != [] {
          DrainLevel(q, l);
          StoredShape([]);
          Deregister(q, l);
        }
      }
    }

    lemma StreamKnown(s: nat)
      requires Represents([]) && s in streams
      ensures streams[s].ssrc == s && |streams[s].packets| == LEVELS
    {
      PointerOf(s);
    }

    method UpdateAverageQueueTime(now: int)
      requires Valid()
      modifies this`queueTimeSum, this`pauseTimeSum, this`lastUpdate, this`model
      ensures Valid() && model == UpdateTime(old(model), now)
    {
      Advance(now, []);
      UpdateTimeInv(old(model), now);
    }

    method Advance(now: int, ghost extra: seq<Entry>)
      requires Represents(extra)
      modifies this`queueTimeSum, this`pauseTimeSum, this`lastUpdate, this`model
      ensures Represents(extra) && model == UpdateTime(old(model), now)
    {
      AgesGrow(model.items, model.live, now - lastUpdate);
      model := UpdateTime(model, now);
      if now == lastUpdate { return; }
      var delta := now - lastUpdate;
      if paused {
        pauseTimeSum := pauseTimeSum + delta;
      } else {
        queueTimeSum := queueTimeSum + delta * sizePackets;
      }
      lastUpdate := now;
    }

    method SetPauseState(pause: bool, now: int)
      requires Valid()
      modifies this`queueTimeSum, this`pauseTimeSum, this`lastUpdate, this`paused, this`model
      ensures Valid() && model == UpdateTime(old(model), now).(paused := pause)
    {
      UpdateAverageQueueTime(now);
      PausedInv(model, pause);
      paused := pause;
      model := model.(paused := pause);
    }

    /** The mean unpaused waiting time of the packets in the queue, rounded towards zero. */
    method AverageQueueTime() returns (r: int)
      requires Valid()
      ensures model.items == [] ==> r == 0
      ensures model.items != [] ==>
                var sum, n := SumAges(model.items, model.live), |model.items|;
                if sum >= 0 then r * n <= sum < (r + 1) * n else (r - 1) * n < sum <= r * n
    {
      hide ModelInv, StreamsOk, TablesOk, ScalarsOk, SumAges, SumBytes, CountMedia, Times;
      if sizePackets == 0 { return 0; }
      r := if queueTimeSum >= 0 then queueTimeSum / sizePackets else -(-queueTimeSum / sizePackets);
      Quotient(queueTimeSum, sizePackets, r);
    }

    /** When the packet that has waited longest was pushed. */
    method OldestEnqueueTime() returns (r: Option<int>)
      requires Valid()
      ensures r == if model.items == [] then None else Some(model.items[0].pushed)
    {
      hide ModelInv, StreamsOk, TablesOk, ScalarsOk, SumAges, SumBytes, CountMedia;
      r := if enqueueTimes == [] then None else Some(enqueueTimes[0].time);
    }
  }

  lemma Quotient(sum: int, n: int, r: int)
    requires n > 0 && r == if sum >= 0 then sum / n else -(-sum / n)
    ensures if sum >= 0 then r * n <= sum < (r + 1) * n else (r - 1) * n < sum <= r * n
  {
    if sum >= 0 {
      assert sum == (sum / n) * n + sum % n;
    } else {
      assert -sum == (-sum / n) * n + -sum % n;
    }
  }

  lemma RotatedTable(t: seq<StreamQueue>, m: seq<nat>, streams: map<nat, StreamQueue>, again: bool)
    requires TableOk(t, m, streams) && t != [] && m != []
    ensures TableOk(t[1..] + (if again then [t[0]] else []), Rotated(m, again), streams)
    ensures t[1..] + [] == t[1..]
  {}

  lemma EmptyModelInv(a: Model)
    requires a.items == [] && a.tables == seq(LEVELS, _ => []) && |a.ttl| == LEVELS && a.top == -1
    ensures ModelInv(a)
  {}

  lemma PausedInv(a: Model, pause: bool)
    requires ModelInv(a)
    ensures ModelInv(a.(paused := pause))
  {
    var b := a.(paused := pause);
    assert forall x | x in b.items :: ItemOk(a, x);
    forall l: nat | l < |b.tables| ensures Linked(b, l) { assert Linked(a, l); }
  }

  method EraseEntry(times: seq<Entry>, id: nat) returns (r: seq<Entry>)
    ensures r == Erase(times, id)
  {
    var i := 0;
    while i < |times| && times[i].id != id
      invariant i <= |times|
      invariant forall j | 0 <= j < i :: times[j].id != id
    {
      i := i + 1;
    }
    EraseAt(times, id, i);
    r := if i < |times| then times[..i] + times[i + 1..] else times;
  }

  lemma {:induction false} EraseAt(times: seq<Entry>, id: nat, i: nat)
    requires i <= |times| && forall j | 0 <= j < i :: times[j].id != id
    requires i < |times| ==> times[i].id == id
    ensures Erase(times, id) == if i < |times| then times[..i] + times[i + 1..] else times
  {
    if times != [] && i > 0 {
      EraseAt(times[1..], id, i - 1);
      assert i < |times| ==> times[1..][..i - 1] == times[1..i] && times[1..][i..] == times[i + 1..];
      assert i < |times| ==> [times[0]] + times[1..i] == times[..i];
      assert [times[0]] + times[1..] == times;
    }
  }

  lemma FrontOf(items: seq<Item>, s: nat, l: nat)
    requires Images(Queue(items, s, l)) != []
    ensures Queue(items, s, l) != [] && Images(Queue(items, s, l))[0] == Image(Queue(items, s, l)[0])
  {}

  lemma AgeOf(a: Model, x: Item, l: nat)
    requires Shape(a) && Queue(a.items, x.packet.ssrc, l) != [] && x == Queue(a.items, x.packet.ssrc, l)[0]
    ensures a.lastUpdate - x.Enqueued() - a.pauseSum == a.live - x.born
  {
    QueueMember(a.items, x.packet.ssrc, l, 0);
    assert ItemOk(a, x);
  }

  lemma EraseOwn(a: Model, s: nat, l: nat, extra: seq<Entry>)
    requires Shape(a) && Queue(a.items, s, l) != []
    ensures Erase(Times(a.items) + extra, Queue(a.items, s, l)[0].id) == Times(WithoutFirst(a.items, s, l)) + extra
  {
    var items := a.items;
    var x := Queue(items, s, l)[0];
    TimesWithoutFirst(items, s, l);
    QueueMember(items, s, l, 0);
    TimesMember(items, x);
    EraseAppend(Times(items), extra, x.id);
  }

  lemma {:induction false} TimesMember(items: seq<Item>, x: Item)
    requires x in items
    ensures exists i: nat :: i < |Times(items)| && Times(items)[i].id == x.id
  {
    if items[0] == x {
      assert Times(items)[0 as nat].id == x.id;
    } else {
      TimesMember(items[1..], x);
      var i: nat :| i < |Times(items[1..])| && Times(items[1..])[i].id == x.id;
      assert Times(items)[i + 1].id == x.id;
    }
  }

  lemma {:induction false} EraseAppend(times: seq<Entry>, extra: seq<Entry>, id: nat)
    requires exists i: nat :: i < |times| && times[i].id == id
    ensures Erase(times + extra, id) == Erase(times, id) + extra
  {
    var i: nat :| i < |times| && times[i].id == id;
    if times[0].id == id {
      assert (times + extra)[1..] == times[1..] + extra;
    } else {
      assert times[1..][i - 1].id == id;
      EraseAppend(times[1..], extra, id);
      assert (times + extra)[1..] == times[1..] + extra;
    }
  }

  /** What taking the front packet of `s` at `l` does to the FIFOs and key frames of stream `t`. */
  lemma StreamAfter(items: seq<Item>, s: nat, l: nat, t: nat)
    requires Queue(items, s, l) != []
    ensures forall m: nat :: Images(Queue(WithoutFirst(items, s, l), t, m))
              == if t == s && m == l then Images(Queue(items, s, l))[1..] else Images(Queue(items, t, m))
    ensures CountKeys(WithoutFirst(items, s, l), t)
         == CountKeys(items, t) - (if t == s && Queue(items, s, l)[0].packet.keyFrame then 1 else 0)
  {
    TotalsWithoutFirst(items, s, l, 0);
    ImagesTail(Queue(items, s, l));
    forall m: nat ensures Queue(WithoutFirst(items, s, l), t, m)
              == if t == s && m == l then Queue(items, s, l)[1..] else Queue(items, t, m)
    {
      QueueWithoutFirst(items, s, l, t, m);
    }
  }

  lemma TakenShape(a: Model, s: nat, l: nat)
    requires Shape(a) && Queue(a.items, s, l) != []
    ensures Shape(a.(items := WithoutFirst(a.items, s, l))) && |WithoutFirst(a.items, s, l)| < |a.items|
  {
    TotalsWithoutFirst(a.items, s, l, 0);
    WithoutFirstShrunk(a.items, s, l);
    assert forall x | x in WithoutFirst(a.items, s, l) :: ItemOk(a, x);
  }

  lemma PurgedMore(items: seq<Item>, s: nat, l: nat, now: int, limit: int)
    requires Queue(items, s, l) != [] && Images(Queue(items, s, l)) != []
    requires now - Images(Queue(items, s, l))[0].enqueueTime > limit
    ensures PurgedItems(items, s, l, now, limit) == PurgedItems(WithoutFirst(items, s, l), s, l, now, limit)
  {}

  lemma PurgedDone(items: seq<Item>, s: nat, l: nat, now: int, limit: int)
    requires var q := Images(Queue(items, s, l)); q == [] || now - q[0].enqueueTime <= limit
    ensures PurgedItems(items, s, l, now, limit) == items
  {
    assert Queue(items, s, l) != [] ==> Images(Queue(items, s, l)) != [];
  }

  lemma EmptyImages(q: seq<Item>)
    ensures Images(q) == [] <==> q == []
  {}

  lemma PurgeUnfold(a: Model, l: nat, now: int, limit: int, i: nat)
    requires l < |a.tables| && i < |a.tables[l]|
    ensures var b := a.(items := PurgedItems(a.items, a.tables[l][i], l, now, limit));
            PurgeFrom(a, l, now, limit, i)
            == if Queue(b.items, a.tables[l][i], l) == []
               then PurgeFrom(b.(tables := b.tables[l := DropAt(b.tables[l], i)]), l, now, limit, i)
               else PurgeFrom(b, l, now, limit, i + 1)
  {}

  lemma PurgeEnd(a: Model, l: nat, now: int, limit: int, i: nat)
    requires l < |a.tables| && i >= |a.tables[l]|
    ensures PurgeFrom(a, l, now, limit, i) == a
  {}

  lemma DropShape(a: Model, l: nat, i: nat)
    requires Shape(a) && l < LEVELS && i < |a.tables[l]|
    ensures Shape(a.(tables := a.tables[l := DropAt(a.tables[l], i)]))
  {
    assert forall x | x in a.items :: ItemOk(a, x);
  }

  lemma ShapeSizes(a: Model)
    requires Shape(a)
    ensures |a.tables| == |a.ttl| == LEVELS
  {}

  lemma FindTopUnfold(a: Model, i: nat)
    requires |a.tables| == |a.ttl| == LEVELS && i < LEVELS
    ensures var b := Purge(a, i, a.lastUpdate);
            && |b.tables| == LEVELS && b.ttl == a.ttl
            && FindTop(a, i) == if b.tables[i] != [] then b.(top := i) else FindTop(b, i + 1)
  {
    PurgeKeepsTtl(a, i, a.lastUpdate);
  }

  lemma FindTopEnd(a: Model)
    requires |a.tables| == |a.ttl| == LEVELS
    ensures FindTop(a, LEVELS) == a
  {}

  /** With packets waiting, the table of the top level starts with a stream that has one. */
  lemma PopReady(a: Model)
    requires ModelInv(a)
    ensures Shape(a) && |a.tables| == |a.ttl| == LEVELS && -1 <= a.top < LEVELS
    ensures a.items != [] ==>
              a.top >= 0 && a.tables[a.top] != [] && Queue(a.items, a.tables[a.top][0], a.top) != []
              && Popped(a) == Some(Queue(a.items, a.tables[a.top][0], a.top)[0])
  {
    if a.items != [] {
      assert Linked(a, a.top);
      assert a.tables[a.top][0] in a.tables[a.top];
    }
  }

  lemma RotatedShape(a: Model, l: nat, again: bool)
    requires Shape(a) && l < LEVELS && a.tables[l] != []
    ensures Shape(a.(tables := a.tables[l := Rotated(a.tables[l], again)]))
  {
    assert forall x | x in a.items :: ItemOk(a, x);
  }

  lemma UnknownStream(a: Model, s: nat)
    requires ModelInv(a) && s !in a.streams
    ensures forall l: nat :: Queue(a.items, s, l) == []
    ensures CountKeys(a.items, s) == 0
  {
    assert forall x | x in a.items :: ItemOk(a, x);
    AbsentStream(a.items, s);
  }

  lemma {:induction false} AbsentStream(items: seq<Item>, s: nat)
    requires forall x | x in items :: x.packet.ssrc != s
    ensures forall l: nat :: Queue(items, s, l) == []
    ensures CountKeys(items, s) == 0
  {
    if items != [] { AbsentStream(items[1..], s); }
  }

  lemma EmptyStreamOk(q: StreamQueue, s: nat, items: seq<Item>, now: int)
    requires q.ssrc == s && q.lastEnqueueTime == now && q.packets == seq(LEVELS, _ => []) && q.keyframes == 0
    requires (forall l: nat :: Queue(items, s, l) == []) && CountKeys(items, s) == 0
    ensures StreamOk(q, s, items, now)
  {
    assert Images([]) == [];
  }

  lemma StreamWith(items: seq<Item>, x: Item, t: nat)
    ensures forall m: nat :: Images(Queue(items + [x], t, m))
              == Images(Queue(items, t, m)) + (if IsAt(x, t, m) then [Image(x)] else [])
    ensures CountKeys(items + [x], t)
         == CountKeys(items, t) + (if x.packet.ssrc == t && x.packet.keyFrame then 1 else 0)
  {
    TotalsAppend(items, x, 0);
    forall m: nat ensures Images(Queue(items + [x], t, m))
              == Images(Queue(items, t, m)) + (if IsAt(x, t, m) then [Image(x)] else [])
    {
      QueueAppend(items, x, t, m);
      ImagesSnoc(Queue(items, t, m), x);
    }
  }

  lemma TopShape(a: Model, t: int)
    ensures Shape(a) ==> Shape(a.(top := t))
  {
    assert Shape(a) ==> forall x | x in a.items :: ItemOk(a, x);
  }

  lemma ModelShape(a: Model)
    requires ModelInv(a)
    ensures Shape(a) && |a.tables| == |a.ttl| == LEVELS
  {}

  // ---- removing a stream level by level -----------------------------------------------

  function WithoutLevel(items: seq<Item>, s: nat, l: nat): seq<Item> {
    if items == [] then []
    else if IsAt(items[0], s, l) then WithoutLevel(items[1..], s, l)
    else [items[0]] + WithoutLevel(items[1..], s, l)
  }

  function WithoutBelow(items: seq<Item>, s: nat, k: nat): seq<Item> {
    if items == [] then []
    else if items[0].packet.ssrc == s && items[0].level < k then WithoutBelow(items[1..], s, k)
    else [items[0]] + WithoutBelow(items[1..], s, k)
  }

  lemma {:induction false} WithoutLevelFirst(items: seq<Item>, s: nat, l: nat)
    requires Queue(items, s, l) != []
    ensures WithoutLevel(WithoutFirst(items, s, l), s, l) == WithoutLevel(items, s, l)
  {
    if !IsAt(items[0], s, l) {
      WithoutLevelFirst(items[1..], s, l);
      assert WithoutFirst(items, s, l)[1..] == WithoutFirst(items[1..], s, l);
    }
  }

  lemma {:induction false} WithoutLevelDone(items: seq<Item>, s: nat, l: nat)
    requires Queue(items, s, l) == []
    ensures WithoutLevel(items, s, l) == items
  {
    if items != [] { WithoutLevelDone(items[1..], s, l); }
  }

  lemma {:induction false} WithoutBelowStep(items: seq<Item>, s: nat, k: nat)
    ensures WithoutLevel(WithoutBelow(items, s, k), s, k) == WithoutBelow(items, s, k + 1)
    ensures Queue(WithoutBelow(items, s, k), s, k) == Queue(items, s, k)
  {
    if items != [] {
      WithoutBelowStep(items[1..], s, k);
      if !(items[0].packet.ssrc == s && items[0].level < k) {
        assert WithoutBelow(items, s, k)[1..] == WithoutBelow(items[1..], s, k);
      }
    }
  }

  lemma {:induction false} WithoutBelowEnds(items: seq<Item>, s: nat)
    requires forall x | x in items :: x.level < LEVELS
    ensures WithoutBelow(items, s, 0) == items
    ensures WithoutBelow(items, s, LEVELS) == WithoutStream(items, s)
  {
    if items != [] { WithoutBelowEnds(items[1..], s); }
  }

  /** The queue with the packets of `s` at the levels below `k` removed. */
  function Removed(a: Model, s: nat, k: nat): Model
    requires |a.tables| == LEVELS
  {
    a.(items := WithoutBelow(a.items, s, k),
       tables := seq(LEVELS, l requires 0 <= l < LEVELS => if l < k then Without(a.tables[l], s) else a.tables[l]))
  }

  lemma RemovedNone(a: Model, s: nat)
    requires ModelInv(a)
    ensures |a.tables| == LEVELS && Removed(a, s, 0) == a
  {
    assert forall x | x in a.items :: ItemOk(a, x);
    WithoutBelowEnds(a.items, s);
  }

  /** One level further: only a level with packets of `s` changes. */
  lemma RemovedStep(a: Model, s: nat, l: nat)
    requires ModelInv(a) && l < LEVELS
    ensures |a.tables| == LEVELS && |Removed(a, s, l).tables| == LEVELS
    ensures var b := Removed(a, s, l);
            if Queue(b.items, s, l) == [] then Removed(a, s, l + 1) == b
            else
              && s in b.tables[l]
              && var c := b.(items := WithoutLevel(b.items, s, l));
                 Removed(a, s, l + 1) == c.(tables := c.tables[l := Without(c.tables[l], s)])
  {
    var b := Removed(a, s, l);
    WithoutBelowStep(a.items, s, l);
    assert Linked(a, l);
    assert b.tables[l] == a.tables[l];
    assert Removed(a, s, l + 1).tables == b.tables[l := Without(b.tables[l], s)];
    if Queue(b.items, s, l) == [] {
      WithoutLevelDone(b.items, s, l);
      WithoutAbsent(a.tables[l], s);
      assert b.tables[l := b.tables[l]] == b.tables;
    }
  }

  lemma RemoveAbsent(a: Model, s: nat)
    requires ModelInv(a) && s !in a.streams
    ensures |a.tables| == LEVELS && Removed(a, s, LEVELS) == a
  {
    hide ModelInv, Removed, Queue, WithoutLevel, Without;
    UnknownStream(a, s);
    RemovedNone(a, s);
    RemovedStep(a, s, 0);
    RemovedStep(a, s, 1);
    RemovedStep(a, s, 2);
    RemovedStep(a, s, 3);
    RemovedStep(a, s, 4);
  }

  lemma RemovedAll(a: Model, s: nat)
    requires ModelInv(a)
    ensures |a.tables| == |a.ttl| == LEVELS && -1 <= a.top < LEVELS
    ensures var b := Removed(a, s, LEVELS);
            && |b.tables| == |b.ttl| == LEVELS && b.top == a.top
            && RemoveSsrc(a, s) == MaybeUpdateTop(b)
  {
    assert forall x | x in a.items :: ItemOk(a, x);
    WithoutBelowEnds(a.items, s);
    assert Removed(a, s, LEVELS).tables
        == seq(LEVELS, l requires 0 <= l < LEVELS => Without(a.tables[l], s));
  }

  lemma WithoutShape(a: Model, l: nat, s: nat)
    requires Shape(a) && l < LEVELS
    ensures Shape(a.(tables := a.tables[l := Without(a.tables[l], s)]))
  {
    assert forall x | x in a.items :: ItemOk(a, x);
  }

  lemma WithoutOnly(q: seq<nat>, s: nat)
    requires |q| == 1 && s in q
    ensures Without(q, s) == []
  {}

  lemma {:induction false} WithoutConcat(a: seq<nat>, b: seq<nat>, s: nat)
    ensures Without(a + b, s) == Without(a, s) + Without(b, s)
  {
    if a == [] {
      assert a + b == b;
    } else {
      var rest := a[1..];
      WithoutConcat(rest, b, s);
      assert a + b == [a[0]] + (rest + b);
      WithoutCons(a[0], rest + b, s);
      WithoutCons(a[0], rest, s);
      assert [a[0]] + rest == a;
    }
  }

  lemma WithoutCons(x: nat, q: seq<nat>, s: nat)
    ensures Without([x] + q, s) == (if x == s then [] else [x]) + Without(q, s)
  {
    assert ([x] + q)[1..] == q;
  }

  lemma WithoutSnoc(q: seq<nat>, i: nat, s: nat)
    requires i < |q|
    ensures Without(q[..i + 1], s) == Without(q[..i], s) + (if q[i] == s then [] else [q[i]])
  {
    assert q[..i + 1] == q[..i] + [q[i]];
    WithoutConcat(q[..i], [q[i]], s);
  }
}
