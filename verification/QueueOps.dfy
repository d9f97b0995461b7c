/** The operations of the packet queue on the model, and what each keeps. */
module QueueOps {
  import opened Wrappers
  import opened QueueModel

  /** The times to live a queue is created with; none means no limit. */
  datatype Limits = Limits(audioRetransmission: Option<int>, videoRetransmission: Option<int>, video: Option<int>)

  /** `ToTtlPerPrio`: the limits by level. */
  function TtlPerLevel(limits: Limits): (ttl: seq<Option<int>>)
    ensures |ttl| == LEVELS
  {
    seq(LEVELS, _ => None)
      [Priority(Retransmission, Some(OriginalAudio)) := limits.audioRetransmission]
      [Priority(Retransmission, Some(OriginalVideo)) := limits.videoRetransmission]
      [Priority(Video, None) := limits.video]
  }

  /** A new queue. */
  function New(created: int, splitRetransmissions: bool, limits: Limits): Model {
    Model([], seq(LEVELS, _ => []), map[], 0, 0, created, false, created, -1, 0,
          splitRetransmissions, TtlPerLevel(limits))
  }

  /** The table without the entry at `i`. */
  function DropAt(q: seq<nat>, i: nat): seq<nat>
    requires i < |q|
  {
    q[..i] + q[i + 1..]
  }

  function Without(q: seq<nat>, s: nat): seq<nat> {
    if q == [] then [] else if q[0] == s then Without(q[1..], s) else [q[0]] + Without(q[1..], s)
  }

  predicate Expired(x: Item, now: int, ttl: int) {
    now - x.Enqueued() > ttl
  }

  /** Drops packets of `s` at `l` from the front while they are too old. */
  function PurgedItems(items: seq<Item>, s: nat, l: nat, now: int, ttl: int): seq<Item>
    decreases |items|
  {
    if Queue(items, s, l) == [] || !Expired(Queue(items, s, l)[0], now, ttl) then items
    else
      TotalsWithoutFirst(items, s, l, 0);
      PurgedItems(WithoutFirst(items, s, l), s, l, now, ttl)
  }

  /** The purge of level `l` from table position `i` on; emptied streams leave the table. */
  function PurgeFrom(a: Model, l: nat, now: int, ttl: int, i: nat): (b: Model)
    requires l < |a.tables|
    ensures |b.tables| == |a.tables|
    decreases |a.tables[l]| - i
  {
    if i >= |a.tables[l]| then a
    else
      var s := a.tables[l][i];
      var b := a.(items := PurgedItems(a.items, s, l, now, ttl));
      if Queue(b.items, s, l) == [] then
        PurgeFrom(b.(tables := b.tables[l := DropAt(b.tables[l], i)]), l, now, ttl, i)
      else PurgeFrom(b, l, now, ttl, i + 1)
  }

  function Purge(a: Model, l: nat, now: int): (b: Model)
    requires l < |a.tables| == |a.ttl|
    ensures |b.tables| == |a.tables|
  {
    if a.ttl[l].None? then a else PurgeFrom(a, l, now, a.ttl[l].value, 0)
  }

  /** `UpdateAverageQueueTime`: time passes for the packets only while not paused. */
  function UpdateTime(a: Model, now: int): Model {
    var delta := now - a.lastUpdate;
    if a.paused then a.(pauseSum := a.pauseSum + delta, lastUpdate := now)
    else a.(live := a.live + delta, lastUpdate := now)
  }

  /** The best level with packets, purging each level on the way. */
  function FindTop(a: Model, i: nat): (b: Model)
    requires |a.tables| == |a.ttl| == LEVELS && i <= LEVELS
    ensures |b.tables| == LEVELS && b.ttl == a.ttl
    decreases LEVELS - i
  {
    if i == LEVELS then a
    else
      var b := Purge(a, i, a.lastUpdate);
      PurgeKeepsTtl(a, i, a.lastUpdate);
      if b.tables[i] != [] then b.(top := i) else FindTop(b, i + 1)
  }

  function MaybeUpdateTop(a: Model): (b: Model)
    requires |a.tables| == |a.ttl| == LEVELS && -1 <= a.top < LEVELS
    ensures |b.tables| == LEVELS && b.ttl == a.ttl
  {
    if a.top != -1 && a.tables[a.top] != [] then a
    else
      var b := FindTop(a, 0);
      if b.items == [] then b.(top := -1) else b
  }

  function LevelOf(a: Model, p: Packet): (l: nat)
    ensures l < LEVELS
  {
    Priority(p.media, if a.splitRetransmissions then p.original else None)
  }

  function AddStream(a: Model, s: nat, now: int): Model {
    if s in a.streams then a else a.(streams := a.streams[s := now])
  }

  /** Appends a packet whose time of entry has been accounted for. */
  function Append(a: Model, now: int, p: Packet, id: nat): Model
    requires |a.tables| == LEVELS
  {
    var l := LevelOf(a, p);
    var x := Item(l, p, now, a.pauseSum, a.live, id);
    a.(items := a.items + [x],
       tables := if Queue(a.items, p.ssrc, l) == [] then a.tables[l := a.tables[l] + [p.ssrc]] else a.tables,
       top := if a.top < 0 || l < a.top then l else a.top)
  }

  /** Empty streams created more than the timeout ago are forgotten. */
  ghost predicate Idle(a: Model, s: nat, now: int) {
    s in a.streams && (forall l | 0 <= l < LEVELS :: Queue(a.items, s, l) == []) && a.streams[s] + TIMEOUT < now
  }

  ghost function Cull(a: Model, now: int): Model {
    if now - a.lastCulling > TIMEOUT then
      a.(streams := map s | s in a.streams && !Idle(a, s, now) :: a.streams[s], lastCulling := now)
    else a
  }

  ghost function Push(a: Model, now: int, p: Packet): Model
    requires |a.tables| == |a.ttl| == LEVELS
  {
    var b := AddStream(a, p.ssrc, now).(next := a.next + 1);
    var c := UpdateTime(Purge(b, LevelOf(a, p), now), now);
    Cull(Append(c, now, p, a.next), now)
  }

  /** The packet `Pop` returns, if any, and the queue it leaves. */
  function Popped(a: Model): Option<Item>
    requires |a.tables| == LEVELS && -1 <= a.top < LEVELS
  {
    if a.items == [] || a.top == -1 || a.tables[a.top] == [] then None
    else
      var q := Queue(a.items, a.tables[a.top][0], a.top);
      if q == [] then None else Some(q[0])
  }

  function Pop(a: Model): Model
    requires |a.tables| == |a.ttl| == LEVELS && -1 <= a.top < LEVELS
  {
    if Popped(a).None? then a
    else
      var s, l := a.tables[a.top][0], a.top;
      var rest := WithoutFirst(a.items, s, l);
      var again := Queue(rest, s, l) != [];
      var b := a.(items := rest, tables := a.tables[l := a.tables[l][1..] + (if again then [s] else [])]);
      if again then b else MaybeUpdateTop(b)
  }

  /** The list without any packet of stream `s`. */
  function WithoutStream(items: seq<Item>, s: nat): seq<Item> {
    if items == [] then []
    else if items[0].packet.ssrc == s then WithoutStream(items[1..], s)
    else [items[0]] + WithoutStream(items[1..], s)
  }

  function RemoveSsrc(a: Model, s: nat): Model
    requires |a.tables| == |a.ttl| == LEVELS && -1 <= a.top < LEVELS
  {
    MaybeUpdateTop(a.(items := WithoutStream(a.items, s),
                      tables := seq(LEVELS, l requires 0 <= l < LEVELS => Without(a.tables[l], s))))
  }

  lemma {:induction false} PurgeKeepsTtl(a: Model, l: nat, now: int)
    requires l < |a.tables| == |a.ttl|
    ensures Purge(a, l, now).ttl == a.ttl
  {
    if a.ttl[l].Some? { PurgeFromFrame(a, l, now, a.ttl[l].value, 0); }
  }

  /** What a purge of level `l` leaves alone. */
  ghost predicate SameButLevel(a: Model, b: Model, l: nat) {
    && |b.tables| == |a.tables|
    && (forall m | 0 <= m < |a.tables| && m != l :: b.tables[m] == a.tables[m])
    && b == a.(items := b.items, tables := b.tables)
  }

  lemma {:induction false} PurgeFromFrame(a: Model, l: nat, now: int, ttl: int, i: nat)
    requires l < |a.tables|
    ensures SameButLevel(a, PurgeFrom(a, l, now, ttl, i), l)
    decreases |a.tables[l]| - i
  {
    if i < |a.tables[l]| {
      var s := a.tables[l][i];
      var b := a.(items := PurgedItems(a.items, s, l, now, ttl));
      if Queue(b.items, s, l) == [] {
        PurgeFromFrame(b.(tables := b.tables[l := DropAt(b.tables[l], i)]), l, now, ttl, i);
      } else {
        PurgeFromFrame(b, l, now, ttl, i + 1);
      }
    }
  }

  // ---- the invariant -----------------------------------------------------------------

  ghost predicate NoDup(q: seq<nat>) {
    forall i, j | 0 <= i < j < |q| :: q[i] != q[j]
  }

  /** The difference between wall clock and unpaused time, the same for every packet. */
  function Offset(a: Model): int {
    a.lastUpdate - a.pauseSum - a.live
  }

  ghost predicate ItemOk(a: Model, x: Item) {
    && x.level == LevelOf(a, x.packet)
    && x.packet.ssrc in a.streams && x.id < a.next && x.Enqueued() - x.born == Offset(a)
  }

  ghost predicate Shape(a: Model) {
    && |a.tables| == |a.ttl| == LEVELS
    && Increasing(a.items)
    && forall x | x in a.items :: ItemOk(a, x)
  }

  /** A stream is in a level's table, once, exactly while it has packets there. */
  ghost predicate Linked(a: Model, l: nat)
    requires l < |a.tables|
  {
    NoDup(a.tables[l]) && forall s: nat :: s in a.tables[l] <==> Queue(a.items, s, l) != []
  }

  ghost predicate AllLinked(a: Model) {
    forall l: nat | l < |a.tables| :: Linked(a, l)
  }

  /** The top level is the best one with packets, and -1 exactly when there are none. */
  ghost predicate TopOk(a: Model) {
    && -1 <= a.top < |a.tables|
    && (a.top == -1 <==> a.items == [])
    && (a.top != -1 ==> a.tables[a.top] != [])
    && forall m: nat | m < |a.tables| && m < a.top :: a.tables[m] == []
  }

  ghost predicate ModelInv(a: Model) {
    Shape(a) && AllLinked(a) && TopOk(a)
  }
}
