/**
 The order in which packets leave the queue: best priority first, first in first out
 within a stream and level, and round robin between the streams of a level.
 */
module QueueService {
  import opened Wrappers
  import opened QueueModel
  import opened QueueOps
  import opened QueueInvariant

  datatype Op =
    | OpPush(now: int, packet: Packet)
    | OpPop
    | OpUpdate(now: int)
    | OpPause(pause: bool, now: int)
    | OpRemove(ssrc: nat)

  ghost function Step(a: Model, op: Op): Model
    requires ModelInv(a)
  {
    match op
    case OpPush(now, p) => Push(a, now, p)
    case OpPop => Pop(a)
    case OpUpdate(now) => UpdateTime(a, now)
    case OpPause(pause, now) => UpdateTime(a, now).(paused := pause)
    case OpRemove(s) => RemoveSsrc(a, s)
  }

  /** The representation invariant holds after any sequence of operations. */
  lemma StepKeepsInv(a: Model, op: Op)
    requires ModelInv(a)
    ensures ModelInv(Step(a, op))
  {
    match op
    case OpPush(now, p) => PushInv(a, now, p);
    case OpPop => PopInv(a);
    case OpUpdate(now) => UpdateTimeInv(a, now);
    case OpPause(pause, now) =>
      UpdateTimeInv(a, now);
      PauseFlag(UpdateTime(a, now), pause);
    case OpRemove(s) => RemoveInv(a, s);
  }

  lemma PauseFlag(a: Model, pause: bool)
    requires ModelInv(a)
    ensures ModelInv(a.(paused := pause))
  {
    var b := a.(paused := pause);
    assert forall x | x in b.items :: ItemOk(a, x);
    forall l: nat | l < |b.tables| ensures Linked(b, l) { assert Linked(a, l); }
  }

  // ---- which packet is served --------------------------------------------------------

  /** A FIFO holds its packets in the order they were pushed. */
  lemma {:induction false} QueueFirstOldest(items: seq<Item>, x: Item)
    requires Increasing(items) && x in items
    ensures var q := Queue(items, x.packet.ssrc, x.level);
            q != [] && q[0].id <= x.id
  {
    TailIncreasing(items);
    ItemInQueue(items, x);
    if !IsAt(items[0], x.packet.ssrc, x.level) {
      assert x in items[1..];
      QueueFirstOldest(items[1..], x);
    }
  }

  /**
   A pop serves the best priority present, and of its stream at that level the packet
   pushed first; it serves nothing only if nothing waits.
   */
  lemma PopServesBest(a: Model)
    requires ModelInv(a)
    ensures Popped(a).None? <==> a.items == []
    ensures Popped(a).Some? ==>
              var x := Popped(a).value;
              && x in a.items
              && forall y | y in a.items ::
                   x.level <= y.level
                   && (y.level == x.level && y.packet.ssrc == x.packet.ssrc ==> x.id <= y.id)
  {
    if a.items != [] {
      assert Linked(a, a.top);
      var s := a.tables[a.top][0];
      assert s in a.tables[a.top];
      QueueMember(a.items, s, a.top, 0);
      var x := Queue(a.items, s, a.top)[0];
      forall y | y in a.items
        ensures x.level <= y.level && (y.level == x.level && y.packet.ssrc == x.packet.ssrc ==> x.id <= y.id)
      {
        ItemMeansTable(a, y);
        QueueFirstOldest(a.items, y);
      }
    }
  }

  // ---- the order of a table --------------------------------------------------------------

  /** `t` comes before `s`. */
  ghost predicate Before(q: seq<nat>, t: nat, s: nat) {
    exists i, j :: 0 <= i < j < |q| && q[i] == t && q[j] == s
  }

  /** `r` lists some of the streams of `q`, in the same order. */
  ghost predicate SubOrder(q: seq<nat>, r: seq<nat>) {
    && (forall t | t in r :: t in q)
    && (forall t, s | t in r && s in r && Before(q, t, s) :: Before(r, t, s))
  }

  lemma SubOrderRefl(q: seq<nat>)
    ensures SubOrder(q, q)
  {}

  lemma SubOrderTrans(q: seq<nat>, r: seq<nat>, u: seq<nat>)
    requires SubOrder(q, r) && SubOrder(r, u)
    ensures SubOrder(q, u)
  {
    forall t, s | t in u && s in u && Before(q, t, s) ensures Before(u, t, s) {
      assert Before(r, t, s);
    }
  }

  lemma DropAtOrder(q: seq<nat>, i: nat)
    requires NoDup(q) && i < |q|
    ensures SubOrder(q, DropAt(q, i))
  {
    var r := DropAt(q, i);
    DropAtFacts(q, i);
    forall t, s | t in r && s in r && Before(q, t, s) ensures Before(r, t, s) {
      var j, k :| 0 <= j < k < |q| && q[j] == t && q[k] == s;
      var j', k' := if j < i then j else j - 1, if k < i then k else k - 1;
      assert r[j'] == t && r[k'] == s;
    }
  }

  lemma {:induction false} WithoutIsDrop(q: seq<nat>, i: nat)
    requires NoDup(q) && i < |q|
    ensures Without(q, q[i]) == DropAt(q, i)
  {
    var x, rest := q[i], q[1..];
    assert forall j | 0 <= j < |rest| :: rest[j] == q[j + 1];
    if i == 0 {
      WithoutAbsent(rest, x);
      assert DropAt(q, 0) == rest;
    } else {
      assert rest[i - 1] == x;
      WithoutIsDrop(rest, i - 1);
      assert [q[0]] + DropAt(rest, i - 1) == DropAt(q, i);
    }
  }

  lemma WithoutOrder(q: seq<nat>, x: nat)
    requires NoDup(q)
    ensures SubOrder(q, Without(q, x))
  {
    if x in q {
      var i :| 0 <= i < |q| && q[i] == x;
      WithoutIsDrop(q, i);
      DropAtOrder(q, i);
    } else {
      WithoutAbsent(q, x);
      SubOrderRefl(q);
    }
  }

  lemma {:induction false} PurgeFromOrder(a: Model, l: nat, now: int, ttl: int, i: nat)
    requires Shape(a) && AllLinked(a) && l < LEVELS
    ensures SubOrder(a.tables[l], PurgeFrom(a, l, now, ttl, i).tables[l])
    decreases |a.tables[l]| - i
  {
    hide AllLinked, SubOrder, Increasing;
    if i >= |a.tables[l]| {
      SubOrderRefl(a.tables[l]);
    } else {
      PurgeStepInv(a, l, now, ttl, i);
      var b := PurgeStep(a, l, now, ttl, i);
      PurgeStepOrder(a, l, now, ttl, i);
      PurgeFromOrder(b, l, now, ttl, if |b.tables[l]| < |a.tables[l]| then i else i + 1);
      SubOrderTrans(a.tables[l], b.tables[l], PurgeFrom(a, l, now, ttl, i).tables[l]);
    }
  }

  lemma PurgeStepOrder(a: Model, l: nat, now: int, ttl: int, i: nat)
    requires AllLinked(a) && l < |a.tables| && i < |a.tables[l]|
    ensures SubOrder(a.tables[l], PurgeStep(a, l, now, ttl, i).tables[l])
  {
    hide SubOrder;
    assert Linked(a, l);
    DropAtOrder(a.tables[l], i);
    SubOrderRefl(a.tables[l]);
  }

  /** A purge of level `l` keeps the order of what stays, at every level. */
  lemma PurgeOrder(a: Model, l: nat, now: int, m: nat)
    requires Shape(a) && AllLinked(a) && l < LEVELS && m < LEVELS
    ensures SubOrder(a.tables[m], Purge(a, l, now).tables[m])
  {
    hide SubOrder;
    PurgeInv(a, l, now);
    SubOrderRefl(a.tables[m]);
    if m == l && a.ttl[l].Some? {
      PurgeFromOrder(a, l, now, a.ttl[l].value, 0);
    }
  }

  lemma {:induction false} FindTopOrder(a: Model, i: nat, m: nat)
    requires Shape(a) && AllLinked(a) && i <= LEVELS && m < LEVELS
    ensures SubOrder(a.tables[m], FindTop(a, i).tables[m])
    decreases LEVELS - i
  {
    hide SubOrder;
    if i == LEVELS {
      SubOrderRefl(a.tables[m]);
    } else {
      PurgeInv(a, i, a.lastUpdate);
      PurgeOrder(a, i, a.lastUpdate, m);
      PurgeKeepsTtl(a, i, a.lastUpdate);
      var b := Purge(a, i, a.lastUpdate);
      if b.tables[i] == [] {
        FindTopOrder(b, i + 1, m);
        SubOrderTrans(a.tables[m], b.tables[m], FindTop(b, i + 1).tables[m]);
      }
    }
  }

  lemma MaybeUpdateTopOrder(a: Model, m: nat)
    requires Shape(a) && AllLinked(a) && -1 <= a.top < LEVELS && m < LEVELS
    ensures SubOrder(a.tables[m], MaybeUpdateTop(a).tables[m])
  {
    hide SubOrder;
    SubOrderRefl(a.tables[m]);
    FindTopOrder(a, 0, m);
  }

  // ---- round robin -----------------------------------------------------------------------

  /** The stream served by an operation at level `l`, if any. */
  ghost function ServedAt(a: Model, op: Op, l: nat): Option<nat>
    requires ModelInv(a)
  {
    if op.OpPop? && Popped(a).Some? && Popped(a).value.level == l then Some(Popped(a).value.packet.ssrc) else None
  }

  /** Some packet of `t` at level `l` waits through the operation from `a` to `b`. */
  ghost predicate Waits(a: Model, b: Model, t: nat, l: nat) {
    exists x :: x in Queue(a.items, t, l) && x in Queue(b.items, t, l)
  }

  lemma WaitsInTables(a: Model, b: Model, t: nat, l: nat)
    requires ModelInv(a) && ModelInv(b) && l < LEVELS && Waits(a, b, t, l)
    ensures t in a.tables[l] && t in b.tables[l]
  {
    assert Linked(a, l) && Linked(b, l);
    assert Queue(a.items, t, l) != [] && Queue(b.items, t, l) != [];
  }

  lemma HeadIsFirst(q: seq<nat>, t: nat)
    requires NoDup(q) && q != [] && t in q && t != q[0]
    ensures Before(q, q[0], t) && !Before(q, t, q[0])
  {
    var j :| 0 <= j < |q| && q[j] == t;
    assert q[0] == q[0] && q[j] == t;
    assert forall i | 0 < i < |q| :: q[i] != q[0];
  }

  lemma RotatedOrder(q: seq<nat>, again: bool)
    requires NoDup(q) && q != []
    ensures forall t, s | t != q[0] && s != q[0] && Before(q, t, s) :: Before(Rotated(q, again), t, s)
    ensures forall t | again && t in q && t != q[0] :: Before(Rotated(q, again), t, q[0])
  {
    var r := Rotated(q, again);
    forall t, s | t != q[0] && s != q[0] && Before(q, t, s) ensures Before(r, t, s) {
      var i, j :| 0 <= i < j < |q| && q[i] == t && q[j] == s;
      assert r[i - 1] == t && r[j - 1] == s;
    }
    forall t | again && t in q && t != q[0] ensures Before(r, t, q[0]) {
      var i :| 0 <= i < |q| && q[i] == t;
      assert r[i - 1] == t && r[|q| - 1] == q[0];
    }
  }

  /** What a pop does to the order at its own level and at the others. */
  lemma PopOrder(a: Model, l: nat, t: nat, s: nat)
    requires ModelInv(a) && l < LEVELS && t != s
    requires t in a.tables[l] && s in a.tables[l] && t in Pop(a).tables[l] && s in Pop(a).tables[l]
    ensures ServedAt(a, OpPop, l) == Some(s) ==> Before(a.tables[l], s, t) && Before(Pop(a).tables[l], t, s)
    ensures ServedAt(a, OpPop, l) != Some(s) && ServedAt(a, OpPop, l) != Some(t) && Before(a.tables[l], t, s) ==>
              Before(Pop(a).tables[l], t, s)
  {
    assert Linked(a, l);
    if Popped(a).Some? {
      var h := a.top;
      assert Linked(a, h);
      TakenInv(a, h);
      var b := Taken(a, h);
      PoppedWhere(a);
      var q := a.tables[h];
      RotatedOrder(q, Queue(b.items, q[0], h) != []);
      RotatedFacts(q, Queue(b.items, q[0], h) != []);
      hide ModelInv, AllLinked, Shape, Taken, NoDup;
      PopAfterTaken(a, l);
      if h == l && s == q[0] { HeadIsFirst(q, t); }
    }
  }

  lemma PoppedWhere(a: Model)
    requires ModelInv(a) && Popped(a).Some?
    ensures a.top >= 0 && a.tables[a.top] != []
    ensures Popped(a).value.level == a.top && Popped(a).value.packet.ssrc == a.tables[a.top][0]
  {
    QueueMember(a.items, a.tables[a.top][0], a.top, 0);
  }

  /** Seeking a new top level after a pop keeps the order of what stays. */
  lemma PopAfterTaken(a: Model, l: nat)
    requires ModelInv(a) && Popped(a).Some? && a.top >= 0 && a.tables[a.top] != [] && l < LEVELS
    ensures SubOrder(Taken(a, a.top).tables[l], Pop(a).tables[l])
  {
    hide SubOrder;
    TakenInv(a, a.top);
    var b := Taken(a, a.top);
    SubOrderRefl(b.tables[l]);
    MaybeUpdateTopOrder(b, l);
  }

  lemma RemoveOrder(a: Model, x: nat, l: nat)
    requires ModelInv(a) && l < LEVELS
    ensures SubOrder(a.tables[l], RemoveSsrc(a, x).tables[l])
  {
    var b := a.(items := WithoutStream(a.items, x),
                tables := seq(LEVELS, m requires 0 <= m < LEVELS => Without(a.tables[m], x)));
    RemovedLinked(a, x);
    hide SubOrder;
    assert Linked(a, l);
    WithoutOrder(a.tables[l], x);
    MaybeUpdateTopOrder(b, l);
    SubOrderTrans(a.tables[l], b.tables[l], RemoveSsrc(a, x).tables[l]);
  }

  /** The queue after the purge a push begins with. */
  ghost function PushPurged(a: Model, now: int, p: Packet): Model
    requires |a.tables| == |a.ttl| == LEVELS
  {
    Purge(AddStream(a, p.ssrc, now).(next := a.next + 1), LevelOf(a, p), now)
  }

  /** After its purge a push only appends, to the packets and to one table. */
  lemma PushAppends(a: Model, now: int, p: Packet, l: nat)
    requires |a.tables| == |a.ttl| == LEVELS && l < LEVELS
    ensures var b, c := Push(a, now, p), PushPurged(a, now, p);
            && |b.tables| == |c.tables| == LEVELS
            && (b.tables[l] == c.tables[l] || b.tables[l] == c.tables[l] + [p.ssrc])
            && exists y: Item :: y.id == a.next && b.items == c.items + [y]
  {
    hide Purge, LevelOf, Queue;
    var c := PushPurged(a, now, p);
    var d := UpdateTime(c, now);
    var y := Item(LevelOf(d, p), p, now, d.pauseSum, d.live, a.next);
    assert Push(a, now, p).items == c.items + [y];
  }

  lemma PushPurgedOrder(a: Model, now: int, p: Packet, l: nat)
    requires ModelInv(a) && l < LEVELS
    ensures AllLinked(PushPurged(a, now, p)) && |PushPurged(a, now, p).tables| == LEVELS
    ensures SubOrder(a.tables[l], PushPurged(a, now, p).tables[l])
  {
    hide SubOrder, Purge;
    var b := AddStream(a, p.ssrc, now).(next := a.next + 1);
    AddStreamInv(a, p.ssrc, now);
    PurgeInv(b, LevelOf(a, p), now);
    PurgeOrder(b, LevelOf(a, p), now, l);
  }

  /** Two streams that wait through a push keep their order. */
  lemma PushOrder(a: Model, now: int, p: Packet, l: nat, t: nat, s: nat)
    requires ModelInv(a) && l < LEVELS && t != s
    requires Waits(a, Push(a, now, p), t, l) && Waits(a, Push(a, now, p), s, l)
    requires Before(a.tables[l], t, s)
    ensures |Push(a, now, p).tables| == LEVELS && Before(Push(a, now, p).tables[l], t, s)
  {
    hide SubOrder, Push, PushPurged, Before, Waits, AllLinked;
    var c := PushPurged(a, now, p);
    PushPurgedOrder(a, now, p, l);
    PushAppends(a, now, p, l);
    StillWaiting(a, now, p, t, l);
    StillWaiting(a, now, p, s, l);
    InOrder(a.tables[l], c.tables[l], t, s);
    BeforeAppend(c.tables[l], p.ssrc, t, s);
  }

  lemma InOrder(q: seq<nat>, r: seq<nat>, t: nat, s: nat)
    requires SubOrder(q, r) && t in r && s in r && Before(q, t, s)
    ensures Before(r, t, s)
  {}

  lemma BeforeAppend(q: seq<nat>, x: nat, t: nat, s: nat)
    requires Before(q, t, s)
    ensures Before(q + [x], t, s)
  {
    var i, j :| 0 <= i < j < |q| && q[i] == t && q[j] == s;
    assert (q + [x])[i] == t && (q + [x])[j] == s;
  }

  lemma StillWaiting(a: Model, now: int, p: Packet, t: nat, l: nat)
    requires ModelInv(a) && l < LEVELS && Waits(a, Push(a, now, p), t, l)
    requires AllLinked(PushPurged(a, now, p)) && |PushPurged(a, now, p).tables| == LEVELS
    ensures t in PushPurged(a, now, p).tables[l]
  {
    hide Push, PushPurged;
    var c := PushPurged(a, now, p);
    var x :| x in Queue(a.items, t, l) && x in Queue(Push(a, now, p).items, t, l);
    PushAppends(a, now, p, l);
    var y: Item :| y.id == a.next && Push(a, now, p).items == c.items + [y];
    QueueAppend(c.items, y, t, l);
    InQueueInItems(a.items, t, l, x);
    assert ItemOk(a, x);
    assert x in Queue(c.items, t, l);
    assert Linked(c, l);
  }

  lemma InQueueInItems(items: seq<Item>, t: nat, l: nat, x: Item)
    requires x in Queue(items, t, l)
    ensures x in items
  {
    var k :| 0 <= k < |Queue(items, t, l)| && Queue(items, t, l)[k] == x;
    QueueMember(items, t, l, k);
  }

  /**
   How one operation changes the order of two streams that both wait through it: only
   serving one of them does, and that puts it behind the other.
   */
  lemma StepOrder(a: Model, op: Op, l: nat, t: nat, s: nat)
    requires ModelInv(a) && l < LEVELS && t != s
    requires Waits(a, Step(a, op), t, l) && Waits(a, Step(a, op), s, l)
    ensures ServedAt(a, op, l) == Some(s) ==>
              Before(a.tables[l], s, t) && |Step(a, op).tables| == LEVELS && Before(Step(a, op).tables[l], t, s)
    ensures ServedAt(a, op, l) != Some(s) && ServedAt(a, op, l) != Some(t) && Before(a.tables[l], t, s) ==>
              |Step(a, op).tables| == LEVELS && Before(Step(a, op).tables[l], t, s)
  {
    var b := Step(a, op);
    StepKeepsInv(a, op);
    WaitsInTables(a, b, t, l);
    WaitsInTables(a, b, s, l);
    match op
    case OpPush(now, p) =>
      if Before(a.tables[l], t, s) { PushOrder(a, now, p, l, t, s); }
    case OpPop => PopOrder(a, l, t, s);
    case OpRemove(x) =>
      RemoveOrder(a, x, l);
    case _ =>
  }

  ghost function After(a: Model, ops: seq<Op>): (b: Model)
    requires ModelInv(a)
    ensures ModelInv(b)
    decreases |ops|
  {
    if ops == [] then a
    else
      StepKeepsInv(a, ops[0]);
      After(Step(a, ops[0]), ops[1..])
  }

  /** `t` waits at level `l` through every operation. */
  ghost predicate AlwaysWaits(a: Model, ops: seq<Op>, t: nat, l: nat)
    requires ModelInv(a)
    decreases |ops|
  {
    ops == [] ||
    (StepKeepsInv(a, ops[0]);
     Waits(a, Step(a, ops[0]), t, l) && AlwaysWaits(Step(a, ops[0]), ops[1..], t, l))
  }

  /** How often `t` is served at level `l`. */
  ghost function TimesServed(a: Model, ops: seq<Op>, t: nat, l: nat): nat
    requires ModelInv(a)
    decreases |ops|
  {
    if ops == [] then 0
    else
      StepKeepsInv(a, ops[0]);
      (if ServedAt(a, ops[0], l) == Some(t) then 1 else 0) + TimesServed(Step(a, ops[0]), ops[1..], t, l)
  }

  /** The stream at the head of a table comes first. */
  lemma NextServed(a: Model, l: nat, s: nat, t: nat)
    requires ModelInv(a) && l < LEVELS && t != s && ServedAt(a, OpPop, l) == Some(s) && t in a.tables[l]
    ensures Before(a.tables[l], s, t) && !Before(a.tables[l], t, s)
  {
    PoppedWhere(a);
    assert Linked(a, l);
    HeadIsFirst(a.tables[l], t);
  }

  /**
   Until `s` is served next, a stream waiting ahead of it is served once and a stream
   waiting behind it is not served.
   */
  lemma {:induction false} ServedUntilNext(a: Model, ops: seq<Op>, l: nat, s: nat, t: nat)
    requires ModelInv(a) && l < LEVELS && t != s
    requires t in a.tables[l] && (Before(a.tables[l], t, s) || Before(a.tables[l], s, t))
    requires AlwaysWaits(a, ops, s, l) && AlwaysWaits(a, ops, t, l)
    requires TimesServed(a, ops, s, l) == 0
    requires t in After(a, ops).tables[l] && ServedAt(After(a, ops), OpPop, l) == Some(s)
    ensures Before(a.tables[l], t, s) ==> TimesServed(a, ops, t, l) == 1
    ensures Before(a.tables[l], s, t) ==> TimesServed(a, ops, t, l) == 0
    decreases |ops|
  {
    if ops == [] {
      NextServed(a, l, s, t);
      OneOrder(a, l, s, t);
    } else {
      var op := ops[0];
      var b := Step(a, op);
      StepKeepsInv(a, op);
      StepOrder(a, op, l, t, s);
      StepOrder(a, op, l, s, t);
      WaitsInTables(a, b, t, l);
      OneOrder(a, l, s, t);
      OneOrder(b, l, s, t);
      ServedUntilNext(b, ops[1..], l, s, t);
    }
  }

  lemma OneOrder(a: Model, l: nat, s: nat, t: nat)
    requires ModelInv(a) && l < LEVELS && s != t
    ensures !(Before(a.tables[l], t, s) && Before(a.tables[l], s, t))
  {
    assert Linked(a, l);
  }

  /**
   Round robin: between two successive pops of `s` at a level, every other stream that
   keeps waiting there is served exactly once, whatever else is pushed, purged or
   removed in between.
   */
  lemma RoundRobin(a: Model, ops: seq<Op>, l: nat, s: nat, t: nat)
    requires ModelInv(a) && l < LEVELS && t != s
    requires ServedAt(a, OpPop, l) == Some(s) && ModelInv(Pop(a))
    requires Waits(a, Pop(a), s, l) && Waits(a, Pop(a), t, l)
    requires AlwaysWaits(Pop(a), ops, s, l) && AlwaysWaits(Pop(a), ops, t, l)
    requires TimesServed(Pop(a), ops, s, l) == 0
    requires ServedAt(After(Pop(a), ops), OpPop, l) == Some(s)
    ensures TimesServed(Pop(a), ops, t, l) == 1
  {
    var b := Pop(a);
    assert b == Step(a, OpPop);
    StepOrder(a, OpPop, l, t, s);
    WaitsInTables(a, b, t, l);
    WaitsToTheEnd(b, ops, t, l);
    ServedUntilNext(b, ops, l, s, t);
  }

  lemma {:induction false} WaitsToTheEnd(a: Model, ops: seq<Op>, t: nat, l: nat)
    requires ModelInv(a) && l < LEVELS && t in a.tables[l] && AlwaysWaits(a, ops, t, l)
    ensures t in After(a, ops).tables[l]
    decreases |ops|
  {
    if ops != [] {
      StepKeepsInv(a, ops[0]);
      WaitsInTables(a, Step(a, ops[0]), t, l);
      WaitsToTheEnd(Step(a, ops[0]), ops[1..], t, l);
    }
  }

  // ---- no stream is passed over --------------------------------------------------------------

  /** `s` is not in the table, or behind `t`. */
  ghost predicate NotAhead(q: seq<nat>, t: nat, s: nat) {
    s !in q || Before(q, t, s)
  }

  lemma SubOrderNotAhead(q: seq<nat>, r: seq<nat>, t: nat, s: nat)
    requires SubOrder(q, r) && t in r && NotAhead(q, t, s)
    ensures NotAhead(r, t, s)
  {}

  /** A stream that enters the table enters at its end. */
  lemma AppendNotAhead(q: seq<nat>, x: nat, t: nat, s: nat)
    requires t in q && NotAhead(q, t, s)
    ensures NotAhead(q + [x], t, s)
  {
    if s in q {
      BeforeAppend(q, x, t, s);
    } else if x == s {
      var i :| 0 <= i < |q| && q[i] == t;
      assert (q + [x])[i] == t && (q + [x])[|q|] == s;
    }
  }

  lemma PushNotAhead(a: Model, now: int, p: Packet, l: nat, t: nat, s: nat)
    requires ModelInv(a) && l < LEVELS && t != s
    requires Waits(a, Push(a, now, p), t, l) && NotAhead(a.tables[l], t, s)
    ensures |Push(a, now, p).tables| == LEVELS && NotAhead(Push(a, now, p).tables[l], t, s)
  {
    hide SubOrder, Push, PushPurged, NotAhead, Waits, AllLinked;
    var c := PushPurged(a, now, p);
    PushPurgedOrder(a, now, p, l);
    PushAppends(a, now, p, l);
    StillWaiting(a, now, p, t, l);
    SubOrderNotAhead(a.tables[l], c.tables[l], t, s);
    AppendNotAhead(c.tables[l], p.ssrc, t, s);
  }

  /** A pop brings no stream into a table. */
  lemma PopWithin(a: Model, l: nat, s: nat)
    requires ModelInv(a) && l < LEVELS && s in Pop(a).tables[l]
    ensures s in a.tables[l]
  {
    if Popped(a).Some? {
      PoppedWhere(a);
      PopAfterTaken(a, l);
      assert Linked(a, a.top);
      TakenInv(a, a.top);
      var q := a.tables[a.top];
      RotatedFacts(q, Queue(Taken(a, a.top).items, q[0], a.top) != []);
    }
  }

  lemma PopNotAhead(a: Model, l: nat, t: nat, s: nat)
    requires ModelInv(a) && l < LEVELS && t != s
    requires t in a.tables[l] && t in Pop(a).tables[l] && NotAhead(a.tables[l], t, s)
    requires ServedAt(a, OpPop, l) != Some(s) && ServedAt(a, OpPop, l) != Some(t)
    ensures NotAhead(Pop(a).tables[l], t, s)
  {
    hide AllLinked, Increasing, Pop, ServedAt;
    PopInv(a);
    if s in Pop(a).tables[l] {
      PopWithin(a, l, s);
      PopOrder(a, l, t, s);
    }
  }

  /** While `t` waits and neither is served, `s` does not get ahead of it. */
  lemma StepNotAhead(a: Model, op: Op, l: nat, t: nat, s: nat)
    requires ModelInv(a) && l < LEVELS && t != s
    requires Waits(a, Step(a, op), t, l) && NotAhead(a.tables[l], t, s)
    requires ServedAt(a, op, l) != Some(s) && ServedAt(a, op, l) != Some(t)
    ensures |Step(a, op).tables| == LEVELS && NotAhead(Step(a, op).tables[l], t, s)
  {
    hide SubOrder, NotAhead, Waits, RemoveSsrc, Push, Pop;
    StepKeepsInv(a, op);
    WaitsInTables(a, Step(a, op), t, l);
    match op
    case OpPush(now, p) => PushNotAhead(a, now, p, l, t, s);
    case OpPop => PopNotAhead(a, l, t, s);
    case OpRemove(x) =>
      RemoveOrder(a, x, l);
      SubOrderNotAhead(a.tables[l], RemoveSsrc(a, x).tables[l], t, s);
    case _ =>
  }

  lemma {:induction false} ServedBeforeNext(a: Model, ops: seq<Op>, l: nat, s: nat, t: nat)
    requires ModelInv(a) && l < LEVELS && t != s
    requires t in a.tables[l] && NotAhead(a.tables[l], t, s)
    requires AlwaysWaits(a, ops, t, l) && TimesServed(a, ops, s, l) == 0
    requires ServedAt(After(a, ops), OpPop, l) == Some(s)
    ensures TimesServed(a, ops, t, l) >= 1
    decreases |ops|
  {
    hide ModelInv, NotAhead, Waits, Step, ServedAt;
    if ops == [] {
      HeadNotAhead(a, l, s, t);
    } else {
      var op := ops[0];
      StepKeepsInv(a, op);
      if ServedAt(a, op, l) != Some(t) {
        StepNotAhead(a, op, l, t, s);
        WaitsInTables(a, Step(a, op), t, l);
        ServedBeforeNext(Step(a, op), ops[1..], l, s, t);
      }
    }
  }

  lemma HeadNotAhead(a: Model, l: nat, s: nat, t: nat)
    requires ModelInv(a) && l < LEVELS && t != s && t in a.tables[l] && ServedAt(a, OpPop, l) == Some(s)
    ensures !NotAhead(a.tables[l], t, s)
  {
    PoppedWhere(a);
    NextServed(a, l, s, t);
  }

  /**
   No stream is passed over: between two successive pops of `s` at a level, whether or
   not `s` ran empty in between, every other stream that keeps waiting there is served.
   */
  lemma NoStarvation(a: Model, ops: seq<Op>, l: nat, s: nat, t: nat)
    requires ModelInv(a) && l < LEVELS && t != s
    requires ServedAt(a, OpPop, l) == Some(s) && ModelInv(Pop(a))
    requires Waits(a, Pop(a), t, l) && AlwaysWaits(Pop(a), ops, t, l)
    requires TimesServed(Pop(a), ops, s, l) == 0
    requires ServedAt(After(Pop(a), ops), OpPop, l) == Some(s)
    ensures TimesServed(Pop(a), ops, t, l) >= 1
  {
    hide AllLinked, Increasing, Waits, Pop, ServedAt, AlwaysWaits, TimesServed, After;
    WaitsInTables(a, Pop(a), t, l);
    if s in Pop(a).tables[l] {
      PopWithin(a, l, s);
      PopOrder(a, l, t, s);
    }
    ServedBeforeNext(Pop(a), ops, l, s, t);
  }

  // ---- time to live --------------------------------------------------------------------------

  /** A purge drops from each FIFO of the level exactly the expired packets at its front. */
  lemma {:induction false} PurgeFromExact(a: Model, l: nat, now: int, ttl: int, i: nat, t: nat, m: nat)
    requires Shape(a) && AllLinked(a) && l < LEVELS
    ensures Queue(PurgeFrom(a, l, now, ttl, i).items, t, m)
         == if m == l && t in a.tables[l] && (i <= |a.tables[l]| ==> t !in a.tables[l][..i])
              && i <= |a.tables[l]|
            then DropExpired(Queue(a.items, t, l), now, ttl) else Queue(a.items, t, m)
    decreases |a.tables[l]| - i
  {
    if i < |a.tables[l]| {
      var s := a.tables[l][i];
      PurgeStepInv(a, l, now, ttl, i);
      PurgedItemsFacts(a.items, s, l, now, ttl);
      var b := PurgeStep(a, l, now, ttl, i);
      assert Linked(a, l) && Linked(b, l);
      var next := if |b.tables[l]| < |a.tables[l]| then i else i + 1;
      PurgeFromExact(b, l, now, ttl, next, t, m);
      PurgePositions(a.tables[l], i, t);
    }
  }

  lemma PurgePositions(q: seq<nat>, i: nat, t: nat)
    requires NoDup(q) && i < |q|
    ensures t in q[..i + 1] <==> t in q[..i] || t == q[i]
    ensures DropAt(q, i)[..i] == q[..i]
    ensures t in q && t !in q[..i] && t != q[i] <==> t in DropAt(q, i) && t !in q[..i]
    ensures q[i] !in q[..i]
  {
    assert q[..i + 1] == q[..i] + [q[i]];
    DropAtFacts(q, i);
  }

  lemma PurgeExact(a: Model, l: nat, now: int, t: nat, m: nat)
    requires Shape(a) && AllLinked(a) && l < LEVELS
    ensures Queue(Purge(a, l, now).items, t, m)
         == if m == l && a.ttl[l].Some? then DropExpired(Queue(a.items, t, l), now, a.ttl[l].value)
            else Queue(a.items, t, m)
  {
    assert Linked(a, l);
    if a.ttl[l].Some? {
      PurgeFromExact(a, l, now, a.ttl[l].value, 0, t, m);
    }
  }

  /**
   The time to live counts more than the time in the queue: a packet is expired the
   moment it is pushed if and only if the queue had been paused for longer than the
   limit before.
   */
  lemma ExpiredWhenPushed(a: Model, now: int, p: Packet, id: nat, ttl: int)
    requires |a.tables| == LEVELS
    ensures var x := Append(a, now, p, id).items[|a.items|];
            && x.pushed == now
            && (Expired(x, now, ttl) <==> a.pauseSum > ttl)
  {}
}
