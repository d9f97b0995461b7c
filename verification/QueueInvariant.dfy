/** Every operation of the packet queue keeps the representation invariant. */
module QueueInvariant {
  import opened QueueModel
  import opened QueueOps

  /** Nothing is added or reordered. */
  ghost predicate Shrunk(before: seq<Item>, after: seq<Item>) {
    Increasing(after) && |after| <= |before| && forall x | x in after :: x in before
  }

  lemma {:induction false} WithoutFirstShrunk(items: seq<Item>, s: nat, l: nat)
    requires Increasing(items)
    ensures Shrunk(items, WithoutFirst(items, s, l))
  {
    if items != [] {
      TailIncreasing(items);
      if !IsAt(items[0], s, l) {
        WithoutFirstShrunk(items[1..], s, l);
        ConsIncreasing(items, WithoutFirst(items[1..], s, l));
      }
    }
  }

  lemma TailIncreasing(items: seq<Item>)
    requires Increasing(items) && items != []
    ensures Increasing(items[1..])
    ensures forall x | x in items[1..] :: x in items && items[0].id < x.id
  {
    assert forall i | 0 <= i < |items[1..]| :: items[1..][i] == items[i + 1];
  }

  lemma ConsIncreasing(items: seq<Item>, rest: seq<Item>)
    requires items != [] && Increasing(rest)
    requires forall x | x in rest :: items[0].id < x.id
    ensures Increasing([items[0]] + rest)
  {}

  /** The packets of a FIFO from the first one on that is not too old. */
  function DropExpired(q: seq<Item>, now: int, ttl: int): seq<Item> {
    if q == [] || !Expired(q[0], now, ttl) then q else DropExpired(q[1..], now, ttl)
  }

  /** A purge drops the expired packets at the front of one FIFO and touches no other. */
  lemma {:induction false} PurgedItemsFacts(items: seq<Item>, s: nat, l: nat, now: int, ttl: int)
    requires Increasing(items)
    ensures var rest := PurgedItems(items, s, l, now, ttl);
            && Shrunk(items, rest)
            && forall t: nat, m: nat :: Queue(rest, t, m)
                 == if t == s && m == l then DropExpired(Queue(items, s, l), now, ttl) else Queue(items, t, m)
    decreases |items|
  {
    if Queue(items, s, l) != [] && Expired(Queue(items, s, l)[0], now, ttl) {
      var next := WithoutFirst(items, s, l);
      TotalsWithoutFirst(items, s, l, 0);
      WithoutFirstShrunk(items, s, l);
      PurgedItemsFacts(next, s, l, now, ttl);
      forall t: nat, m: nat
        ensures Queue(next, t, m) == if t == s && m == l then Queue(items, s, l)[1..] else Queue(items, t, m)
      {
        QueueWithoutFirst(items, s, l, t, m);
      }
    }
  }

  lemma DropAtFacts(q: seq<nat>, i: nat)
    requires NoDup(q) && i < |q|
    ensures NoDup(DropAt(q, i))
    ensures forall t: nat :: t in DropAt(q, i) <==> t in q && t != q[i]
  {
    var r := DropAt(q, i);
    assert forall j | 0 <= j < |r| :: r[j] == if j < i then q[j] else q[j + 1];
    forall t: nat ensures t in r <==> t in q && t != q[i] {
      if t in q && t != q[i] {
        var j :| 0 <= j < |q| && q[j] == t;
        assert j < i ==> r[j] == t;
        assert j > i ==> r[j - 1] == t;
      }
    }
  }

  /** One table position of a purge. */
  function PurgeStep(a: Model, l: nat, now: int, ttl: int, i: nat): Model
    requires l < |a.tables| && i < |a.tables[l]|
  {
    var s := a.tables[l][i];
    var b := a.(items := PurgedItems(a.items, s, l, now, ttl));
    if Queue(b.items, s, l) == [] then b.(tables := b.tables[l := DropAt(b.tables[l], i)]) else b
  }

  lemma PurgeStepInv(a: Model, l: nat, now: int, ttl: int, i: nat)
    requires Shape(a) && AllLinked(a) && l < LEVELS && i < |a.tables[l]|
    ensures var b := PurgeStep(a, l, now, ttl, i);
            Shape(b) && AllLinked(b)
  {
    var s := a.tables[l][i];
    var b := PurgeStep(a, l, now, ttl, i);
    assert Linked(a, l);
    PurgedItemsFacts(a.items, s, l, now, ttl);
    DropAtFacts(a.tables[l], i);
    forall x | x in b.items ensures ItemOk(b, x) {
      assert ItemOk(a, x);
    }
    forall m: nat | m < |b.tables| ensures Linked(b, m) {
      assert Linked(a, m);
      forall t: nat ensures t in b.tables[m] <==> Queue(b.items, t, m) != [] {
        assert t in a.tables[m] <==> Queue(a.items, t, m) != [];
      }
    }
  }

  lemma {:induction false} PurgeFromInv(a: Model, l: nat, now: int, ttl: int, i: nat)
    requires Shape(a) && AllLinked(a) && l < LEVELS
    ensures var b := PurgeFrom(a, l, now, ttl, i);
            Shape(b) && AllLinked(b) && SameButLevel(a, b, l)
    decreases |a.tables[l]| - i
  {
    PurgeFromFrame(a, l, now, ttl, i);
    if i < |a.tables[l]| {
      hide Shape, AllLinked, SameButLevel;
      PurgeStepInv(a, l, now, ttl, i);
      var b := PurgeStep(a, l, now, ttl, i);
      PurgeFromInv(b, l, now, ttl, if |b.tables[l]| < |a.tables[l]| then i else i + 1);
    }
  }

  lemma PurgeInv(a: Model, l: nat, now: int)
    requires Shape(a) && AllLinked(a) && l < LEVELS
    ensures var b := Purge(a, l, now);
            Shape(b) && AllLinked(b) && SameButLevel(a, b, l)
  {
    if a.ttl[l].Some? { PurgeFromInv(a, l, now, a.ttl[l].value, 0); }
  }

  // ---- the top level --------------------------------------------------------------

  lemma {:induction false} ItemInQueue(items: seq<Item>, x: Item)
    requires x in items
    ensures Queue(items, x.packet.ssrc, x.level) != []
  {
    if items[0] != x {
      assert x in items[1..];
      ItemInQueue(items[1..], x);
    }
  }

  lemma EmptyTablesEmptyQueue(a: Model)
    requires Shape(a) && AllLinked(a) && forall m: nat | m < LEVELS :: a.tables[m] == []
    ensures a.items == []
  {
    if a.items != [] {
      ItemMeansTable(a, a.items[0]);
    }
  }

  lemma ItemMeansTable(a: Model, x: Item)
    requires Shape(a) && AllLinked(a) && x in a.items
    ensures x.level < LEVELS && a.tables[x.level] != []
  {
    assert ItemOk(a, x);
    ItemInQueue(a.items, x);
    assert Linked(a, x.level);
  }

  lemma NonEmptyTableNonEmptyQueue(a: Model, l: nat)
    requires AllLinked(a) && l < |a.tables| && a.tables[l] != []
    ensures a.items != []
  {
    assert Linked(a, l);
    assert a.tables[l][0] in a.tables[l];
  }

  lemma {:induction false} FindTopInv(a: Model, i: nat)
    requires Shape(a) && AllLinked(a) && i <= LEVELS
    requires forall m: nat | m < i :: a.tables[m] == []
    ensures var b := FindTop(a, i);
            && Shape(b) && AllLinked(b)
            && (b.items != [] ==> TopOk(b))
            && b == a.(items := b.items, tables := b.tables, top := b.top)
    decreases LEVELS - i
  {
    if i == LEVELS {
      EmptyTablesEmptyQueue(a);
    } else {
      PurgeInv(a, i, a.lastUpdate);
      var b := Purge(a, i, a.lastUpdate);
      PurgeKeepsTtl(a, i, a.lastUpdate);
      if b.tables[i] != [] {
        TopFound(b, i);
      } else {
        FindTopInv(b, i + 1);
      }
    }
  }

  lemma TopFound(b: Model, i: nat)
    requires Shape(b) && AllLinked(b) && i < LEVELS && b.tables[i] != []
    requires forall m: nat | m < i :: b.tables[m] == []
    ensures var c := b.(top := i); Shape(c) && AllLinked(c) && TopOk(c)
  {
    NonEmptyTableNonEmptyQueue(b, i);
    var c := b.(top := i);
    assert forall x | x in c.items :: ItemOk(b, x);
    forall l: nat | l < |c.tables| ensures Linked(c, l) { assert Linked(b, l); }
  }

  /** Top level bookkeeping after packets were removed. */
  lemma MaybeUpdateTopInv(a: Model)
    requires Shape(a) && AllLinked(a) && -1 <= a.top < LEVELS
    requires forall m: nat | m < LEVELS && m < a.top :: a.tables[m] == []
    ensures ModelInv(MaybeUpdateTop(a))
    ensures var b := MaybeUpdateTop(a); b == a.(items := b.items, tables := b.tables, top := b.top)
  {
    if a.top != -1 && a.tables[a.top] != [] {
      NonEmptyTableNonEmptyQueue(a, a.top);
    } else {
      FindTopInv(a, 0);
      var b := FindTop(a, 0);
      if b.items == [] { SetTopNone(b); }
    }
  }

  lemma SetTopNone(b: Model)
    requires Shape(b) && AllLinked(b) && b.items == []
    ensures ModelInv(b.(top := -1))
  {
    var c := b.(top := -1);
    forall l: nat | l < |c.tables| ensures Linked(c, l) { assert Linked(b, l); }
  }

  // ---- the operations ---------------------------------------------------------------

  lemma UpdateTimeInv(a: Model, now: int)
    requires Shape(a) && AllLinked(a)
    ensures Shape(UpdateTime(a, now)) && AllLinked(UpdateTime(a, now))
    ensures TopOk(a) ==> TopOk(UpdateTime(a, now))
  {
    var b := UpdateTime(a, now);
    assert forall x | x in b.items :: ItemOk(a, x);
    forall l: nat | l < |b.tables| ensures Linked(b, l) { assert Linked(a, l); }
  }

  lemma AddStreamInv(a: Model, s: nat, now: int)
    requires ModelInv(a)
    ensures ModelInv(AddStream(a, s, now).(next := a.next + 1))
  {
    var b := AddStream(a, s, now).(next := a.next + 1);
    assert forall x | x in b.items :: ItemOk(a, x);
    forall l: nat | l < |b.tables| ensures Linked(b, l) { assert Linked(a, l); }
  }

  /** A pushed packet joins its FIFO, and its stream the table if it was not in it. */
  lemma AppendInv(a: Model, now: int, p: Packet, id: nat)
    requires Shape(a) && AllLinked(a) && now == a.lastUpdate && p.ssrc in a.streams
    requires id < a.next && forall x | x in a.items :: x.id < id
    ensures Shape(Append(a, now, p, id)) && AllLinked(Append(a, now, p, id))
  {
    var l := LevelOf(a, p);
    var b := Append(a, now, p, id);
    forall x | x in b.items ensures ItemOk(b, x) {
      assert x in a.items ==> ItemOk(a, x);
    }
    forall m: nat | m < |b.tables| ensures Linked(b, m) {
      assert Linked(a, m);
      forall t: nat ensures t in b.tables[m] <==> Queue(b.items, t, m) != [] {
        QueueAppend(a.items, b.items[|a.items|], t, m);
        assert t in a.tables[m] <==> Queue(a.items, t, m) != [];
      }
    }
  }

  lemma AppendTop(a: Model, now: int, p: Packet, id: nat)
    requires Shape(a) && AllLinked(a) && -1 <= a.top < LEVELS
    requires forall m: nat | m < LEVELS && m < a.top :: a.tables[m] == []
    requires a.top == -1 ==> a.items == []
    requires a.top != -1 ==> a.tables[a.top] != [] || a.top == LevelOf(a, p)
    requires AllLinked(Append(a, now, p, id))
    ensures TopOk(Append(a, now, p, id))
  {
    var l := LevelOf(a, p);
    var b := Append(a, now, p, id);
    assert Linked(a, l) && Linked(b, l);
    QueueAppend(a.items, b.items[|a.items|], p.ssrc, l);
    assert p.ssrc in b.tables[l];
    if a.top == -1 { NoItemsNoTables(a); }
  }

  lemma NoItemsNoTables(a: Model)
    requires AllLinked(a) && a.items == []
    ensures forall m: nat | m < |a.tables| :: a.tables[m] == []
  {
    forall m: nat | m < |a.tables| ensures a.tables[m] == [] {
      if a.tables[m] != [] { NonEmptyTableNonEmptyQueue(a, m); }
    }
  }

  /** Only streams without packets are forgotten, so no table names a forgotten stream. */
  lemma CullInv(a: Model, now: int)
    requires ModelInv(a)
    ensures ModelInv(Cull(a, now))
  {
    var b := Cull(a, now);
    forall x | x in b.items ensures ItemOk(b, x) {
      assert ItemOk(a, x);
      ItemInQueue(a.items, x);
    }
    forall l: nat | l < |b.tables| ensures Linked(b, l) { assert Linked(a, l); }
  }

  /** The queue after a push, before idle streams are forgotten. */
  function Pushed(a: Model, now: int, p: Packet): Model
    requires |a.tables| == |a.ttl| == LEVELS
  {
    var b := AddStream(a, p.ssrc, now).(next := a.next + 1);
    Append(UpdateTime(Purge(b, LevelOf(a, p), now), now), now, p, a.next)
  }

  lemma PushedInv(a: Model, now: int, p: Packet)
    requires ModelInv(a)
    ensures ModelInv(Pushed(a, now, p))
  {
    hide Shape, AllLinked, Purge, UpdateTime, Append, TopOk, AddStream, LevelOf;
    var b := AddStream(a, p.ssrc, now).(next := a.next + 1);
    AddStreamInv(a, p.ssrc, now);
    AddStreamFrame(a, p.ssrc, now);
    var l := LevelOf(a, p);
    PurgeInv(b, l, now);
    PurgeShrinks(b, l, now);
    var c := Purge(b, l, now);
    UpdateTimeInv(c, now);
    UpdateTimeFrame(c, now);
    var d := UpdateTime(c, now);
    OldIds(a, c.items);
    AppendInv(d, now, p, a.next);
    SameLevel(a, d, p);
    PurgedTop(b, l, now);
    AppendTop(d, now, p, a.next);
  }

  lemma AddStreamFrame(a: Model, s: nat, now: int)
    ensures var b := AddStream(a, s, now).(next := a.next + 1);
            && b.items == a.items && b.top == a.top && b.next == a.next + 1 && s in b.streams
            && b.splitRetransmissions == a.splitRetransmissions && |b.tables| == |a.tables| && b.ttl == a.ttl
  {}

  lemma OldIds(a: Model, items: seq<Item>)
    requires Shape(a) && Shrunk(a.items, items)
    ensures forall x | x in items :: x.id < a.next
  {
    assert forall x | x in a.items :: ItemOk(a, x);
  }

  lemma SameLevel(a: Model, d: Model, p: Packet)
    requires d.splitRetransmissions == a.splitRetransmissions
    ensures LevelOf(d, p) == LevelOf(a, p)
  {}

  /** A purge empties at most its own level, and an empty level stays as it is. */
  lemma PurgedTop(b: Model, l: nat, now: int)
    requires TopOk(b) && |b.tables| == |b.ttl| && l < |b.tables|
    requires SameButLevel(b, Purge(b, l, now), l) && Shrunk(b.items, Purge(b, l, now).items)
    ensures var c := Purge(b, l, now);
            && c.top == b.top && -1 <= c.top < |b.tables|
            && (forall m: nat | m < |b.tables| && m < c.top :: c.tables[m] == [])
            && (c.top == -1 ==> c.items == [])
            && (c.top != -1 ==> c.tables[c.top] != [] || c.top == l)
  {
    hide Purge;
    if b.tables[l] == [] { PurgeEmpty(b, l, now); }
  }

  lemma PurgeEmpty(b: Model, l: nat, now: int)
    requires l < |b.tables| == |b.ttl| && b.tables[l] == []
    ensures Purge(b, l, now) == b
  {}

  lemma PushInv(a: Model, now: int, p: Packet)
    requires ModelInv(a)
    ensures ModelInv(Push(a, now, p))
  {
    hide Append, UpdateTime, Purge, Cull, AddStream;
    PushedInv(a, now, p);
    CullInv(Pushed(a, now, p), now);
  }

  lemma UpdateTimeFrame(a: Model, now: int)
    ensures var b := UpdateTime(a, now);
            && b.items == a.items && b.tables == a.tables && b.streams == a.streams && b.top == a.top
            && b.next == a.next && b.lastUpdate == now && b.splitRetransmissions == a.splitRetransmissions
            && b.ttl == a.ttl
  {}

  lemma PurgeShrinks(a: Model, l: nat, now: int)
    requires Shape(a) && AllLinked(a) && l < LEVELS
    ensures Shrunk(a.items, Purge(a, l, now).items)
  {
    if a.ttl[l].Some? { PurgeFromShrinks(a, l, now, a.ttl[l].value, 0); }
  }

  lemma {:induction false} PurgeFromShrinks(a: Model, l: nat, now: int, ttl: int, i: nat)
    requires Shape(a) && AllLinked(a) && l < LEVELS
    ensures Shrunk(a.items, PurgeFrom(a, l, now, ttl, i).items)
    decreases |a.tables[l]| - i
  {
    if i < |a.tables[l]| {
      PurgedItemsFacts(a.items, a.tables[l][i], l, now, ttl);
      PurgeStepInv(a, l, now, ttl, i);
      var b := PurgeStep(a, l, now, ttl, i);
      PurgeFromShrinks(b, l, now, ttl, if |b.tables[l]| < |a.tables[l]| then i else i + 1);
    }
  }

  /** The head of a table moves to its end or leaves it. */
  function Rotated(q: seq<nat>, again: bool): seq<nat>
    requires q != []
  {
    q[1..] + (if again then [q[0]] else [])
  }

  lemma RotatedFacts(q: seq<nat>, again: bool)
    requires NoDup(q) && q != []
    ensures NoDup(Rotated(q, again))
    ensures forall t: nat :: t in Rotated(q, again) <==> t in q && (t != q[0] || again)
  {
    assert q == [q[0]] + q[1..];
    assert forall i | 0 <= i < |q[1..]| :: q[1..][i] == q[i + 1];
  }

  /** The queue after the front packet of the front stream is taken, before a new top is sought. */
  function Taken(a: Model, l: nat): Model
    requires l < |a.tables| && a.tables[l] != []
  {
    var s := a.tables[l][0];
    var rest := WithoutFirst(a.items, s, l);
    a.(items := rest, tables := a.tables[l := Rotated(a.tables[l], Queue(rest, s, l) != [])])
  }

  lemma TakenInv(a: Model, l: nat)
    requires Shape(a) && AllLinked(a) && l < LEVELS && a.tables[l] != []
    ensures Shape(Taken(a, l)) && AllLinked(Taken(a, l))
  {
    var s := a.tables[l][0];
    var b := Taken(a, l);
    assert Linked(a, l);
    assert s in a.tables[l];
    WithoutFirstShrunk(a.items, s, l);
    forall x | x in b.items ensures ItemOk(b, x) { assert ItemOk(a, x); }
    RotatedFacts(a.tables[l], Queue(b.items, s, l) != []);
    forall m: nat | m < |b.tables| ensures Linked(b, m) {
      assert Linked(a, m);
      forall t: nat ensures t in b.tables[m] <==> Queue(b.items, t, m) != [] {
        QueueWithoutFirst(a.items, s, l, t, m);
        assert t in a.tables[m] <==> Queue(a.items, t, m) != [];
      }
    }
  }

  lemma PopInv(a: Model)
    requires ModelInv(a)
    ensures ModelInv(Pop(a))
  {
    if Popped(a).Some? {
      var l := a.top;
      TakenInv(a, l);
      var b := Taken(a, l);
      if Queue(b.items, a.tables[l][0], l) != [] {
        NonEmptyTableNonEmptyQueue(b, l);
      } else {
        MaybeUpdateTopInv(b);
      }
    }
  }

  lemma {:induction false} WithoutStreamFacts(items: seq<Item>, s: nat, t: nat, m: nat)
    requires Increasing(items)
    ensures Shrunk(items, WithoutStream(items, s))
    ensures Queue(WithoutStream(items, s), t, m) == if t == s then [] else Queue(items, t, m)
  {
    if items != [] {
      TailIncreasing(items);
      WithoutStreamFacts(items[1..], s, t, m);
      if items[0].packet.ssrc != s {
        ConsIncreasing(items, WithoutStream(items[1..], s));
        assert WithoutStream(items, s)[1..] == WithoutStream(items[1..], s);
      }
    }
  }

  lemma {:induction false} WithoutFacts(q: seq<nat>, s: nat)
    ensures forall t: nat :: t in Without(q, s) <==> t in q && t != s
    ensures NoDup(q) ==> NoDup(Without(q, s))
  {
    if q != [] {
      WithoutFacts(q[1..], s);
      assert q == [q[0]] + q[1..];
      assert NoDup(q) ==> NoDup(q[1..]) && q[0] !in q[1..] by {
        assert forall i | 0 <= i < |q[1..]| :: q[1..][i] == q[i + 1];
      }
    }
  }

  lemma {:induction false} WithoutAbsent(q: seq<nat>, s: nat)
    requires s !in q
    ensures Without(q, s) == q
  {
    if q != [] { WithoutAbsent(q[1..], s); }
  }

  /** Removing a stream leaves the tables in step with the list. */
  lemma RemovedLinked(a: Model, s: nat)
    requires ModelInv(a)
    ensures var b := a.(items := WithoutStream(a.items, s),
                        tables := seq(LEVELS, l requires 0 <= l < LEVELS => Without(a.tables[l], s)));
            Shape(b) && AllLinked(b) && forall m: nat | m < LEVELS && m < b.top :: b.tables[m] == []
  {
    var b := a.(items := WithoutStream(a.items, s),
                tables := seq(LEVELS, l requires 0 <= l < LEVELS => Without(a.tables[l], s)));
    WithoutStreamFacts(a.items, s, 0, 0);
    forall x | x in b.items ensures ItemOk(b, x) { assert ItemOk(a, x); }
    forall m: nat | m < |b.tables| ensures Linked(b, m) {
      assert Linked(a, m);
      WithoutFacts(a.tables[m], s);
      forall t: nat ensures t in b.tables[m] <==> Queue(b.items, t, m) != [] {
        WithoutStreamFacts(a.items, s, t, m);
        assert t in a.tables[m] <==> Queue(a.items, t, m) != [];
      }
    }
  }

  lemma RemoveInv(a: Model, s: nat)
    requires ModelInv(a)
    ensures ModelInv(RemoveSsrc(a, s))
  {
    RemovedLinked(a, s);
    MaybeUpdateTopInv(a.(items := WithoutStream(a.items, s),
                         tables := seq(LEVELS, l requires 0 <= l < LEVELS => Without(a.tables[l], s))));
  }
}
