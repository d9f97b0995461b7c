/**
 The packet queue over whole histories of operations: which media type is served before
 which, how long a packet has waited apart from pauses, and how packets leave.
 */
module QueueHistory {
  import opened Wrappers
  import opened QueueModel
  import opened QueueOps
  import opened QueueInvariant
  import opened QueueService

  // ---- priorities in media types -----------------------------------------------------------

  predicate IsVideoRetransmission(p: Packet) {
    p.media.Retransmission? && p.original == Some(OriginalVideo)
  }

  /** `p` goes before `q` whenever both wait. */
  predicate Precedes(split: bool, p: Packet, q: Packet) {
    match p.media
    case Audio => !q.media.Audio?
    case Retransmission =>
      || q.media.Video? || q.media.ForwardErrorCorrection? || q.media.Padding?
      || (split && q.media.Retransmission? && IsVideoRetransmission(q) && !IsVideoRetransmission(p))
    case Video => q.media.Padding?
    case ForwardErrorCorrection => q.media.Padding?
    case Padding => false
  }

  /** Levels are compared as media types are: two packets share one exactly if neither goes first. */
  lemma LevelsByMedia(a: Model, x: Item, y: Item)
    requires ModelInv(a) && x in a.items && y in a.items
    ensures x.level < y.level <==> Precedes(a.splitRetransmissions, x.packet, y.packet)
    ensures x.level == y.level <==>
              !Precedes(a.splitRetransmissions, x.packet, y.packet)
              && !Precedes(a.splitRetransmissions, y.packet, x.packet)
  {
    assert ItemOk(a, x) && ItemOk(a, y);
  }

  /**
   The service order in media types: audio whenever audio waits, video and redundancy only
   if neither audio nor a retransmission does, padding only if nothing else does, and of
   the retransmissions those of video last, if they are told apart.
   */
  lemma PopByMedia(a: Model)
    requires ModelInv(a) && Popped(a).Some?
    ensures var p := Popped(a).value.packet;
            forall y | y in a.items ::
              && !Precedes(a.splitRetransmissions, y.packet, p)
              && (y.packet.media.Audio? ==> p.media.Audio?)
              && (p.media.Padding? ==> y.packet.media.Padding?)
              && ((p.media.Video? || p.media.ForwardErrorCorrection?) ==>
                    !y.packet.media.Audio? && !y.packet.media.Retransmission?)
              && (a.splitRetransmissions && IsVideoRetransmission(p) && y.packet.media.Retransmission? ==>
                    IsVideoRetransmission(y.packet))
  {
    PopServesBest(a);
    var x := Popped(a).value;
    forall y | y in a.items
      ensures !Precedes(a.splitRetransmissions, y.packet, x.packet) && x.level <= y.level
    {
      LevelsByMedia(a, y, x);
    }
  }

  /** The time to live of a waiting packet, by its media type. */
  lemma LimitByMedia(a: Model, limits: Limits, x: Item)
    requires ModelInv(a) && a.ttl == TtlPerLevel(limits) && x in a.items
    ensures x.level < |a.ttl|
    ensures a.ttl[x.level]
         == match x.packet.media
            case Audio => None
            case Padding => None
            case Video => limits.video
            case ForwardErrorCorrection => limits.video
            case Retransmission =>
              if a.splitRetransmissions && IsVideoRetransmission(x.packet) then limits.videoRetransmission
              else limits.audioRetransmission
  {
    assert ItemOk(a, x);
  }

  // ---- one operation -----------------------------------------------------------------------

  /** The operation tells the queue the time. */
  predicate Timed(op: Op) {
    op.OpPush? || op.OpUpdate? || op.OpPause?
  }

  /** What an operation does to the clocks: a gap counts as a pause or as waiting time. */
  ghost predicate ClocksMove(a: Model, op: Op, b: Model) {
    if Timed(op) then
      && b.lastUpdate == op.now
      && b.live == a.live + (if a.paused then 0 else op.now - a.lastUpdate)
      && b.pauseSum == a.pauseSum + (if a.paused then op.now - a.lastUpdate else 0)
      && b.paused == (if op.OpPause? then op.pause else a.paused)
    else
      b.lastUpdate == a.lastUpdate && b.live == a.live && b.pauseSum == a.pauseSum && b.paused == a.paused
  }

  /** The packet a push adds. */
  predicate IsNew(a: Model, op: Op, b: Model, x: Item) {
    op.OpPush? && x.id == a.next && x.pushed == op.now && x.packet == op.packet && x.born == b.live
    && x.pausedBefore == b.pauseSum
  }

  ghost predicate ItemsMove(a: Model, op: Op, b: Model) {
    && b.next == a.next + (if op.OpPush? then 1 else 0)
    && forall x | x in b.items :: x in a.items || IsNew(a, op, b, x)
  }

  lemma StepMoves(a: Model, op: Op)
    requires ModelInv(a)
    ensures ClocksMove(a, op, Step(a, op)) && ItemsMove(a, op, Step(a, op))
  {
    match op
    case OpPush(now, p) => PushMoves(a, now, p);
    case OpPop => PopMoves(a);
    case OpUpdate(now) =>
    case OpPause(pause, now) =>
    case OpRemove(s) => RemoveMoves(a, s);
  }

  lemma PushMoves(a: Model, now: int, p: Packet)
    requires ModelInv(a)
    ensures ClocksMove(a, OpPush(now, p), Push(a, now, p)) && ItemsMove(a, OpPush(now, p), Push(a, now, p))
  {
    hide AllLinked, TopOk, Purge, LevelOf, Queue, Idle;
    var b := AddStream(a, p.ssrc, now).(next := a.next + 1);
    AddStreamInv(a, p.ssrc, now);
    PurgeInv(b, LevelOf(a, p), now);
    PurgeShrinks(b, LevelOf(a, p), now);
    var c := Purge(b, LevelOf(a, p), now);
    assert c == b.(items := c.items, tables := c.tables);
  }

  lemma TopMoves(a: Model)
    requires Shape(a) && AllLinked(a) && -1 <= a.top < LEVELS
    requires forall m: nat | m < LEVELS && m < a.top :: a.tables[m] == []
    ensures var b := MaybeUpdateTop(a);
            && b == a.(items := b.items, tables := b.tables, top := b.top)
            && forall x | x in b.items :: x in a.items
  {
    MaybeUpdateTopInv(a);
    if a.top == -1 || a.tables[a.top] == [] { FindTopShrinks(a, 0); }
  }

  lemma {:induction false} FindTopShrinks(a: Model, i: nat)
    requires Shape(a) && AllLinked(a) && i <= LEVELS
    ensures forall x | x in FindTop(a, i).items :: x in a.items
    decreases LEVELS - i
  {
    if i < LEVELS {
      PurgeInv(a, i, a.lastUpdate);
      PurgeShrinks(a, i, a.lastUpdate);
      PurgeKeepsTtl(a, i, a.lastUpdate);
      FindTopShrinks(Purge(a, i, a.lastUpdate), i + 1);
    }
  }

  lemma PopMoves(a: Model)
    requires ModelInv(a)
    ensures ClocksMove(a, OpPop, Pop(a)) && ItemsMove(a, OpPop, Pop(a))
  {
    if Popped(a).Some? {
      hide AllLinked, Shape, MaybeUpdateTop;
      var b := Taken(a, a.top);
      TakenInv(a, a.top);
      assert forall x | x in b.items :: x in a.items by { FirstShrinks(a, a.tables[a.top][0], a.top); }
      if Queue(b.items, a.tables[a.top][0], a.top) == [] { TopMoves(b); }
    }
  }

  lemma FirstShrinks(a: Model, s: nat, l: nat)
    requires Shape(a)
    ensures forall x | x in WithoutFirst(a.items, s, l) :: x in a.items
  {
    WithoutFirstShrunk(a.items, s, l);
  }

  lemma RemoveMoves(a: Model, s: nat)
    requires ModelInv(a)
    ensures ClocksMove(a, OpRemove(s), RemoveSsrc(a, s)) && ItemsMove(a, OpRemove(s), RemoveSsrc(a, s))
  {
    WithoutStreamFacts(a.items, s, 0, 0);
    RemovedLinked(a, s);
    TopMoves(a.(items := WithoutStream(a.items, s),
                tables := seq(LEVELS, l requires 0 <= l < LEVELS => Without(a.tables[l], s))));
  }

  // ---- how packets leave -------------------------------------------------------------------

  predicate TooOld(a: Model, x: Item, now: int) {
    x.level < |a.ttl| && a.ttl[x.level].Some? && Expired(x, now, a.ttl[x.level].value)
  }

  lemma {:induction false} DropExpiredKeeps(q: seq<Item>, now: int, ttl: int, x: Item)
    requires x in q && !Expired(x, now, ttl)
    ensures x in DropExpired(q, now, ttl)
  {
    if Expired(q[0], now, ttl) { DropExpiredKeeps(q[1..], now, ttl, x); }
  }

  /** A purge drops only packets that are too old. */
  lemma PurgeKeeps(a: Model, l: nat, now: int, x: Item)
    requires Shape(a) && AllLinked(a) && l < LEVELS && x in a.items && !TooOld(a, x, now)
    ensures x in Purge(a, l, now).items
  {
    hide Purge;
    assert ItemOk(a, x);
    hide Shape, AllLinked;
    var s := x.packet.ssrc;
    MemberOfQueue(a.items, x);
    PurgeExact(a, l, now, s, x.level);
    if x.level == l && a.ttl[l].Some? { DropExpiredKeeps(Queue(a.items, s, l), now, a.ttl[l].value, x); }
    InQueueInItems(Purge(a, l, now).items, s, x.level, x);
  }

  lemma {:induction false} MemberOfQueue(items: seq<Item>, x: Item)
    requires x in items
    ensures x in Queue(items, x.packet.ssrc, x.level)
  {
    if items[0] != x { MemberOfQueue(items[1..], x); }
  }

  lemma {:induction false} FindTopKeeps(a: Model, i: nat, x: Item)
    requires Shape(a) && AllLinked(a) && i <= LEVELS && x in a.items && !TooOld(a, x, a.lastUpdate)
    ensures x in FindTop(a, i).items
    decreases LEVELS - i
  {
    if i < LEVELS {
      var b := Purge(a, i, a.lastUpdate);
      PurgeInv(a, i, a.lastUpdate);
      PurgeKeeps(a, i, a.lastUpdate, x);
      PurgeKeepsTtl(a, i, a.lastUpdate);
      assert b == a.(items := b.items, tables := b.tables);
      FindTopKeeps(b, i + 1, x);
    }
  }

  lemma {:induction false} OnlyFirstTaken(items: seq<Item>, s: nat, l: nat, x: Item)
    requires Increasing(items) && x in items && Queue(items, s, l) != []
    ensures x in WithoutFirst(items, s, l) <==> x != Queue(items, s, l)[0]
  {
    TailIncreasing(items);
    if !IsAt(items[0], s, l) {
      QueueMember(items[1..], s, l, 0);
      if x != items[0] { OnlyFirstTaken(items[1..], s, l, x); }
    }
  }

  lemma {:induction false} OnlyStreamRemoved(items: seq<Item>, s: nat, x: Item)
    requires x in items
    ensures x in WithoutStream(items, s) <==> x.packet.ssrc != s
  {
    if x in items[1..] {
      OnlyStreamRemoved(items[1..], s, x);
    } else if x.packet.ssrc == s {
      NoneOfStream(items[1..], s);
    }
  }

  lemma {:induction false} NoneOfStream(items: seq<Item>, s: nat)
    ensures forall x | x in WithoutStream(items, s) :: x.packet.ssrc != s
  {
    if items != [] { NoneOfStream(items[1..], s); }
  }

  /**
   Packets leave the queue in three ways only: served by a pop, removed with their stream,
   or dropped because they are too old. The first two they always do.
   */
  lemma PacketsLeave(a: Model, op: Op, x: Item)
    requires ModelInv(a) && x in a.items
    ensures x !in Step(a, op).items ==>
              || (op.OpPop? && Popped(a) == Some(x))
              || (op.OpRemove? && op.ssrc == x.packet.ssrc)
              || TooOld(a, x, if op.OpPush? then op.now else a.lastUpdate)
    ensures (op.OpPop? && Popped(a) == Some(x)) || (op.OpRemove? && op.ssrc == x.packet.ssrc) ==>
              x !in Step(a, op).items
  {
    match op
    case OpPush(now, p) => if !TooOld(a, x, now) { PushKeeps(a, now, p, x); }
    case OpPop => PopKeeps(a, x);
    case OpUpdate(now) =>
    case OpPause(pause, now) =>
    case OpRemove(s) => RemoveKeeps(a, s, x);
  }

  lemma PushKeeps(a: Model, now: int, p: Packet, x: Item)
    requires ModelInv(a) && x in a.items && !TooOld(a, x, now)
    ensures x in Push(a, now, p).items
  {
    hide AllLinked, TopOk, Purge, LevelOf, Queue, Idle, TooOld;
    var b := AddStream(a, p.ssrc, now).(next := a.next + 1);
    AddStreamInv(a, p.ssrc, now);
    SameLimits(a, b, x, now);
    PurgeKeeps(b, LevelOf(a, p), now, x);
  }

  lemma SameLimits(a: Model, b: Model, x: Item, now: int)
    requires a.ttl == b.ttl
    ensures TooOld(a, x, now) <==> TooOld(b, x, now)
  {}

  lemma TopKeeps(a: Model, x: Item)
    requires Shape(a) && AllLinked(a) && -1 <= a.top < LEVELS && x in a.items && !TooOld(a, x, a.lastUpdate)
    ensures x in MaybeUpdateTop(a).items
  {
    if a.top == -1 || a.tables[a.top] == [] { FindTopKeeps(a, 0, x); }
  }

  lemma PopKeeps(a: Model, x: Item)
    requires ModelInv(a) && x in a.items
    ensures x !in Pop(a).items ==> Popped(a) == Some(x) || TooOld(a, x, a.lastUpdate)
    ensures Popped(a) == Some(x) ==> x !in Pop(a).items
  {
    if Popped(a).Some? {
      var s, l := a.tables[a.top][0], a.top;
      OnlyFirstTaken(a.items, s, l, x);
      var b := Taken(a, l);
      TakenInv(a, l);
      hide AllLinked, Shape, MaybeUpdateTop, TooOld;
      SameLimits(a, b, x, a.lastUpdate);
      if Queue(b.items, s, l) == [] {
        TopMoves(b);
        if x in b.items && !TooOld(b, x, a.lastUpdate) { TopKeeps(b, x); }
      }
    }
  }

  lemma RemoveKeeps(a: Model, s: nat, x: Item)
    requires ModelInv(a) && x in a.items
    ensures x !in RemoveSsrc(a, s).items ==> s == x.packet.ssrc || TooOld(a, x, a.lastUpdate)
    ensures s == x.packet.ssrc ==> x !in RemoveSsrc(a, s).items
  {
    var b := a.(items := WithoutStream(a.items, s),
                tables := seq(LEVELS, l requires 0 <= l < LEVELS => Without(a.tables[l], s)));
    RemovedLinked(a, s);
    OnlyStreamRemoved(a.items, s, x);
    TopMoves(b);
    SameLimits(a, b, x, a.lastUpdate);
    if x in b.items && !TooOld(b, x, a.lastUpdate) { TopKeeps(b, x); }
  }

  lemma {:induction false} DropExpiredHead(q: seq<Item>, now: int, ttl: int)
    ensures var r := DropExpired(q, now, ttl); r != [] ==> r[0] in q && !Expired(r[0], now, ttl)
  {
    if q != [] && Expired(q[0], now, ttl) { DropExpiredHead(q[1..], now, ttl); }
  }

  /** After a purge no stream has a packet at the front of the level that is too old. */
  lemma PurgedFront(a: Model, l: nat, now: int, s: nat)
    requires Shape(a) && AllLinked(a) && l < LEVELS && Queue(Purge(a, l, now).items, s, l) != []
    ensures !TooOld(a, Queue(Purge(a, l, now).items, s, l)[0], now)
  {
    hide Purge, AllLinked;
    PurgeExact(a, l, now, s, l);
    QueueMember(Purge(a, l, now).items, s, l, 0);
    if l < |a.ttl| && a.ttl[l].Some? { DropExpiredHead(Queue(a.items, s, l), now, a.ttl[l].value); }
  }

  /** A push leaves no packet that is too old at the front of its level. */
  lemma PushPurges(a: Model, now: int, p: Packet, s: nat)
    requires ModelInv(a)
    ensures var q := Queue(Push(a, now, p).items, s, LevelOf(a, p));
            q != [] && q[0].id != a.next ==> !TooOld(a, q[0], now)
  {
    hide AllLinked, TopOk, Purge, LevelOf, Queue, Idle, TooOld;
    var l := LevelOf(a, p);
    var b := AddStream(a, p.ssrc, now).(next := a.next + 1);
    AddStreamInv(a, p.ssrc, now);
    PushAppends(a, now, p, l);
    var c := PushPurged(a, now, p);
    var y: Item :| y.id == a.next && Push(a, now, p).items == c.items + [y];
    QueueAppend(c.items, y, s, l);
    if Queue(c.items, s, l) != [] {
      PurgedFront(b, l, now, s);
      SameLimits(a, b, Queue(c.items, s, l)[0], now);
    }
  }

  /** Nor does the search for a new top level, at that level. */
  lemma {:induction false} TopPurged(a: Model, i: nat, s: nat)
    requires Shape(a) && AllLinked(a) && i <= LEVELS && (forall m: nat | m < i :: a.tables[m] == [])
    ensures var b := FindTop(a, i);
            b.items != [] && 0 <= b.top < LEVELS && Queue(b.items, s, b.top) != [] ==>
              !TooOld(a, Queue(b.items, s, b.top)[0], a.lastUpdate)
    decreases LEVELS - i
  {
    hide TooOld, Purge, Queue;
    if i == LEVELS {
      EmptyTablesEmptyQueue(a);
    } else {
      var b := Purge(a, i, a.lastUpdate);
      PurgeInv(a, i, a.lastUpdate);
      PurgeShrinks(a, i, a.lastUpdate);
      PurgeKeepsTtl(a, i, a.lastUpdate);
      if b.tables[i] != [] {
        if Queue(b.items, s, i) != [] { PurgedFront(a, i, a.lastUpdate, s); }
      } else {
        TopPurged(b, i + 1, s);
        TooOldAlike(a, b);
      }
    }
  }

  lemma TooOldAlike(a: Model, b: Model)
    requires a.ttl == b.ttl
    ensures forall x, now :: TooOld(a, x, now) <==> TooOld(b, x, now)
  {}

  /**
   Streams are forgotten only by a cull, at most every half second, and exactly if nothing
   of them waits and they were created more than half a second ago.
   */
  lemma CullExact(a: Model, now: int, s: nat)
    requires ModelInv(a)
    ensures s in Cull(a, now).streams <==>
              && s in a.streams
              && (|| now - a.lastCulling <= 500_000 || now <= a.streams[s] + 500_000
                  || exists x | x in a.items :: x.packet.ssrc == s)
    ensures s in Cull(a, now).streams ==> Cull(a, now).streams[s] == a.streams[s]
    ensures Cull(a, now).items == a.items
    ensures Cull(a, now).lastCulling == if now - a.lastCulling <= 500_000 then a.lastCulling else now
  {
    if s in a.streams {
      if exists x | x in a.items :: x.packet.ssrc == s {
        var x :| x in a.items && x.packet.ssrc == s;
        assert ItemOk(a, x);
        MemberOfQueue(a.items, x);
        assert Queue(a.items, s, x.level) != [];
      } else {
        forall l | 0 <= l < LEVELS ensures Queue(a.items, s, l) == [] {
          if Queue(a.items, s, l) != [] { QueueMember(a.items, s, l, 0); }
        }
      }
    }
  }

  /** After a push: the streams known before or pushed now, with their first push, unless culled. */
  lemma PushStreams(a: Model, now: int, p: Packet, s: nat)
    requires ModelInv(a)
    ensures var b := Push(a, now, p);
            && (s in b.streams <==>
                  && (s in a.streams || s == p.ssrc)
                  && (|| now - a.lastCulling <= 500_000 || (s in a.streams && now <= a.streams[s] + 500_000)
                      || exists x | x in b.items :: x.packet.ssrc == s))
            && (s in b.streams ==> b.streams[s] == if s in a.streams then a.streams[s] else now)
            && b.lastCulling == if now - a.lastCulling <= 500_000 then a.lastCulling else now
  {
    var c := Pushed(a, now, p);
    PushedInv(a, now, p);
    PushedFrame(a, now, p);
    hide ModelInv, Cull, Pushed;
    CullExact(c, now, s);
    assert c.items[|c.items| - 1] in c.items;
  }

  lemma PushedFrame(a: Model, now: int, p: Packet)
    requires ModelInv(a)
    ensures var c := Pushed(a, now, p);
            && c.lastCulling == a.lastCulling && Push(a, now, p) == Cull(c, now)
            && c.streams == (if p.ssrc in a.streams then a.streams else a.streams[p.ssrc := now])
            && c.items != [] && c.items[|c.items| - 1].packet == p
  {
    hide AllLinked, TopOk, Purge, LevelOf, Queue, Cull;
    var b := AddStream(a, p.ssrc, now).(next := a.next + 1);
    AddStreamInv(a, p.ssrc, now);
    PurgeInv(b, LevelOf(a, p), now);
    var c := Purge(b, LevelOf(a, p), now);
    assert c == b.(items := c.items, tables := c.tables);
  }

  // ---- histories ---------------------------------------------------------------------------

  /** The last time the queue was told, and whether it was last told to pause. */
  function LastTime(ops: seq<Op>, created: int): int {
    if ops == [] then created
    else if Timed(ops[|ops| - 1]) then ops[|ops| - 1].now
    else LastTime(ops[..|ops| - 1], created)
  }

  function PausedAfter(ops: seq<Op>): bool {
    ops != [] &&
    if ops[|ops| - 1].OpPause? then ops[|ops| - 1].pause else PausedAfter(ops[..|ops| - 1])
  }

  /** The time that has passed while the queue was not told to pause. */
  function Unpaused(ops: seq<Op>, created: int): int {
    if ops == [] then 0
    else
      var init := ops[..|ops| - 1];
      Unpaused(init, created)
      + if Timed(ops[|ops| - 1]) && !PausedAfter(init) then ops[|ops| - 1].now - LastTime(init, created) else 0
  }

  function Pushes(ops: seq<Op>): nat {
    if ops == [] then 0 else Pushes(ops[..|ops| - 1]) + if ops[|ops| - 1].OpPush? then 1 else 0
  }

  /** The position of the push number `id`. */
  function PushOf(ops: seq<Op>, id: nat): (k: nat)
    requires id < Pushes(ops)
    ensures k < |ops| && ops[k].OpPush? && Pushes(ops[..k]) == id
  {
    if id < Pushes(ops[..|ops| - 1]) then
      var k := PushOf(ops[..|ops| - 1], id);
      assert ops[..|ops| - 1][..k] == ops[..k];
      k
    else |ops| - 1
  }

  /** The unpaused time since the push number `id`. */
  function Waited(ops: seq<Op>, created: int, id: nat): int
    requires id < Pushes(ops)
  {
    Unpaused(ops, created) - Unpaused(ops[..PushOf(ops, id) + 1], created)
  }

  /** The item is the packet of its push, and remembers the clocks of that moment. */
  ghost predicate Recorded(ops: seq<Op>, created: int, x: Item) {
    && x.id < Pushes(ops)
    && var k := PushOf(ops, x.id);
       && ops[k] == OpPush(x.pushed, x.packet)
       && x.born == Unpaused(ops[..k + 1], created)
       && x.pausedBefore == x.pushed - created - x.born
  }

  ghost predicate Follows(a: Model, ops: seq<Op>, created: int) {
    && a.lastUpdate == LastTime(ops, created) && a.paused == PausedAfter(ops)
    && a.live == Unpaused(ops, created) && a.pauseSum == a.lastUpdate - created - a.live
    && a.next == Pushes(ops)
    && forall x | x in a.items :: Recorded(ops, created, x)
  }

  lemma RecordedStays(ops: seq<Op>, op: Op, created: int, x: Item)
    requires Recorded(ops, created, x)
    ensures Recorded(ops + [op], created, x)
  {
    hide Unpaused;
    assert (ops + [op])[..|ops|] == ops;
    var k := PushOf(ops, x.id);
    assert PushOf(ops + [op], x.id) == k;
    assert (ops + [op])[..k + 1] == ops[..k + 1];
  }

  lemma FollowsStep(a: Model, ops: seq<Op>, created: int, op: Op)
    requires ModelInv(a) && Follows(a, ops, created)
    ensures Follows(Step(a, op), ops + [op], created)
  {
    hide ModelInv, Step, Recorded;
    var b := Step(a, op);
    StepMoves(a, op);
    assert (ops + [op])[..|ops|] == ops;
    forall x | x in b.items ensures Recorded(ops + [op], created, x) {
      if x in a.items { RecordedStays(ops, op, created, x); } else { RecordedNew(a, ops, created, op, b, x); }
    }
  }

  lemma RecordedNew(a: Model, ops: seq<Op>, created: int, op: Op, b: Model, x: Item)
    requires Follows(a, ops, created) && ClocksMove(a, op, b) && IsNew(a, op, b, x)
    ensures Recorded(ops + [op], created, x)
  {
    var more := ops + [op];
    assert more[..|ops|] == ops && more[..|ops| + 1] == more;
    assert PushOf(more, x.id) == |ops|;
  }

  /** A history leads where its operations one by one do. */
  lemma {:induction false} AfterSnoc(a: Model, ops: seq<Op>, op: Op)
    requires ModelInv(a)
    ensures After(a, ops + [op]) == Step(After(a, ops), op)
    decreases |ops|
  {
    hide ModelInv, Step;
    if ops == [] {
      assert ops + [op] == [op] && [op][1..] == [];
    } else {
      StepKeepsInv(a, ops[0]);
      AfterSnoc(Step(a, ops[0]), ops[1..], op);
      assert (ops + [op])[1..] == ops[1..] + [op];
    }
  }

  lemma NewInv(created: int, split: bool, limits: Limits)
    ensures ModelInv(New(created, split, limits))
  {}

  lemma {:induction false} HistoryFollows(created: int, split: bool, limits: Limits, ops: seq<Op>)
    ensures ModelInv(New(created, split, limits))
    ensures Follows(After(New(created, split, limits), ops), ops, created)
    decreases |ops|
  {
    hide ModelInv, Step;
    NewInv(created, split, limits);
    var a := New(created, split, limits);
    if ops != [] {
      var init, op := ops[..|ops| - 1], ops[|ops| - 1];
      assert init + [op] == ops;
      HistoryFollows(created, split, limits, init);
      AfterSnoc(a, init, op);
      FollowsStep(After(a, init), init, created, op);
    }
  }

  function SumWaited(items: seq<Item>, ops: seq<Op>, created: int): int
    requires forall x | x in items :: x.id < Pushes(ops)
  {
    if items == [] then 0 else Waited(ops, created, items[0].id) + SumWaited(items[1..], ops, created)
  }

  lemma {:induction false} AgesAreWaited(items: seq<Item>, ops: seq<Op>, created: int)
    requires forall x | x in items :: Recorded(ops, created, x)
    ensures (forall x | x in items :: x.id < Pushes(ops))
         && SumAges(items, Unpaused(ops, created)) == SumWaited(items, ops, created)
  {
    hide Unpaused;
    if items != [] {
      assert Recorded(ops, created, items[0]);
      AgesAreWaited(items[1..], ops, created);
    }
  }

  /**
   After any history the time a packet reports when it is taken out is the unpaused time
   since its push, and the sum the queue keeps is the sum of these over what waits.
   */
  lemma WaitingTimes(created: int, split: bool, limits: Limits, ops: seq<Op>)
    ensures ModelInv(New(created, split, limits))
    ensures var a := After(New(created, split, limits), ops);
            && (forall x | x in a.items ::
                  && x.id < Pushes(ops) && ops[PushOf(ops, x.id)] == OpPush(x.pushed, x.packet)
                  && a.live - x.born == Waited(ops, created, x.id))
            && SumAges(a.items, a.live) == SumWaited(a.items, ops, created)
  {
    HistoryFollows(created, split, limits, ops);
    hide ModelInv, Step, Unpaused;
    var a := After(New(created, split, limits), ops);
    AgesAreWaited(a.items, ops, created);
    forall x | x in a.items
      ensures x.id < Pushes(ops) && ops[PushOf(ops, x.id)] == OpPush(x.pushed, x.packet)
      ensures a.live - x.born == Waited(ops, created, x.id)
    {
      assert Recorded(ops, created, x);
    }
  }

  ghost predicate NeverPaused(ops: seq<Op>) {
    forall op | op in ops && op.OpPause? :: !op.pause
  }

  lemma {:induction false} UnpausedIsClock(ops: seq<Op>, created: int)
    requires NeverPaused(ops)
    ensures !PausedAfter(ops) && Unpaused(ops, created) == LastTime(ops, created) - created
    decreases |ops|
  {
    if ops != [] {
      assert forall op | op in ops[..|ops| - 1] :: op in ops;
      assert ops[|ops| - 1] in ops;
      UnpausedIsClock(ops[..|ops| - 1], created);
    }
  }

  /** Without pauses a packet has waited since its push by the clock. */
  lemma WaitedWithoutPauses(created: int, split: bool, limits: Limits, ops: seq<Op>, x: Item)
    requires NeverPaused(ops)
    requires ModelInv(New(created, split, limits)) && x in After(New(created, split, limits), ops).items
    ensures var a := After(New(created, split, limits), ops);
            a.live - x.born == a.lastUpdate - x.pushed
  {
    HistoryFollows(created, split, limits, ops);
    hide ModelInv, Step;
    assert Recorded(ops, created, x);
    var init := ops[..PushOf(ops, x.id) + 1];
    assert forall op | op in init :: op in ops;
    UnpausedIsClock(ops, created);
    UnpausedIsClock(init, created);
  }

  /**
   A packet is too old exactly if the time by the clock since its push, together with all
   pauses before it, exceeds the limit.
   */
  lemma ExpiredByClock(created: int, split: bool, limits: Limits, ops: seq<Op>, x: Item, now: int, ttl: int)
    requires ModelInv(New(created, split, limits)) && x in After(New(created, split, limits), ops).items
    ensures x.id < Pushes(ops)
    ensures var before := ops[..PushOf(ops, x.id) + 1];
            Expired(x, now, ttl) <==>
              (now - x.pushed) + (LastTime(before, created) - created - Unpaused(before, created)) > ttl
  {
    HistoryFollows(created, split, limits, ops);
    hide ModelInv, Step, Unpaused;
    assert Recorded(ops, created, x);
  }
}
