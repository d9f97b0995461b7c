/**
 The queue of control chunks of a session and the task that pumps it into the reliable
 stream, under backpressure and while the transport is unavailable.
 */
module SessionLinks {
  import opened CtrlCodec

  const RETRY: nat := 50
  const TIMEOUT: nat := 20000

  /** What one attempt to send meets; a positive result of the transport means busy. */
  datatype Answer = Sent | Busy | Unavailable | Detached

  /**
   The link, with what happened so far: the pump tasks posted and not yet run, the
   chunks handed to the stream, the answers met and the messages asked for.
   */
  datatype Link = Link(
    queue: seq<Bytes>, scheduled: bool, unavailable: nat,
    tasks: nat, wire: seq<Bytes>, answers: seq<Answer>, asked: seq<Bytes>, gaveUp: nat)

  const START: Link := Link([], false, 0, 0, [], [], [], 0)

  function SendCtrl(l: Link, m: Bytes): Link {
    l.(queue := l.queue + Split(m), asked := l.asked + [m],
       scheduled := true, tasks := if l.scheduled then l.tasks else l.tasks + 1)
  }

  /** One attempt to send the chunk in front, and whether the pump goes on. */
  function Attempt(l: Link, a: Answer): (Link, bool)
    requires l.queue != []
  {
    var k := l.(answers := l.answers + [a]);
    match a
    case Detached => (k.(queue := []), false)
    case Sent => (k.(queue := l.queue[1..], wire := l.wire + [l.queue[0]], unavailable := 0), true)
    case Busy => (k.(scheduled := true, tasks := l.tasks + 1), false)
    case Unavailable =>
      if l.unavailable + RETRY >= TIMEOUT
      then (k.(queue := [], unavailable := 0, gaveUp := l.gaveUp + 1), false)
      else (k.(unavailable := l.unavailable + RETRY, scheduled := true, tasks := l.tasks + 1), false)
  }

  /** The pump on the coming answers; the transport counts as busy after the last one. */
  function Pump(l: Link, coming: seq<Answer>): Link
    decreases |l.queue|
  {
    if l.queue == [] then l
    else
      var (k, on) := Attempt(l, if coming == [] then Busy else coming[0]);
      if on then Pump(k, if coming == [] then [] else coming[1..]) else k
  }

  /** The event loop runs a posted pump task. */
  function RunTask(l: Link, coming: seq<Answer>): Link
    requires l.tasks > 0
  {
    Pump(l.(tasks := l.tasks - 1, scheduled := false), coming)
  }

  // ---- what the answers do ---------------------------------------------------------------

  /** How many answers since the last chunk sent found the transport unavailable. */
  function Strikes(answers: seq<Answer>): (n: nat)
    ensures n < TIMEOUT / RETRY
  {
    if answers == [] then 0
    else
      var before := Strikes(answers[..|answers| - 1]);
      match answers[|answers| - 1]
      case Sent => 0
      case Unavailable => if before + 1 == TIMEOUT / RETRY then 0 else before + 1
      case _ => before
  }

  /** An answer that makes the link drop its queue: detached, or the 400th strike in a row. */
  predicate Drops(answers: seq<Answer>, k: nat)
    requires k < |answers|
  {
    answers[k].Detached? || (answers[k].Unavailable? && Strikes(answers[..k]) + 1 == TIMEOUT / RETRY)
  }

  predicate Lost(answers: seq<Answer>) {
    exists k: nat | k < |answers| :: Drops(answers, k)
  }

  lemma LostSnoc(answers: seq<Answer>, a: Answer)
    ensures Lost(answers + [a]) <==>
              Lost(answers) || a.Detached? || (a.Unavailable? && Strikes(answers) + 1 == TIMEOUT / RETRY)
  {
    hide Strikes;
    var all := answers + [a];
    forall k: nat | k < |answers| ensures Drops(all, k) <==> Drops(answers, k) {
      assert all[..k] == answers[..k];
    }
    assert all[..|answers|] == answers;
    if Lost(all) {
      var k: nat :| k < |all| && Drops(all, k);
      assert k < |answers| ==> Drops(answers, k);
    }
    if Lost(answers) {
      var k: nat :| k < |answers| && Drops(answers, k);
      assert Drops(all, k);
    }
    assert a.Detached? || (a.Unavailable? && Strikes(answers) + 1 == TIMEOUT / RETRY) ==> Drops(all, |answers|);
  }

  lemma StrikesSnoc(answers: seq<Answer>, a: Answer)
    ensures Strikes(answers + [a])
         == match a
            case Sent => 0
            case Unavailable => (if Strikes(answers) + 1 == TIMEOUT / RETRY then 0 else Strikes(answers) + 1)
            case _ => Strikes(answers)
  {
    assert (answers + [a])[..|answers|] == answers;
  }

  // ---- the invariant -----------------------------------------------------------------------

  /** Nothing asked for is missing, unless an answer made the link drop its queue. */
  ghost predicate Conserved(l: Link) {
    && (!Lost(l.answers) ==> l.wire + l.queue == Wire(l.asked))
    && (Lost(l.answers) ==> |l.wire| + |l.queue| < |Wire(l.asked)|)
    && l.unavailable == RETRY * Strikes(l.answers)
  }

  ghost predicate Outstanding(l: Link) {
    && l.tasks == (if l.scheduled then 1 else 0)
    && (l.scheduled <==> l.queue != [])
  }

  ghost predicate Inv(l: Link) {
    Conserved(l) && Outstanding(l)
  }

  lemma WireSnoc(asked: seq<Bytes>, m: Bytes)
    ensures Wire(asked + [m]) == Wire(asked) + Split(m)
  {
    assert (asked + [m])[..|asked|] == asked;
  }

  lemma SendCtrlInv(l: Link, m: Bytes)
    requires Inv(l)
    ensures Inv(SendCtrl(l, m))
  {
    hide Lost, Strikes, Wire, Split;
    WireSnoc(l.asked, m);
    assert l.wire + (l.queue + Split(m)) == l.wire + l.queue + Split(m);
  }

  lemma AttemptConserves(l: Link, a: Answer)
    requires Conserved(l) && l.queue != []
    ensures Conserved(Attempt(l, a).0)
  {
    hide Lost, Strikes, Wire;
    LostSnoc(l.answers, a);
    StrikesSnoc(l.answers, a);
    assert l.wire + [l.queue[0]] + l.queue[1..] == l.wire + l.queue;
  }

  lemma {:induction false} PumpInv(l: Link, coming: seq<Answer>)
    requires Conserved(l) && !l.scheduled && l.tasks == 0
    ensures Inv(Pump(l, coming)) && Pump(l, coming).asked == l.asked
    decreases |l.queue|
  {
    hide Conserved;
    if l.queue != [] {
      var a := if coming == [] then Busy else coming[0];
      AttemptConserves(l, a);
      var (k, on) := Attempt(l, a);
      if on { PumpInv(k, if coming == [] then [] else coming[1..]); }
    }
  }

  // ---- whole runs ------------------------------------------------------------------------------

  datatype Event = Ask(message: Bytes) | Task(coming: seq<Answer>)

  /** One event; the loop has nothing to run while no task is posted. */
  function Next(l: Link, e: Event): Link {
    match e
    case Ask(m) => SendCtrl(l, m)
    case Task(coming) => if l.tasks == 0 then l else RunTask(l, coming)
  }

  /** The link after a run. */
  function Run(events: seq<Event>): Link {
    if events == [] then START else Next(Run(events[..|events| - 1]), events[|events| - 1])
  }

  function Asked(events: seq<Event>): seq<Bytes> {
    if events == [] then []
    else
      var before := Asked(events[..|events| - 1]);
      match events[|events| - 1]
      case Ask(m) => before + [m]
      case _ => before
  }

  lemma {:induction false} RunInv(events: seq<Event>)
    ensures Inv(Run(events)) && Run(events).asked == Asked(events)
  {
    hide Pump, Conserved;
    if events == [] {
      StartConserved();
    } else {
      var l := Run(events[..|events| - 1]);
      RunInv(events[..|events| - 1]);
      match events[|events| - 1]
      case Ask(m) => SendCtrlInv(l, m);
      case Task(coming) =>
        if l.tasks > 0 {
          SameConserved(l, l.(tasks := l.tasks - 1, scheduled := false));
          PumpInv(l.(tasks := l.tasks - 1, scheduled := false), coming);
        }
    }
  }

  lemma StartConserved()
    ensures Conserved(START)
  {}

  lemma SameConserved(l: Link, k: Link)
    requires Conserved(l) && k == l.(tasks := k.tasks, scheduled := k.scheduled)
    ensures Conserved(k)
  {}

  /**
   Fidelity: in every run the peer's reassembler has handed out a prefix of the messages
   asked for, and exactly these once the queue is empty, if and only if nothing was
   dropped; chunks wait exactly while one pump task is outstanding.
   */
  lemma StreamFidelity(events: seq<Event>)
    requires AllFit(Asked(events))
    ensures var l := Run(events);
            var peer := FeedAll(Rx([], [], 0), l.wire);
            && (!Lost(l.answers) ==>
                  && Prefix(peer.messages, Asked(events))
                  && (l.queue == [] ==> peer == Rx([], Asked(events), 0)))
            && (!Lost(l.answers) <==> l.wire + l.queue == Wire(Asked(events)))
            && l.tasks == if l.queue == [] then 0 else 1
  {
    hide Run, Asked, Lost, FeedAll, Wire, Strikes;
    RunInv(events);
    var l, asked := Run(events), Asked(events);
    if !Lost(l.answers) {
      assert Wire(asked)[..|l.wire|] == l.wire;
      PartialDelivery(asked, |l.wire|);
      assert l.queue == [] ==> l.wire == Wire(asked);
      WireRoundTrip(asked);
    }
  }

  // ---- a message cut short ---------------------------------------------------------------------

  /** The first chunks of a message leave its first part in the peer's buffer. */
  lemma {:induction false} SplitPrefix(rx: Rx, m: Bytes, j: nat)
    requires j < |Split(m)| && |rx.buffer| + |m| <= MAX_MESSAGE
    ensures j * CHUNK <= |m|
    ensures FeedAll(rx, Split(m)[..j]) == Rx(rx.buffer + m[..j * CHUNK], rx.messages, rx.errors)
    decreases j
  {
    if j == 0 {
      assert Split(m)[..0] == [] && rx.buffer + m[..0] == rx.buffer;
      FeedEmpty(rx);
    } else {
      FirstChunk(m);
      var rest := m[CHUNK..];
      var next := Rx(rx.buffer + m[..CHUNK], rx.messages, rx.errors);
      var first: Bytes := [0] + m[..CHUNK];
      assert first[1..] == m[..CHUNK];
      SplitPrefix(next, rest, j - 1);
      assert Split(m)[..j] == [first] + Split(rest)[..j - 1];
      FeedConcat(rx, [first], Split(rest)[..j - 1]);
      FeedSingle(rx, first);
      assert m[..CHUNK] + rest[..(j - 1) * CHUNK] == m[..j * CHUNK];
      assert rx.buffer + m[..CHUNK] + rest[..(j - 1) * CHUNK] == rx.buffer + (m[..CHUNK] + rest[..(j - 1) * CHUNK]);
    }
  }

  lemma FirstChunk(m: Bytes)
    requires 1 < |Split(m)|
    ensures CHUNK < |m| && Split(m) == [[0] + m[..CHUNK]] + Split(m[CHUNK..])
  {}

  lemma FeedSingle(rx: Rx, chunk: Bytes)
    ensures FeedAll(rx, [chunk]) == FeedOne(rx, chunk)
  {
    assert [chunk][1..] == [];
    FeedEmpty(FeedOne(rx, chunk));
  }

  /**
   Giving up in a message spoils the next one. If `m` is cut after `j` chunks, the peer
   delivers what follows as it was sent if and only if nothing of `m` was sent; else the
   part of `m` is put in front of it, or costs it its beginning.
   */
  lemma NextMessageSpoiled(done: seq<Bytes>, m: Bytes, n: Bytes, j: nat)
    requires AllFit(done) && |m| <= MAX_MESSAGE && |n| <= MAX_MESSAGE && j < |Split(m)|
    ensures j * CHUNK <= |m|
    ensures var peer := FeedAll(Rx([], [], 0), Wire(done) + Split(m)[..j] + Split(n));
            && (peer.messages == done + [n] <==> j == 0)
            && (j * CHUNK + |n| <= MAX_MESSAGE ==> peer == Rx([], done + [m[..j * CHUNK] + n], 0))
            && (j * CHUNK + |n| > MAX_MESSAGE ==>
                  var lost := MAX_MESSAGE + CHUNK - j * CHUNK;
                  peer == Rx([], if |n| <= lost then done else done + [n[lost..]], 1))
  {
    hide FeedAll, Split, Wire;
    var start, part := Rx([], [], 0), Split(m)[..j];
    FeedConcat(start, Wire(done) + part, Split(n));
    FeedConcat(start, Wire(done), part);
    WireRoundTrip(done);
    SplitPrefix(Rx([], done, 0), m, j);
    assert [] + m[..j * CHUNK] == m[..j * CHUNK];
    CutFeeds(done, m[..j * CHUNK], n, j);
  }

  lemma CutFeeds(done: seq<Bytes>, part: Bytes, n: Bytes, j: nat)
    requires |part| == j * CHUNK <= MAX_MESSAGE && |n| <= MAX_MESSAGE
    ensures var peer := FeedAll(Rx(part, done, 0), Split(n));
            && (peer.messages == done + [n] <==> j == 0)
            && (|part| + |n| <= MAX_MESSAGE ==> peer == Rx([], done + [part + n], 0))
            && (|part| + |n| > MAX_MESSAGE ==>
                  var lost := MAX_MESSAGE + CHUNK - |part|;
                  peer == Rx([], if |n| <= lost then done else done + [n[lost..]], 1))
  {
    hide FeedAll, Split, CHUNK, MAX_MESSAGE;
    PartLength(j);
    if |part| + |n| <= MAX_MESSAGE {
      SplitFeeds(Rx(part, done, 0), n);
      LongerLast(done, part, n);
    } else {
      CutTooLarge(done, part, n);
    }
  }

  lemma PartLength(j: nat)
    ensures j * CHUNK == 0 <==> j == 0
    ensures j * CHUNK % CHUNK == 0
  {}

  lemma CutTooLarge(done: seq<Bytes>, part: Bytes, n: Bytes)
    requires |part| % CHUNK == 0 && |part| <= MAX_MESSAGE && |n| <= MAX_MESSAGE && |part| + |n| > MAX_MESSAGE
    ensures var peer := FeedAll(Rx(part, done, 0), Split(n));
            var lost := MAX_MESSAGE + CHUNK - |part|;
            && peer == Rx([], if |n| <= lost then done else done + [n[lost..]], 1)
            && peer.messages != done + [n]
  {
    hide FeedAll, Split;
    TooLargeFeeds(Rx(part, done, 0), n);
    var lost := MAX_MESSAGE + CHUNK - |part|;
    if |n| > lost {
      SplitFeeds(Rx([], done, 1), n[lost..]);
      assert [] + n[lost..] == n[lost..];
      OtherLast(done, n[lost..], n);
    }
  }

  lemma LongerLast(done: seq<Bytes>, part: Bytes, n: Bytes)
    ensures done + [part + n] == done + [n] <==> part == []
  {
    OtherLast(done, part + n, n);
    assert part == [] ==> part + n == n;
  }

  lemma OtherLast(done: seq<Bytes>, a: Bytes, b: Bytes)
    ensures done + [a] == done + [b] <==> a == b
  {
    assert (done + [a])[|done|] == a && (done + [b])[|done|] == b;
  }

  // ---- and how it comes to that --------------------------------------------------------------------

  function Sents(j: nat): seq<Answer> {
    if j == 0 then [] else [Sent] + Sents(j - 1)
  }

  /** The first `j` chunks are handed to the stream. */
  function Moved(l: Link, j: nat): Link
    requires j <= |l.queue|
    decreases j
  {
    if j == 0 then l else Moved(Attempt(l, Sent).0, j - 1)
  }

  lemma {:induction false} MovedParts(l: Link, j: nat)
    requires j <= |l.queue|
    ensures var m := Moved(l, j);
            && m.queue == l.queue[j..] && m.wire == l.wire + l.queue[..j] && m.asked == l.asked
            && m.tasks == l.tasks && m.scheduled == l.scheduled
            && (l.unavailable == 0 ==> m.unavailable == 0)
    decreases j
  {
    if j > 0 {
      var k := Attempt(l, Sent).0;
      MovedParts(k, j - 1);
      assert l.queue[1..][j - 1..] == l.queue[j..];
      assert l.wire + [l.queue[0]] + l.queue[1..][..j - 1] == l.wire + l.queue[..j];
    }
  }

  lemma {:induction false} PumpMoves(l: Link, j: nat, rest: seq<Answer>)
    requires j <= |l.queue|
    ensures Pump(l, Sents(j) + rest) == Pump(Moved(l, j), rest)
    decreases j
  {
    if j == 0 {
      assert Sents(0) + rest == rest;
    } else {
      var all := Sents(j) + rest;
      assert all[0] == Sent && all[1..] == Sents(j - 1) + rest;
      PumpMoves(Attempt(l, Sent).0, j - 1, rest);
    }
  }

  lemma RunSnoc(events: seq<Event>, e: Event)
    ensures Run(events + [e]) == Next(Run(events), e)
    ensures Asked(events + [e]) == Asked(events) + if e.Ask? then [e.message] else []
  {
    assert (events + [e])[..|events|] == events;
  }

  /** Chunks wait behind one that is refused: `strikes` refusals in a row so far. */
  ghost predicate Refused(l: Link, queue: seq<Bytes>, wire: seq<Bytes>, strikes: nat) {
    && l.queue == queue != [] && l.wire == wire && l.scheduled && l.tasks == 1
    && l.unavailable == RETRY * strikes
  }

  lemma OneRefusal(l: Link, queue: seq<Bytes>, wire: seq<Bytes>, strikes: nat)
    requires Refused(l, queue, wire, strikes) && strikes < TIMEOUT / RETRY
    ensures var m := RunTask(l, [Unavailable]);
            if strikes + 1 < TIMEOUT / RETRY then Refused(m, queue, wire, strikes + 1)
            else m.queue == [] && m.wire == wire && !m.scheduled && m.tasks == 0 && m.unavailable == 0
  {}

  lemma {:induction false} RefusedOn(before: seq<Event>, queue: seq<Bytes>, wire: seq<Bytes>, strikes: nat)
    returns (events: seq<Event>)
    requires Refused(Run(before), queue, wire, strikes) && strikes < TIMEOUT / RETRY
    ensures var l := Run(events);
            l.queue == [] && l.wire == wire && !l.scheduled && l.tasks == 0 && l.unavailable == 0
    ensures Asked(events) == Asked(before)
    decreases TIMEOUT / RETRY - strikes
  {
    hide Run, Asked, RunTask;
    events := before + [Task([Unavailable])];
    RunSnoc(before, Task([Unavailable]));
    OneRefusal(Run(before), queue, wire, strikes);
    RefusedTask(Run(before), queue, wire, strikes);
    if strikes + 1 < TIMEOUT / RETRY {
      events := RefusedOn(events, queue, wire, strikes + 1);
    }
  }

  lemma RefusedTask(l: Link, queue: seq<Bytes>, wire: seq<Bytes>, strikes: nat)
    requires Refused(l, queue, wire, strikes)
    ensures l.tasks == 1
  {}

  /**
   After any run that left nothing waiting: `m` is asked for, `j` of its chunks are sent,
   the transport then stays away for 400 attempts, comes back, and `n` is sent whole.
   */
  lemma CutReached(before: seq<Event>, m: Bytes, n: Bytes, j: nat) returns (events: seq<Event>)
    requires Run(before).queue == [] && Run(before).unavailable == 0 && j < |Split(m)|
    ensures Asked(events) == Asked(before) + [m] + [n]
    ensures Run(events).queue == [] && Run(events).wire == Run(before).wire + Split(m)[..j] + Split(n)
  {
    hide Run, Asked, Split, RunTask, Pump;
    RunInv(before);
    var l, wire := Run(before), Run(before).wire + Split(m)[..j];
    RunSnoc(before, Ask(m));
    RunSnoc(before + [Ask(m)], Task(Sents(j) + [Unavailable]));
    CutTask(l, m, j);
    var cut := before + [Ask(m)] + [Task(Sents(j) + [Unavailable])];
    var given := RefusedOn(cut, Split(m)[j..], wire, 1);
    var sends := Sents(|Split(n)|);
    events := given + [Ask(n)] + [Task(sends)];
    RunSnoc(given, Ask(n));
    RunSnoc(given + [Ask(n)], Task(sends));
    WholeTask(Run(given), n);
  }

  lemma CutTask(l: Link, m: Bytes, j: nat)
    requires Inv(l) && l.queue == [] && l.unavailable == 0 && j < |Split(m)|
    ensures SendCtrl(l, m).tasks == 1
    ensures Refused(RunTask(SendCtrl(l, m), Sents(j) + [Unavailable]), Split(m)[j..], l.wire + Split(m)[..j], 1)
  {
    hide Conserved, Split, Pump;
    var k := SendCtrl(l, m).(tasks := 0, scheduled := false);
    assert k.queue == Split(m);
    PumpMoves(k, j, [Unavailable]);
    MovedParts(k, j);
    RefusedPump(Moved(k, j));
  }

  lemma RefusedPump(l: Link)
    requires l.queue != [] && l.unavailable == 0 && l.tasks == 0
    ensures Refused(Pump(l, [Unavailable]), l.queue, l.wire, 1)
  {}

  lemma WholeTask(l: Link, n: Bytes)
    requires l.queue == [] && !l.scheduled && l.tasks == 0 && l.unavailable == 0
    ensures SendCtrl(l, n).tasks == 1
    ensures var m := RunTask(SendCtrl(l, n), Sents(|Split(n)|));
            m.queue == [] && m.wire == l.wire + Split(n)
  {
    hide Split, Pump;
    var k := SendCtrl(l, n).(tasks := 0, scheduled := false);
    assert k.queue == Split(n);
    var j := |Split(n)|;
    PumpMoves(k, j, []);
    assert Sents(j) + [] == Sents(j);
    MovedParts(k, j);
    assert Split(n)[..j] == Split(n);
    NothingToPump(Moved(k, j));
  }

  lemma NothingToPump(l: Link)
    requires l.queue == []
    ensures Pump(l, []) == l
  {}

  // ---- the link as an object ----------------------------------------------------------------------

  class SessionLink {
    var ctrlQueue: seq<Bytes>
    var pumpScheduled: bool
    var ctrlUnavailable: nat

    /** What the event loop, the stream and the callers know. */
    ghost var tasks: nat
    ghost var wire: seq<Bytes>
    ghost var answers: seq<Answer>
    ghost var asked: seq<Bytes>
    ghost var gaveUp: nat

    ghost function View(): Link
      reads this
    {
      Link(ctrlQueue, pumpScheduled, ctrlUnavailable, tasks, wire, answers, asked, gaveUp)
    }

    constructor ()
      ensures View() == START && Inv(View())
    {
      ctrlQueue, pumpScheduled, ctrlUnavailable := [], false, 0;
      tasks, wire, answers, asked, gaveUp := 0, [], [], [], 0;
    }

    method Send(m: Bytes)
      requires Inv(View())
      modifies this
      ensures View() == SendCtrl(old(View()), m) && Inv(View())
    {
      hide Inv;
      SendCtrlInv(View(), m);
      var chunks := SplitCtrlMessage(m);
      ctrlQueue := ctrlQueue + chunks;
      asked := asked + [m];
      if !pumpScheduled {
        pumpScheduled := true;
        tasks := tasks + 1;
      }
    }

    /** The body of a posted task: mark it as run, then pump. */
    method Task(coming: seq<Answer>)
      requires Inv(View()) && tasks > 0
      modifies this
      ensures View() == RunTask(old(View()), coming) && Inv(View())
    {
      hide Conserved, Pump;
      SameConserved(View(), View().(tasks := tasks - 1, scheduled := false));
      PumpInv(View().(tasks := tasks - 1, scheduled := false), coming);
      tasks := tasks - 1;
      pumpScheduled := false;
      PumpQueue(coming);
    }

    method PumpQueue(coming: seq<Answer>)
      modifies this
      ensures View() == Pump(old(View()), coming)
    {
      var k := 0;
      assert coming[k..] == coming;
      while ctrlQueue != []
        invariant k <= |coming|
        invariant Pump(View(), coming[k..]) == Pump(old(View()), coming)
        decreases |ctrlQueue|
      {
        var a := if k < |coming| then coming[k] else Busy;
        answers := answers + [a];
        if a.Detached? {
          ctrlQueue := [];
          return;
        }
        if a.Sent? {
          wire := wire + [ctrlQueue[0]];
          ctrlQueue := ctrlQueue[1..];
          ctrlUnavailable := 0;
          k := k + 1;
          assert coming[k - 1..][1..] == coming[k..];
          continue;
        }
        if a.Unavailable? {
          ctrlUnavailable := ctrlUnavailable + RETRY;
          if ctrlUnavailable >= TIMEOUT {
            ctrlQueue := [];
            ctrlUnavailable := 0;
            gaveUp := gaveUp + 1;
            return;
          }
        }
        pumpScheduled := true;
        tasks := tasks + 1;
        return;
      }
    }
  }
}
