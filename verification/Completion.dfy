/**
 A transfer can always be brought to its end: while both sessions are alive, some
 continuation has both sides report completion, in which messages arrive only after they
 were sent, blocks move only between running engines and the sending loop keeps its order.
 */
module Completion {
  import opened Wrappers
  import opened Manifest
  import opened Receiver
  import opened Transfer
  import opened TransferInvariant
  import opened TransferIntegrity
  import opened TransferProgress
  import opened Session
  import opened SessionMessages
  import opened SenderLoop
  import opened Agreement
  import opened Plays

  // ---- continuations ---------------------------------------------------------------------

  /** The turn answers what has happened: nothing arrives that was not sent. */
  predicate Natural(w: World, t: Turn) {
    match t
    case LaneTurn(_, _) => w.sender.engine && w.receiver.engine
    case BatchTurn(_) => w.sender.engine && w.receiver.engine
    case LoopTurn(_) => w.sender.engine
    case SenderTurn(e) =>
      && (e.AcceptArrives? ==> Accept in w.receiver.out)
      && (e.TransportReady? ==> (e.haveFiles <==> w.lanes != []))
    case ReceiverTurn(e) => e.OfferArrives? ==> Offer in w.sender.out
  }

  ghost predicate PlaysTo(hash: Hash, sources: seq<seq<Byte>>, w: World, turns: seq<Turn>, v: World)
    decreases |turns|
  {
    if turns == [] then v == w
    else
      && CanTake(sources, w, turns[0]) && Natural(w, turns[0])
      && PlaysTo(hash, sources, Take(hash, sources, w, turns[0]), turns[1..], v)
  }

  ghost predicate Leads(hash: Hash, sources: seq<seq<Byte>>, w: World, v: World) {
    exists turns :: PlaysTo(hash, sources, w, turns, v)
  }

  lemma {:induction false} PlaysToIsPlay(hash: Hash, sources: seq<seq<Byte>>, w: World, turns: seq<Turn>, v: World)
    requires PlaysTo(hash, sources, w, turns, v)
    ensures IsPlay(hash, sources, w, turns) && Played(hash, sources, w, turns) == v
    decreases |turns|
  {
    hide CanTake, Take;
    if turns != [] { PlaysToIsPlay(hash, sources, Take(hash, sources, w, turns[0]), turns[1..], v); }
  }

  lemma LeadsNowhere(hash: Hash, sources: seq<seq<Byte>>, w: World)
    ensures Leads(hash, sources, w, w)
  {
    assert PlaysTo(hash, sources, w, [], w);
  }

  lemma LeadsFirst(hash: Hash, sources: seq<seq<Byte>>, w: World, t: Turn, v: World)
    requires CanTake(sources, w, t) && Natural(w, t) && Leads(hash, sources, Take(hash, sources, w, t), v)
    ensures Leads(hash, sources, w, v)
  {
    hide CanTake, Take, Natural;
    var turns :| PlaysTo(hash, sources, Take(hash, sources, w, t), turns, v);
    var all := [t] + turns;
    assert all[0] == t && all[1..] == turns;
    assert PlaysTo(hash, sources, w, all, v);
  }

  lemma LeadsOnce(hash: Hash, sources: seq<seq<Byte>>, w: World, t: Turn)
    requires CanTake(sources, w, t) && Natural(w, t)
    ensures Leads(hash, sources, w, Take(hash, sources, w, t))
  {
    hide CanTake, Take, Natural, Leads;
    LeadsNowhere(hash, sources, Take(hash, sources, w, t));
    LeadsFirst(hash, sources, w, t, Take(hash, sources, w, t));
  }

  lemma {:induction false} PlaysOn(hash: Hash, sources: seq<seq<Byte>>, w: World, turns: seq<Turn>, v: World, u: World)
    requires PlaysTo(hash, sources, w, turns, v) && Leads(hash, sources, v, u)
    ensures Leads(hash, sources, w, u)
    decreases |turns|
  {
    hide CanTake, Take, Natural, Leads;
    if turns != [] {
      PlaysOn(hash, sources, Take(hash, sources, w, turns[0]), turns[1..], v, u);
      LeadsFirst(hash, sources, w, turns[0], u);
    }
  }

  lemma LeadsOn(hash: Hash, sources: seq<seq<Byte>>, w: World, v: World, u: World)
    requires Leads(hash, sources, w, v) && Leads(hash, sources, v, u)
    ensures Leads(hash, sources, w, u)
  {
    hide PlaysTo;
    var turns :| PlaysTo(hash, sources, w, turns, v);
    PlaysOn(hash, sources, w, turns, v, u);
  }

  // ---- what is carried along ----------------------------------------------------------------

  /** Every file was verified before this run or can be finished in it. */
  ghost predicate LanesGoing(sources: seq<seq<Byte>>, lanes: seq<Lane>) {
    && |sources| == |lanes|
    && forall i | 0 <= i < |lanes| :: lanes[i].early || OneReset(sources[i], lanes[i])
  }

  ghost predicate Alive(hash: Hash, sources: seq<seq<Byte>>, w: World) {
    && WorldInv(hash, sources, w) && LanesGoing(sources, w.lanes) && sources != []
    && Told(w.sender) && Told(w.receiver)
    && !Terminal(w.sender.phase) && !Terminal(w.receiver.phase)
  }

  ghost predicate Working(hash: Hash, sources: seq<seq<Byte>>, w: World) {
    Alive(hash, sources, w) && w.sender.engine && w.receiver.engine
  }

  lemma TurnLanesGoing(hash: Hash, sources: seq<seq<Byte>>, w: World, t: Turn)
    requires WorldInv(hash, sources, w) && CanTake(sources, w, t) && LanesGoing(sources, w.lanes)
    ensures LanesGoing(sources, Take(hash, sources, w, t).lanes)
  {
    WorldLanes(hash, sources, w);
    hide WorldInv, CanTake, Take, OneReset, AllHonest;
    TurnInv(hash, sources, w, t);
    var v := Take(hash, sources, w, t);
    WorldLanes(hash, sources, v);
    forall i | 0 <= i < |v.lanes| ensures v.lanes[i].early || OneReset(sources[i], v.lanes[i]) {
      TurnKeepsLane(hash, sources, w, t, i);
    }
  }

  /** A turn of a lane or of the loop leaves the sessions alone, so all goes on. */
  lemma WorkingTurn(hash: Hash, sources: seq<seq<Byte>>, w: World, t: Turn)
    requires Working(hash, sources, w) && CanTake(sources, w, t) && (t.LaneTurn? || t.LoopTurn?)
    ensures Working(hash, sources, Take(hash, sources, w, t)) && Leads(hash, sources, w, Take(hash, sources, w, t))
  {
    hide Told, LanesGoing, WorldInv, Leads;
    TurnInv(hash, sources, w, t);
    TurnLanesGoing(hash, sources, w, t);
    LeadsOnce(hash, sources, w, t);
  }

  // ---- getting started ---------------------------------------------------------------------------

  /** A session event keeps everything if the session stays alive. */
  lemma SessionTurn(hash: Hash, sources: seq<seq<Byte>>, w: World, t: Turn)
    requires Alive(hash, sources, w) && CanTake(sources, w, t) && Natural(w, t) && (t.SenderTurn? || t.ReceiverTurn?)
    ensures var v := Take(hash, sources, w, t);
            && Leads(hash, sources, w, v)
            && (!Terminal(v.sender.phase) && !Terminal(v.receiver.phase) ==> Alive(hash, sources, v))
  {
    hide Told, LanesGoing, WorldInv, Leads, Handle;
    TurnInv(hash, sources, w, t);
    TurnLanesGoing(hash, sources, w, t);
    LeadsOnce(hash, sources, w, t);
    HandleTold(if t.SenderTurn? then w.sender else w.receiver, t.e);
  }

  lemma OfferMade(hash: Hash, sources: seq<seq<Byte>>, w: World) returns (v: World)
    requires Alive(hash, sources, w)
    ensures Leads(hash, sources, w, v) && Alive(hash, sources, v) && Offer in v.sender.out
    ensures v == w.(sender := v.sender) && v.sender.engine == w.sender.engine
  {
    hide Alive, Leads, Ready, NodeInv, Told;
    SidesOf(hash, sources, w);
    OfferSentMeans(w.sender);
    if w.sender.offerSent {
      v := w;
      LeadsNowhere(hash, sources, w);
    } else {
      var t := SenderTurn(TransportReady(true));
      ReadyPhase(w.sender, true);
      ReadyMeans(w.sender, true);
      ReadyTold(w.sender, true);
      ReadyEngine(w.sender, true);
      OfferSentMeans(Ready(w.sender, true));
      SessionTurn(hash, sources, w, t);
      v := Take(hash, sources, w, t);
    }
  }

  lemma OfferSentMeans(n: Node)
    requires Told(n) && n.isSender
    ensures n.offerSent ==> Offer in n.out
    ensures n.transportReady && !Terminal(n.phase) ==> n.offerSent
  {}

  lemma SidesOf(hash: Hash, sources: seq<seq<Byte>>, w: World)
    requires Alive(hash, sources, w)
    ensures w.sender.isSender && !w.receiver.isSender && Told(w.sender) && Told(w.receiver) && w.lanes != []
    ensures NodeInv(w.sender) && NodeInv(w.receiver)
    ensures !Terminal(w.sender.phase) && !Terminal(w.receiver.phase)
  {
    hide NodeInv, Told, LanesGoing;
  }

  lemma ReadyEngine(n: Node, haveFiles: bool)
    ensures Ready(n, haveFiles).engine == n.engine && Ready(n, haveFiles).isSender == n.isSender
  {
    hide SetState, FailWith;
    var m := n.(transportReady := true);
    SetStateOut(m, WaitingOffer);
    SetStateParts(m, WaitingOffer);
    FailWithParts(m, true);
    FailWithKeeps(m, true);
    SetStateOut(m.(offerSent := true), Offering);
    SetStateParts(m.(offerSent := true), Offering);
  }

  lemma OfferTaken(hash: Hash, sources: seq<seq<Byte>>, w: World) returns (v: World)
    requires Alive(hash, sources, w)
    ensures Leads(hash, sources, w, v) && Alive(hash, sources, v) && v.receiver.engine
    ensures v == w.(sender := v.sender, receiver := v.receiver) && v.sender.engine == w.sender.engine
  {
    hide Alive, Leads, Offered, NodeInv, Told;
    if w.receiver.engine {
      v := w;
      LeadsNowhere(hash, sources, w);
    } else {
      var u := OfferMade(hash, sources, w);
      SidesOf(hash, sources, u);
      OfferedPhase(u.receiver, true, true);
      OfferedMeans(u.receiver, true, true);
      SessionTurn(hash, sources, u, ReceiverTurn(OfferArrives(true, true)));
      v := Take(hash, sources, u, ReceiverTurn(OfferArrives(true, true)));
      LeadsOn(hash, sources, w, u, v);
    }
  }

  /** Both engines can be brought up. */
  lemma BothStart(hash: Hash, sources: seq<seq<Byte>>, w: World) returns (v: World)
    requires Alive(hash, sources, w)
    ensures Leads(hash, sources, w, v) && Working(hash, sources, v)
  {
    hide Alive, Leads, Accepted, NodeInv, Told;
    var u := OfferTaken(hash, sources, w);
    if u.sender.engine {
      v := u;
    } else {
      SidesOf(hash, sources, u);
      AcceptedPhase(u.sender, true);
      AcceptedMeans(u.sender, true);
      AcceptedReceiver(u.receiver);
      SessionTurn(hash, sources, u, SenderTurn(AcceptArrives(true)));
      v := Take(hash, sources, u, SenderTurn(AcceptArrives(true)));
      LeadsOn(hash, sources, w, u, v);
    }
  }

  lemma AcceptedReceiver(n: Node)
    requires Told(n) && !n.isSender && n.engine && !Terminal(n.phase)
    ensures Accept in n.out
  {}

  // ---- finishing one file ---------------------------------------------------------------------------

  ghost predicate CanOk(hash: Hash, source: seq<Byte>, l: Lane) {
    exists steps :: IsRun(hash, source, l, steps) && After(hash, source, l, steps).tx.ok
  }

  lemma OkBack(hash: Hash, source: seq<Byte>, l: Lane, step: Step)
    requires Wf(l.rx) && Enabled(source, l, step) && CanOk(hash, source, Apply(hash, source, l, step))
    ensures CanOk(hash, source, l)
  {
    hide Wf, Enabled, Apply;
    var m := Apply(hash, source, l, step);
    var steps :| IsRun(hash, source, m, steps) && After(hash, source, m, steps).tx.ok;
    var all := [step] + steps;
    assert all[0] == step && all[1..] == steps;
    assert IsRun(hash, source, l, all) && After(hash, source, l, all).tx.ok;
  }

  /** The verdicts on their way arrive. */
  lemma {:induction false} VerdictsArrive(hash: Hash, source: seq<Byte>, l: Lane)
    requires Inv(hash, source, l) && l.rx.verified
    ensures CanOk(hash, source, l)
    decreases |l.acks|
  {
    if l.tx.ok {
      assert IsRun(hash, source, l, []) && After(hash, source, l, []) == l;
    } else {
      VerdictDue(hash, source, l);
      hide Inv, Apply, Enabled, Wf, CanOk;
      StepInv(hash, source, l, DeliverAck);
      VerdictsArrive(hash, source, Apply(hash, source, l, DeliverAck));
      OkBack(hash, source, l, DeliverAck);
    }
  }

  lemma VerdictDue(hash: Hash, source: seq<Byte>, l: Lane)
    requires Inv(hash, source, l) && l.rx.verified && !l.tx.ok
    ensures Wf(l.rx) && Enabled(source, l, DeliverAck)
    ensures var m := Apply(hash, source, l, DeliverAck); m.rx == l.rx && |m.acks| < |l.acks|
  {
    hide RxInv, DataInv, TxInv, SackInv, Wf;
  }

  lemma {:induction false} VerifiedThenOk(hash: Hash, source: seq<Byte>, l: Lane, steps: seq<Step>)
    requires Inv(hash, source, l) && IsRun(hash, source, l, steps) && After(hash, source, l, steps).rx.verified
    ensures CanOk(hash, source, l)
    decreases |steps|
  {
    hide Inv, Apply, Enabled, Wf, CanOk;
    if steps == [] {
      VerdictsArrive(hash, source, l);
    } else {
      StepInv(hash, source, l, steps[0]);
      VerifiedThenOk(hash, source, Apply(hash, source, l, steps[0]), steps[1..]);
      OkBack(hash, source, l, steps[0]);
    }
  }

  lemma GoingCanOk(hash: Hash, source: seq<Byte>, l: Lane)
    requires Going(hash, source, l)
    ensures CanOk(hash, source, l)
  {
    hide Inv, OneReset, IsRun, After, CanOk;
    Progress(hash, source, l);
    var steps :| IsRun(hash, source, l, steps) && After(hash, source, l, steps).rx.verified;
    VerifiedThenOk(hash, source, l, steps);
  }

  /** A run of a swept file in flight is scheduled throughout. */
  lemma {:induction false} LiftRun(hash: Hash, sources: seq<seq<Byte>>, w: World, i: nat, steps: seq<Step>)
    returns (v: World)
    requires Working(hash, sources, w) && i in w.loop.inflight && i < |w.lanes| == |sources| && w.lanes[i].tx.swept
    requires IsRun(hash, sources[i], w.lanes[i], steps)
    ensures Leads(hash, sources, w, v) && Working(hash, sources, v)
    ensures v == w.(lanes := w.lanes[i := After(hash, sources[i], w.lanes[i], steps)])
    decreases |steps|
  {
    if steps == [] {
      v := w;
      LeadsNowhere(hash, sources, w);
      assert w.lanes[i := w.lanes[i]] == w.lanes;
    } else {
      var t := LaneTurn(i, steps[0]);
      VerdictsStay(hash, sources[i], w.lanes[i], steps[0]);
      hide Working, Leads, Wf, Enabled, Apply;
      SweptStep(sources[i], w.lanes[i], w.loop, i, steps[0]);
      WorkingTurn(hash, sources, w, t);
      var u := Take(hash, sources, w, t);
      v := LiftRun(hash, sources, u, i, steps[1..]);
      LeadsOn(hash, sources, w, u, v);
      UpdateTwice(w.lanes, i, u.lanes[i], After(hash, sources[i], w.lanes[i], steps));
    }
  }

  lemma UpdateTwice(lanes: seq<Lane>, i: nat, l: Lane, m: Lane)
    requires i < |lanes|
    ensures lanes[i := l][i := m] == lanes[i := m] && lanes[i := l][i] == l
  {}

  lemma SweptStep(source: seq<Byte>, l: Lane, c: Loop, i: nat, step: Step)
    requires Enabled(source, l, step) && l.tx.swept && i in c.inflight
    ensures Scheduled(c, i, step)
  {}

  /** A file in flight can be finished, with everything else left as it is. */
  lemma FinishFile(hash: Hash, sources: seq<seq<Byte>>, w: World, i: nat) returns (v: World)
    requires Working(hash, sources, w) && i in w.loop.inflight
    ensures Leads(hash, sources, w, v) && Working(hash, sources, v)
    ensures i < |w.lanes| == |v.lanes| && v.lanes[i].tx.ok && v == w.(lanes := w.lanes[i := v.lanes[i]])
  {
    InFlightFacts(hash, sources, w, i);
    if w.lanes[i].tx.ok {
      v := w;
      LeadsNowhere(hash, sources, w);
      assert w.lanes[i := w.lanes[i]] == w.lanes;
    } else {
      hide Working, Leads, IsRun, After, Going;
      GoingCanOk(hash, sources[i], w.lanes[i]);
      var steps :| IsRun(hash, sources[i], w.lanes[i], steps) && After(hash, sources[i], w.lanes[i], steps).tx.ok;
      v := LiftRun(hash, sources, w, i, steps);
    }
  }

  lemma InFlightFacts(hash: Hash, sources: seq<seq<Byte>>, w: World, i: nat)
    requires Working(hash, sources, w) && i in w.loop.inflight
    ensures i < |w.lanes| == |sources| && w.lanes[i].tx.swept
    ensures !w.lanes[i].tx.ok ==> Going(hash, sources[i], w.lanes[i])
  {
    LaneFacts(hash, sources, w);
    hide Inv, NodeInv, Told, OneReset, LoopInv, LanesGoing;
  }

  /** What a working world says of its lanes. */
  lemma LaneFacts(hash: Hash, sources: seq<seq<Byte>>, w: World)
    requires Working(hash, sources, w)
    ensures |w.lanes| == |sources|
    ensures forall i | 0 <= i < |w.lanes| :: !w.lanes[i].tx.ok ==> Going(hash, sources[i], w.lanes[i])
    ensures forall i | 0 <= i < |w.lanes| :: w.lanes[i].tx.ok ==> w.lanes[i].rx.verified
  {
    WorldLanes(hash, sources, w);
    hide NodeInv, Told, OneReset, LoopInv;
    forall i | 0 <= i < |w.lanes|
      ensures !w.lanes[i].tx.ok ==> Going(hash, sources[i], w.lanes[i])
      ensures w.lanes[i].tx.ok ==> w.lanes[i].rx.verified
    {
      assert LaneOk(hash, sources[i], w.lanes[i]);
      EarlyIsOk(hash, sources[i], w.lanes[i]);
    }
  }

  lemma EarlyIsOk(hash: Hash, source: seq<Byte>, l: Lane)
    requires Inv(hash, source, l)
    ensures (l.early ==> l.tx.ok) && (l.tx.ok ==> l.rx.verified)
  {
    hide Wf, RxInv, DataInv, SackInv;
  }

  // ---- the sending loop -----------------------------------------------------------------------------------

  /** The first `k` files in flight are done. */
  ghost predicate DoneUpTo(w: World, k: nat) {
    && k <= |w.loop.inflight|
    && forall j | 0 <= j < k :: w.loop.inflight[j] < |w.lanes| && w.lanes[w.loop.inflight[j]].tx.ok
  }

  lemma OneMoreDone(w: World, u: World, k: nat)
    requires DoneUpTo(w, k) && k < |w.loop.inflight| && u.loop == w.loop && |u.lanes| == |w.lanes|
    requires var i := w.loop.inflight[k]; i < |w.lanes| && u.lanes[i].tx.ok && u.lanes == w.lanes[i := u.lanes[i]]
    ensures DoneUpTo(u, k + 1)
  {}

  lemma {:induction false} FinishInFlight(hash: Hash, sources: seq<seq<Byte>>, w: World, k: nat) returns (v: World)
    requires Working(hash, sources, w) && DoneUpTo(w, k)
    ensures Leads(hash, sources, w, v) && Working(hash, sources, v)
    ensures v.loop == w.loop && DoneUpTo(v, |v.loop.inflight|)
    decreases |w.loop.inflight| - k
  {
    if k == |w.loop.inflight| {
      v := w;
      LeadsNowhere(hash, sources, w);
    } else {
      var i := w.loop.inflight[k];
      hide Working, Leads, DoneUpTo;
      var u := FinishFile(hash, sources, w, i);
      OneMoreDone(w, u, k);
      v := FinishInFlight(hash, sources, u, k + 1);
      LeadsOn(hash, sources, w, u, v);
    }
  }

  /** Finished files leave the list of those in flight. */
  lemma ReapAll(hash: Hash, sources: seq<seq<Byte>>, w: World) returns (v: World)
    requires Working(hash, sources, w) && DoneUpTo(w, |w.loop.inflight|) && !w.loop.finished
    ensures Leads(hash, sources, w, v) && Working(hash, sources, v)
    ensures v == w.(loop := w.loop.(inflight := []))
  {
    hide Working, Leads;
    WorkingTurn(hash, sources, w, LoopTurn(Reap));
    v := Take(hash, sources, w, LoopTurn(Reap));
    NoneLeft(w);
  }

  lemma NoneLeft(w: World)
    requires DoneUpTo(w, |w.loop.inflight|)
    ensures Reaped(w.loop.inflight, Oks(w.lanes)) == []
  {
    var ok := Oks(w.lanes);
    var r := Reaped(w.loop.inflight, ok);
    assert r != [] ==> r[0] in r;
    ReapedMembers(w.loop.inflight, ok);
    forall j | j in w.loop.inflight ensures j < |ok| && ok[j] {
      var k :| 0 <= k < |w.loop.inflight| && w.loop.inflight[k] == j;
    }
  }

  /** The next file is swept by one step. */
  lemma SweepOnce(hash: Hash, sources: seq<seq<Byte>>, w: World) returns (v: World)
    requires Working(hash, sources, w) && w.loop.inflight == [] && w.loop.next < |w.lanes| == |sources|
    requires !w.lanes[w.loop.next].tx.ok && !w.lanes[w.loop.next].tx.swept
    ensures Leads(hash, sources, w, v) && Working(hash, sources, v)
    ensures var i := w.loop.next;
            && |v.lanes| == |w.lanes| && v == w.(lanes := w.lanes[i := v.lanes[i]])
            && !v.lanes[i].tx.ok && SweepLeft(sources[i], v.lanes[i]) < SweepLeft(sources[i], w.lanes[i])
  {
    hide Working, Leads, Wf, Going, Apply, Enabled, SweepLeft;
    var i := w.loop.next;
    LaneFacts(hash, sources, w);
    var step := SweepStep(hash, sources[i], w.lanes[i]);
    WorkingTurn(hash, sources, w, LaneTurn(i, step));
    v := Take(hash, sources, w, LaneTurn(i, step));
  }

  /** The next file is swept to its end. */
  lemma {:induction false} SweepFile(hash: Hash, sources: seq<seq<Byte>>, w: World) returns (v: World)
    requires Working(hash, sources, w) && w.loop.inflight == [] && w.loop.next < |w.lanes| == |sources|
    requires !w.lanes[w.loop.next].tx.ok
    ensures Leads(hash, sources, w, v) && Working(hash, sources, v)
    ensures var i := w.loop.next;
            && |v.lanes| == |w.lanes| && v == w.(lanes := w.lanes[i := v.lanes[i]])
            && v.lanes[i].tx.swept && !v.lanes[i].tx.ok
    decreases SweepLeft(sources[w.loop.next], w.lanes[w.loop.next])
  {
    hide Working, Leads, SweepLeft;
    var i := w.loop.next;
    if w.lanes[i].tx.swept {
      v := w;
      LeadsNowhere(hash, sources, w);
      assert w.lanes[i := w.lanes[i]] == w.lanes;
    } else {
      var u := SweepOnce(hash, sources, w);
      v := SweepFile(hash, sources, u);
      LeadsOn(hash, sources, w, u, v);
      UpdateTwice(w.lanes, i, u.lanes[i], v.lanes[i]);
    }
  }

  lemma SweepStep(hash: Hash, source: seq<Byte>, l: Lane) returns (step: Step)
    requires Going(hash, source, l) && !l.tx.swept && !l.tx.ok
    ensures step == SweepBlock || step == FinishSweep
    ensures Wf(l.rx) && Enabled(source, l, step)
    ensures var m := Apply(hash, source, l, step); !m.tx.ok && SweepLeft(source, m) < SweepLeft(source, l)
  {
    hide Wf, RxInv, DataInv, AckInv, SackInv, OneReset;
    step := if l.tx.pos < BlockCount(|source|) then SweepBlock else FinishSweep;
  }

  /** One file further. */
  lemma PassFile(hash: Hash, sources: seq<seq<Byte>>, w: World) returns (v: World)
    requires Working(hash, sources, w) && w.loop.inflight == [] && !w.loop.finished
    requires w.loop.next < |w.lanes| == |sources|
    ensures Leads(hash, sources, w, v) && Working(hash, sources, v)
    ensures v.loop.next == w.loop.next + 1 && !v.loop.finished
  {
    hide Working, Leads;
    if w.lanes[w.loop.next].tx.ok {
      WorkingTurn(hash, sources, w, LoopTurn(SkipVerified));
      v := Take(hash, sources, w, LoopTurn(SkipVerified));
    } else {
      var u := SweepFile(hash, sources, w);
      WorkingTurn(hash, sources, u, LoopTurn(SweepNext));
      v := Take(hash, sources, u, LoopTurn(SweepNext));
      LeadsOn(hash, sources, w, u, v);
    }
  }

  lemma LoopBounded(hash: Hash, sources: seq<seq<Byte>>, w: World)
    requires Working(hash, sources, w)
    ensures w.loop.next <= |w.lanes| == |sources|
    ensures w.loop.finished ==> AllOk(w.lanes)
  {
    WorldLanes(hash, sources, w);
    hide NodeInv, Told, LaneOk, LanesGoing;
    if w.loop.finished {
      forall j | 0 <= j < |w.lanes| ensures w.lanes[j].tx.ok {
        var n: nat := j;
        assert Oks(w.lanes)[n];
      }
    }
  }

  /** The loop gets to its end, with every file done. */
  lemma {:induction false} LoopEnds(hash: Hash, sources: seq<seq<Byte>>, w: World) returns (v: World)
    requires Working(hash, sources, w)
    ensures Leads(hash, sources, w, v) && Working(hash, sources, v)
    ensures v.loop.finished && AllOk(v.lanes)
    decreases |sources| - w.loop.next
  {
    hide Working, Leads, AllOk;
    LoopBounded(hash, sources, w);
    if w.loop.finished {
      v := w;
      LeadsNowhere(hash, sources, w);
    } else {
      var a := FinishInFlight(hash, sources, w, 0);
      var b := ReapAll(hash, sources, a);
      LeadsOn(hash, sources, w, a, b);
      LoopBounded(hash, sources, b);
      if b.loop.next == |sources| {
        WorkingTurn(hash, sources, b, LoopTurn(Finish));
        v := Take(hash, sources, b, LoopTurn(Finish));
        LeadsOn(hash, sources, w, b, v);
        LoopBounded(hash, sources, v);
      } else {
        var c := PassFile(hash, sources, b);
        LeadsOn(hash, sources, w, b, c);
        v := LoopEnds(hash, sources, c);
        LeadsOn(hash, sources, w, c, v);
      }
    }
  }

  // ---- the conclusion --------------------------------------------------------------------------------------

  ghost predicate BothCompleted(w: World) {
    w.sender.phase == Completed && w.receiver.phase == Completed
  }

  /** The sender's engine ends. */
  lemma SenderFinishes(hash: Hash, sources: seq<seq<Byte>>, w: World) returns (v: World)
    requires Working(hash, sources, w) && w.loop.finished
    ensures Leads(hash, sources, w, v) && Working(hash, sources, v)
    ensures v == w.(sender := v.sender) && v.sender.finished
  {
    hide Leads, NodeInv, Told, WorldInv, LanesGoing;
    SessionTurn(hash, sources, w, SenderTurn(EngineFinishes));
    v := Take(hash, sources, w, SenderTurn(EngineFinishes));
  }

  /** The sender says so. */
  lemma SenderTells(hash: Hash, sources: seq<seq<Byte>>, w: World) returns (v: World)
    requires Working(hash, sources, w) && w.sender.finished
    ensures Leads(hash, sources, w, v) && WorldInv(hash, sources, v)
    ensures v == w.(sender := v.sender) && v.sender.phase == Completed && TransferDone in v.sender.out
  {
    SidesOf(hash, sources, w);
    hide Alive, Leads, SenderAllDone, NodeInv, Told, WorldInv;
    NotDoneYet(w.sender);
    AllDonePhase(w.sender);
    SenderAllDoneMeans(w.sender);
    SessionTurn(hash, sources, w, SenderTurn(AllDone));
    AliveInv(hash, sources, w);
    TurnInv(hash, sources, w, SenderTurn(AllDone));
    v := Take(hash, sources, w, SenderTurn(AllDone));
  }

  lemma SenderConcludes(hash: Hash, sources: seq<seq<Byte>>, w: World) returns (v: World)
    requires Working(hash, sources, w) && w.loop.finished
    ensures Leads(hash, sources, w, v) && WorldInv(hash, sources, v)
    ensures v == w.(sender := v.sender) && v.sender.phase == Completed && TransferDone in v.sender.out
  {
    hide Working, Leads, WorldInv;
    var u := SenderFinishes(hash, sources, w);
    v := SenderTells(hash, sources, u);
    LeadsOn(hash, sources, w, u, v);
  }

  lemma AliveInv(hash: Hash, sources: seq<seq<Byte>>, w: World)
    requires Alive(hash, sources, w)
    ensures WorldInv(hash, sources, w)
  {}

  lemma NotDoneYet(n: Node)
    requires Told(n) && !Terminal(n.phase)
    ensures !n.doneSent
  {}

  /** The receiver's engine ends, and it hears the sender's confirmation. */
  lemma ReceiverConcludes(hash: Hash, sources: seq<seq<Byte>>, w: World) returns (v: World)
    requires WorldInv(hash, sources, w) && AllVerified(w.lanes) && TransferDone in w.sender.out
    requires w.receiver.engine && !w.receiver.isSender && !Terminal(w.receiver.phase)
    ensures Leads(hash, sources, w, v)
    ensures v == w.(receiver := v.receiver) && v.receiver.phase == Completed
  {
    hide Leads, Confirmed, WorldInv, AllVerified;
    var a, b := ReceiverTurn(EngineFinishes), ReceiverTurn(TransferDoneArrives);
    LeadsOnce(hash, sources, w, a);
    var u := Take(hash, sources, w, a);
    LeadsOnce(hash, sources, u, b);
    ConfirmedPhase(u.receiver);
    v := Take(hash, sources, u, b);
    LeadsOn(hash, sources, w, u, v);
  }

  /** From every world that is alive, both sides can still complete. */
  lemma AliveCompletes(hash: Hash, sources: seq<seq<Byte>>, w: World) returns (v: World)
    requires Alive(hash, sources, w)
    ensures Leads(hash, sources, w, v) && BothCompleted(v)
  {
    hide Working, Alive, Leads, AllOk, AllVerified, WorldInv;
    var a := BothStart(hash, sources, w);
    var b := LoopEnds(hash, sources, a);
    LeadsOn(hash, sources, w, a, b);
    WorkingSides(hash, sources, b);
    OkIsVerified(hash, sources, b);
    var c := SenderConcludes(hash, sources, b);
    LeadsOn(hash, sources, w, b, c);
    v := ReceiverConcludes(hash, sources, c);
    LeadsOn(hash, sources, w, c, v);
  }

  lemma WorkingSides(hash: Hash, sources: seq<seq<Byte>>, w: World)
    requires Working(hash, sources, w)
    ensures w.receiver.engine && !w.receiver.isSender && !Terminal(w.receiver.phase)
  {
    SidesOf(hash, sources, w);
  }

  lemma OkIsVerified(hash: Hash, sources: seq<seq<Byte>>, w: World)
    requires Working(hash, sources, w) && AllOk(w.lanes)
    ensures AllVerified(w.lanes)
  {
    hide Working;
    LaneFacts(hash, sources, w);
  }

  // ---- from the start ---------------------------------------------------------------------------------------

  lemma {:induction false} PlayTold(hash: Hash, sources: seq<seq<Byte>>, w: World, turns: seq<Turn>)
    requires Told(w.sender) && Told(w.receiver) && IsPlay(hash, sources, w, turns)
    ensures var v := Played(hash, sources, w, turns); Told(v.sender) && Told(v.receiver)
    decreases |turns|
  {
    hide Told, Handle;
    if turns != [] {
      if turns[0].SenderTurn? { HandleTold(w.sender, turns[0].e); }
      if turns[0].ReceiverTurn? { HandleTold(w.receiver, turns[0].e); }
      PlayTold(hash, sources, Take(hash, sources, w, turns[0]), turns[1..]);
    }
  }

  /** No part file is longer than its file. */
  predicate PartsFit(sources: seq<seq<Byte>>, disks: seq<Disk>) {
    && |sources| == |disks|
    && forall i | 0 <= i < |disks| && disks[i].part.Some? :: |disks[i].part.value| <= |sources[i]|
  }

  lemma StartGoing(sources: seq<seq<Byte>>, disks: seq<Disk>)
    requires PartsFit(sources, disks)
    ensures LanesGoing(sources, StartWorld(sources, disks).lanes)
  {
    hide StartLane, OneReset, StartRx;
    var w := StartWorld(sources, disks);
    forall i | 0 <= i < |w.lanes| ensures w.lanes[i].early || OneReset(sources[i], w.lanes[i]) {
      StartFits(sources[i], disks[i]);
    }
  }

  lemma StartFits(source: seq<Byte>, d: Disk)
    requires d.part.Some? ==> |d.part.value| <= |source|
    ensures var l := StartLane(|source|, d.part, d.final, d.record); l.early || OneReset(source, l)
  {
    hide OneReset;
    StartEarly(|source|, d.part, d.final, d.record);
    if !StartRx(|source|, d.part, d.final, d.record).verified {
      StartOneReset(source, d.part, d.final, d.record);
    }
  }

  lemma {:induction false} PlayGoing(hash: Hash, sources: seq<seq<Byte>>, w: World, turns: seq<Turn>)
    requires WorldInv(hash, sources, w) && LanesGoing(sources, w.lanes) && IsPlay(hash, sources, w, turns)
    ensures LanesGoing(sources, Played(hash, sources, w, turns).lanes)
    decreases |turns|
  {
    hide WorldInv, LanesGoing, CanTake, Take;
    if turns != [] {
      TurnInv(hash, sources, w, turns[0]);
      TurnLanesGoing(hash, sources, w, turns[0]);
      PlayGoing(hash, sources, Take(hash, sources, w, turns[0]), turns[1..]);
    }
  }

  /**
   Whatever has happened so far: as long as neither session has ended, a transfer of at
   least one file can still be completed on both sides.
   */
  lemma TransferCanComplete(hash: Hash, sources: seq<seq<Byte>>, disks: seq<Disk>, turns: seq<Turn>)
    returns (more: seq<Turn>)
    requires PartsFit(sources, disks) && sources != [] && IsPlay(hash, sources, StartWorld(sources, disks), turns)
    requires var w := Played(hash, sources, StartWorld(sources, disks), turns);
             !Terminal(w.sender.phase) && !Terminal(w.receiver.phase)
    ensures var w := Played(hash, sources, StartWorld(sources, disks), turns);
            && IsPlay(hash, sources, w, more)
            && BothCompleted(Played(hash, sources, w, more))
            && PlaysTo(hash, sources, w, more, Played(hash, sources, w, more))
  {
    var start := StartWorld(sources, disks);
    StartWorldInv(hash, sources, disks);
    StartGoing(sources, disks);
    NewTold();
    hide StartWorld, IsPlay, Played, Told, LanesGoing, WorldInv, PlaysTo, BothCompleted;
    PlayInv(hash, sources, start, turns);
    PlayGoing(hash, sources, start, turns);
    PlayTold(hash, sources, start, turns);
    var w := Played(hash, sources, start, turns);
    var v := AliveCompletes(hash, sources, w);
    more :| PlaysTo(hash, sources, w, more, v);
    PlaysToIsPlay(hash, sources, w, more, v);
  }
}
