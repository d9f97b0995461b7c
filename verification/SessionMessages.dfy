/** What a session has told its peer by the time it depends on an answer. */
module SessionMessages {
  import opened Session

  /**
   A sender with a transport has made its offer, a receiver with an engine has accepted,
   and neither goes on after its conclusion.
   */
  ghost predicate Told(n: Node) {
    && (n.isSender && n.offerSent ==> Offer in n.out)
    && (n.isSender && n.transportReady && !Terminal(n.phase) ==> n.offerSent)
    && (!n.isSender && n.engine && !Terminal(n.phase) ==> Accept in n.out)
    && (n.doneSent ==> Terminal(n.phase))
  }

  lemma NewTold()
    ensures Told(NEW_SENDER) && Told(NEW_RECEIVER)
  {}

  /** Everything `Told` depends on besides the phase stays, and messages are only added. */
  ghost predicate Quiet(n: Node, m: Node) {
    && m.isSender == n.isSender && m.offerSent == n.offerSent && m.transportReady == n.transportReady
    && m.engine == n.engine && m.doneSent == n.doneSent && Extends(n.out, m.out)
    && (Terminal(n.phase) ==> Terminal(m.phase))
  }

  lemma QuietTold(n: Node, m: Node)
    requires Told(n) && Quiet(n, m)
    ensures Told(m)
  {
    if Offer in n.out { ExtendsHas(n.out, m.out, Offer); }
    if Accept in n.out { ExtendsHas(n.out, m.out, Accept); }
  }

  lemma SetStateQuiet(n: Node, p: Phase)
    ensures Quiet(n, SetState(n, p))
  {
    hide SetState, Extends;
    SetStateParts(n, p);
    SetStateOut(n, p);
    SetStateDone(n, p);
    ExtendsItself(n.out);
  }

  lemma FailWithQuiet(n: Node, tell: bool)
    ensures Quiet(n, FailWith(n, tell)) && Terminal(FailWith(n, tell).phase)
  {
    hide SetState, Extends;
    FailWithPhase(n, tell);
    FailWithParts(n, tell);
    ExtendsItself(n.out);
    ExtendsSnoc(n.out, n.out, Error);
    var m := if tell then n.(out := n.out + [Error]) else n;
    SetStateDone(m, Failed);
    SetStateParts(m, Failed);
  }

  lemma EndedTold(n: Node)
    requires Terminal(n.phase) && (n.isSender && n.offerSent ==> Offer in n.out)
    ensures Told(n)
  {}

  lemma FailWithTold(n: Node, tell: bool)
    requires n.isSender && n.offerSent ==> Offer in n.out
    ensures Told(FailWith(n, tell))
  {
    hide FailWith, Extends;
    FailWithQuiet(n, tell);
    var m := FailWith(n, tell);
    if n.isSender && n.offerSent { ExtendsHas(n.out, m.out, Offer); }
    EndedTold(m);
  }

  lemma ReadyTold(n: Node, haveFiles: bool)
    requires Told(n)
    ensures Told(Ready(n, haveFiles))
  {
    hide SetState, FailWith;
    var m := n.(transportReady := true);
    if !n.transportReady {
      if !n.isSender {
        SetStateQuiet(m, WaitingOffer);
        QuietTold(m, SetState(m, WaitingOffer));
      } else if !haveFiles {
        FailWithTold(m, true);
      } else {
        OfferTold(m);
      }
    }
  }

  lemma OfferTold(n: Node)
    requires n.isSender && (n.offerSent ==> Offer in n.out) && (n.doneSent ==> Terminal(n.phase))
    ensures Told(MakeOffer(n, true))
  {
    hide SetState, Extends;
    var k := n.(offerSent := true);
    SetStateQuiet(k, Offering);
    var o := SetState(k, Offering);
    assert Offer in o.out + [Offer];
  }

  lemma OfferedTold(n: Node, usable: bool, started: bool)
    requires Told(n)
    ensures Told(Offered(n, usable, started))
  {
    hide SetState, FailWith, Extends;
    if !n.isSender && !n.engine {
      var m := n.(engine := true);
      FailWithTold(n, true);
      FailWithTold(m, true);
      var o := m.(out := n.out + [Accept]);
      assert Accept in o.out;
      SetStateQuiet(o, Transferring);
      QuietTold(o, SetState(o, Transferring));
    }
  }

  lemma AcceptedTold(n: Node, started: bool)
    requires Told(n)
    ensures Told(Accepted(n, started))
  {
    hide SetState, FailWith, Extends;
    if n.isSender && !n.acceptReceived {
      var m := n.(acceptReceived := true, engine := true);
      FailWithTold(m, true);
      SetStateQuiet(m, Transferring);
      QuietTold(m, SetState(m, Transferring));
    }
  }

  lemma AllDoneTold(n: Node)
    requires Told(n)
    ensures n.isSender ==> Told(SenderAllDone(n))
    ensures Told(ReceiverAllDone(n))
  {
    hide SetState, Extends;
    SetStateQuiet(n, Verifying);
    QuietTold(n, SetState(n, Verifying));
    SetStateQuiet(n, Completed);
    QuietTold(n, SetState(n, Completed));
    if n.isSender {
      var m := n.(doneSent := true, out := n.out + [TransferDone]);
      SetStateQuiet(m, Completed);
      SetStateParts(m, Completed);
      assert n.offerSent ==> Offer in m.out;
      ConcludedTold(m);
    }
  }

  lemma ConcludedTold(m: Node)
    requires m.isSender && (m.offerSent ==> Offer in m.out)
    ensures Told(SetState(m, Completed))
  {
    hide SetState;
    SetStateQuiet(m, Completed);
    SetStateParts(m, Completed);
    EndedTold(SetState(m, Completed));
  }

  lemma OtherTold(n: Node, e: Event)
    requires Told(n)
    requires e.TransportDown? || e.EngineFinishes? || e.PersistDue? || e.CancelArrives? || e.CancelLocal?
    ensures Told(Handle(n, e))
  {
    hide SetState, Extends;
    match e
    case CancelArrives =>
      SetStateQuiet(n, Cancelled);
      QuietTold(n, SetState(n, Cancelled));
    case CancelLocal =>
      var m := n.(out := n.out + [Cancel]);
      assert Told(m);
      SetStateQuiet(m, Cancelled);
      QuietTold(m, SetState(m, Cancelled));
    case _ =>
  }

  lemma ConfirmedTold(n: Node)
    requires Told(n)
    ensures Told(n.(confirmed := true)) && Told(Confirmed(n))
  {
    hide ReceiverAllDone;
    AllDoneTold(n.(confirmed := true));
  }

  /** Every event keeps it. */
  lemma HandleTold(n: Node, e: Event)
    requires Told(n)
    ensures Told(Handle(n, e))
  {
    hide Told, Ready, Offered, Accepted, Confirmed, FailWith, SenderAllDone, ReceiverAllDone;
    match e
    case TransportReady(haveFiles) => ReadyTold(n, haveFiles);
    case OfferArrives(usable, started) => OfferedTold(n, usable, started);
    case AcceptArrives(started) => AcceptedTold(n, started);
    case AllDone => AllDoneTold(n);
    case TransferDoneArrives => ConfirmedTold(n);
    case SessionEnds(reason) =>
      ConfirmedTold(n);
      AllDoneTold(n.(confirmed := true));
      FailTold(n, false);
    case ErrorArrives => FailTold(n, false);
    case EngineFails => FailTold(n, true);
    case _ => OtherTold(n, e);
  }

  lemma FailTold(n: Node, tell: bool)
    requires Told(n)
    ensures Told(FailWith(n, tell))
  {
    hide FailWith;
    FailWithTold(n, tell);
  }
}
