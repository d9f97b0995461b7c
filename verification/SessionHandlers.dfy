/**
 The session object: its event handlers update the fields in place. Each is proved to be
 the transition of module `Session`, to keep the session invariant, and to do for its
 caller what the protocol promises.
 */
module SessionHandlers {
  import opened Session

  class TransferSession {
    const isSender: bool
    var phase: Phase
    var announced: seq<Phase>
    var transportReady: bool
    var offerSent: bool
    var acceptReceived: bool
    var engine: bool
    var finished: bool
    var doneSent: bool
    var confirmed: bool
    var stored: seq<Stored>
    var out: seq<Msg>

    ghost function View(): Node
      reads this
    {
      Node(isSender, phase, announced, transportReady, offerSent, acceptReceived, engine, finished,
           doneSent, confirmed, stored, out)
    }

    ghost predicate Valid()
      reads this
    {
      NodeInv(View())
    }

    constructor (isSender: bool)
      ensures Valid() && View() == if isSender then NEW_SENDER else NEW_RECEIVER
    {
      this.isSender := isSender;
      phase, announced := Connecting, [];
      transportReady, offerSent, acceptReceived := false, false, false;
      engine, finished, doneSent, confirmed := false, false, false, false;
      stored, out := [], [];
      new;
      hide NodeInv;
      StartNodes();
    }

    method MoveTo(p: Phase)
      modifies this`phase, this`announced
      ensures View() == SetState(old(View()), p)
    {
      if phase == p || Terminal(phase) { return; }
      phase := p;
      announced := announced + [p];
    }

    method Fail(tellPeer: bool)
      modifies this`phase, this`announced, this`out
      ensures View() == FailWith(old(View()), tellPeer)
    {
      if Terminal(phase) { return; }
      if tellPeer { out := out + [Error]; }
      MoveTo(Failed);
    }

    /** At most one offer is ever made, and none without files. */
    method OnTransportReady(haveFiles: bool)
      requires Valid()
      modifies this
      ensures Valid() && View() == Handle(old(View()), TransportReady(haveFiles))
      ensures transportReady
      ensures offerSent <==> old(offerSent) || (isSender && haveFiles && !old(transportReady))
      ensures phase == if old(transportReady) || old(Terminal(phase)) then old(phase)
                       else if !isSender then WaitingOffer
                       else if !haveFiles then Failed
                       else if old(offerSent) then old(phase) else Offering
      ensures out == old(out) + ReadySends(old(View()), haveFiles) && stored == old(stored)
      ensures Announces(old(View()), View())
    {
      hide NodeInv, Ready, Announces;
      Facts(View(), TransportReady(haveFiles));
      ReadyMeans(View(), haveFiles);
      ReadyPhase(View(), haveFiles);
      TransportUp(haveFiles);
    }

    method TransportUp(haveFiles: bool)
      modifies this
      ensures View() == Ready(old(View()), haveFiles)
    {
      hide SetState, FailWith, MakeOffer;
      var first := !transportReady;
      transportReady := true;
      if !first { return; }
      if isSender {
        StartOffer(haveFiles);
      } else {
        MoveTo(WaitingOffer);
      }
    }

    method StartOffer(haveFiles: bool)
      requires isSender && transportReady
      modifies this
      ensures View() == MakeOffer(old(View()), haveFiles)
    {
      if offerSent || !haveFiles {
        if !haveFiles { Fail(true); }
        return;
      }
      offerSent := true;
      MoveTo(Offering);
      out := out + [Offer];
    }

    method OnTransportDown()
      requires Valid()
      modifies this`transportReady
      ensures Valid() && !transportReady && View() == Handle(old(View()), TransportDown)
    {
      hide NodeInv, SetState, FailWith, Announces;
      hide Ready, Offered, Accepted, Confirmed, Ended, CancelledHere, Persisted, SenderAllDone, ReceiverAllDone;
      Facts(View(), TransportDown);
      transportReady := false;
    }

    /** A receiver has one engine, accepts once, and only what it can use. */
    method HandleOffer(usable: bool, started: bool)
      requires Valid()
      modifies this
      ensures Valid() && View() == Handle(old(View()), OfferArrives(usable, started))
      ensures engine <==> old(engine) || (!isSender && usable)
      ensures out == old(out) + OfferedSends(old(View()), usable, started) && stored == old(stored)
      ensures phase == if isSender || old(engine) || old(Terminal(phase)) then old(phase)
                       else if usable && started then Transferring else Failed
      ensures old(engine) ==> View() == old(View())
      ensures Announces(old(View()), View())
    {
      hide NodeInv, SetState, FailWith, Announces;
      hide Ready, Accepted, Confirmed, Ended, CancelledHere, Persisted, SenderAllDone, ReceiverAllDone;
      Facts(View(), OfferArrives(usable, started));
      OfferedMeans(View(), usable, started);
      OfferedPhase(View(), usable, started);
      if isSender || engine { return; }
      if !usable {
        Fail(true);
        return;
      }
      engine := true;
      if !started {
        Fail(true);
        return;
      }
      out := out + [Accept];
      MoveTo(Transferring);
    }

    /** Only the first `accept` counts, and only at the sender. */
    method HandleAccept(started: bool)
      requires Valid()
      modifies this
      ensures Valid() && View() == Handle(old(View()), AcceptArrives(started))
      ensures isSender ==> engine && acceptReceived
      ensures !isSender || old(acceptReceived) ==> View() == old(View())
      ensures phase == if !isSender || old(acceptReceived) || old(Terminal(phase)) then old(phase)
                       else if started then Transferring else Failed
      ensures out == old(out) + AcceptedSends(old(View()), started) && stored == old(stored)
      ensures Announces(old(View()), View())
    {
      hide NodeInv, SetState, FailWith, Announces;
      hide Ready, Offered, Confirmed, Ended, CancelledHere, Persisted, SenderAllDone, ReceiverAllDone;
      Facts(View(), AcceptArrives(started));
      AcceptedPhase(View(), started);
      AcceptedSent(View(), started);
      if isSender { AcceptedMeans(View(), started); }
      if !isSender || acceptReceived { return; }
      acceptReceived := true;
      engine := true;
      if !started {
        Fail(true);
        return;
      }
      MoveTo(Transferring);
    }

    /** The peer is told that all is done, once, and the session is over. */
    method OnSenderAllDone()
      requires Valid() && isSender && engine && finished
      modifies this
      ensures Valid() && View() == Handle(old(View()), AllDone)
      ensures doneSent && TransferDone in out && out == old(out) + if old(doneSent) then [] else [TransferDone]
      ensures !old(doneSent) ==> Terminal(phase)
      ensures phase == (if old(Terminal(phase)) || old(doneSent) then old(phase) else Completed)
      ensures stored == old(stored)
      ensures Announces(old(View()), View())
    {
      hide NodeInv, SetState, FailWith, Announces;
      hide Ready, Offered, Accepted, Confirmed, Ended, CancelledHere, Persisted;
      Facts(View(), AllDone);
      SenderAllDoneMeans(View());
      SenderAllDoneSent(View());
      AllDonePhase(View());
      if doneSent { return; }
      doneSent := true;
      out := out + [TransferDone];
      MoveTo(Completed);
    }

    /** Completed and the record cleared together, and only once the sender has confirmed. */
    method OnReceiverAllDone()
      requires Valid() && !isSender && engine && finished
      modifies this`phase, this`announced, this`stored
      ensures Valid() && View() == Handle(old(View()), AllDone)
      ensures phase == if old(Terminal(phase)) then old(phase) else if confirmed then Completed else Verifying
      ensures stored == old(stored) + if old(Terminal(phase)) || phase != Completed then [] else [Cleared]
      ensures Announces(old(View()), View())
    {
      hide NodeInv, SetState, FailWith, Announces;
      hide Ready, Offered, Accepted, Confirmed, Ended, CancelledHere, Persisted;
      Facts(View(), AllDone);
      ReceiverAllDoneMeans(View());
      AllDonePhase(View());
      if Terminal(phase) { return; }
      if !confirmed {
        MoveTo(Verifying);
        return;
      }
      MoveTo(Completed);
      stored := stored + [Cleared];
    }

    /** A confirmation never stands in for the receiver's own verification. */
    method OnTransferDone()
      requires Valid()
      modifies this
      ensures Valid() && View() == Handle(old(View()), TransferDoneArrives)
      ensures !isSender ==> confirmed
      ensures phase == if isSender || !finished || old(Terminal(phase)) then old(phase) else Completed
      ensures stored == old(stored) + if old(Terminal(phase)) || phase != Completed then [] else [Cleared]
      ensures out == old(out) && Announces(old(View()), View())
    {
      hide NodeInv, SetState, FailWith, Announces;
      hide Ready, Offered, Accepted, Ended, CancelledHere, Persisted, SenderAllDone, ReceiverAllDone;
      Facts(View(), TransferDoneArrives);
      ConfirmedMeans(View());
      ConfirmedPhase(View());
      if isSender { return; }
      confirmed := true;
      if engine && finished {
        ConfirmedValid(old(View()));
        OnReceiverAllDone();
      }
    }

    /** The end of the connection ends the session: well only for a receiver with everything verified. */
    method OnSessionEnd(reason: EndReason)
      requires Valid()
      modifies this
      ensures Valid() && View() == Handle(old(View()), SessionEnds(reason))
      ensures Terminal(phase) && out == old(out)
      ensures phase == if old(Terminal(phase)) then old(phase)
                       else if !isSender && finished && !reason.OtherReason? then Completed else Failed
      ensures stored == old(stored) + if old(Terminal(phase)) || phase != Completed then [] else [Cleared]
      ensures Announces(old(View()), View())
    {
      hide NodeInv, SetState, FailWith, Announces;
      hide Ready, Offered, Accepted, Confirmed, CancelledHere, Persisted, SenderAllDone, ReceiverAllDone;
      Facts(View(), SessionEnds(reason));
      EndedMeans(View(), reason);
      EndedPhase(View(), reason);
      if Terminal(phase) { return; }
      if !isSender && engine && finished && (reason.ShareClosed? || reason.PeerLeft?) {
        confirmed := true;
        ConfirmedValid(old(View()));
        OnReceiverAllDone();
        return;
      }
      Fail(false);
    }

    /** Cancelling ends the session, tells the peer, and at the receiver forgets the transfer. */
    method CancelTransfer()
      requires Valid()
      modifies this
      ensures Valid() && View() == Handle(old(View()), CancelLocal)
      ensures Terminal(phase)
      ensures phase == (if old(Terminal(phase)) then old(phase) else Cancelled) && Announces(old(View()), View())
      ensures out == old(out) + if old(Terminal(phase)) then [] else [Cancel]
      ensures stored == old(stored) + if old(Terminal(phase)) || isSender then [] else [Cleared]
    {
      hide NodeInv, CancelledHere, Announces;
      Facts(View(), CancelLocal);
      CancelledHereMeans(View());
      CancelledHerePhase(View());
      CancelHere();
    }

    method CancelHere()
      modifies this`phase, this`announced, this`out, this`stored
      ensures View() == CancelledHere(old(View()))
    {
      hide SetState;
      if Terminal(phase) { return; }
      out := out + [Cancel];
      MoveTo(Cancelled);
      if !isSender { stored := stored + [Cleared]; }
    }

    /** A cancelled or failed transfer keeps its record, so that it can be resumed. */
    method OnCancelMessage()
      requires Valid()
      modifies this
      ensures Valid() && View() == Handle(old(View()), CancelArrives)
      ensures phase == (if old(Terminal(phase)) then old(phase) else Cancelled) && Announces(old(View()), View())
      ensures stored == old(stored) && out == old(out)
    {
      hide NodeInv, SetState, FailWith, Announces;
      hide Ready, Offered, Accepted, Confirmed, Ended, CancelledHere, Persisted, SenderAllDone, ReceiverAllDone;
      Facts(View(), CancelArrives);
      SetStateParts(View(), Cancelled);
      if Terminal(phase) { EndedState(View(), Cancelled); }
      if !Terminal(phase) { MoveTo(Cancelled); }
    }

    method OnErrorMessage()
      requires Valid()
      modifies this
      ensures Valid() && View() == Handle(old(View()), ErrorArrives)
      ensures phase == (if old(Terminal(phase)) then old(phase) else Failed) && Announces(old(View()), View())
      ensures stored == old(stored) && out == old(out)
    {
      hide NodeInv, SetState, FailWith, Announces;
      hide Ready, Offered, Accepted, Confirmed, Ended, CancelledHere, Persisted, SenderAllDone, ReceiverAllDone;
      Facts(View(), ErrorArrives);
      FailWithParts(View(), false);
      FailWithPhase(View(), false);
      Fail(false);
    }

    method OnEngineError()
      requires Valid()
      modifies this
      ensures Valid() && View() == Handle(old(View()), EngineFails)
      ensures phase == (if old(Terminal(phase)) then old(phase) else Failed) && Announces(old(View()), View())
      ensures stored == old(stored) && out == old(out) + if old(Terminal(phase)) then [] else [Error]
    {
      hide NodeInv, SetState, FailWith, Announces;
      hide Ready, Offered, Accepted, Confirmed, Ended, CancelledHere, Persisted, SenderAllDone, ReceiverAllDone;
      Facts(View(), EngineFails);
      FailWithParts(View(), true);
      FailWithPhase(View(), true);
      Fail(true);
    }

    /** A record is written only while the session lasts, so never after it was cleared. */
    method PersistReceiver(version: nat)
      requires Valid()
      modifies this`stored
      ensures Valid() && View() == Handle(old(View()), PersistDue(version))
      ensures Cleared in old(stored) ==> stored == old(stored)
      ensures stored == old(stored) + if Terminal(phase) then [] else [Saved(version)]
    {
      hide NodeInv, SetState, FailWith, Terminal, Announces;
      hide Ready, Offered, Accepted, Confirmed, Ended, CancelledHere, SenderAllDone, ReceiverAllDone;
      Facts(View(), PersistDue(version));
      PersistedMeans(View(), version);
      if Terminal(phase) { return; }
      stored := stored + [Saved(version)];
    }
  }

  lemma ConfirmedValid(n: Node)
    requires NodeInv(n) && !n.isSender
    ensures NodeInv(n.(confirmed := true))
  {
    FlagsInv(n, n.(confirmed := true));
  }

  /** What holds of the next state, whichever event it is. */
  lemma Facts(n: Node, e: Event)
    requires NodeInv(n) && Possible(n, e)
    ensures NodeInv(Handle(n, e)) && (n.finished ==> n.engine)
    ensures Terminal(n.phase) ==>
              var m := Handle(n, e); m.phase == n.phase && m.announced == n.announced && m.stored == n.stored
    ensures Announces(n, Handle(n, e))
  {
    hide Announcements, Records, DoneTold, Outcome, Handle, Announces;
    HandleInv(n, e);
    HandleAnnounces(n, e);
    if Terminal(n.phase) { TerminalAbsorbs(n, e); }
  }
}
