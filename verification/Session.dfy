/**
 The transfer session: the transitions that drive the ctrl protocol on either side, one
 function per event, and what they keep over whole sessions. Module `SessionHandlers`
 has the same handlers as methods of an object.
 */
module Session {

  datatype Phase =
    Connecting | Offering | WaitingOffer | Transferring | Verifying | Completed | Failed | Cancelled

  predicate Terminal(p: Phase) {
    p.Completed? || p.Failed? || p.Cancelled?
  }

  /** The ctrl messages a session sends; their payloads belong to the engines. */
  datatype Msg = Offer | Accept | TransferDone | Cancel | Error

  /** What is stored of a receiver's transfer: a resume record, or nothing. */
  datatype Stored = Saved(version: nat) | Cleared

  /**
   `announced` are the phases reported to the owner, `stored` every write of the
   resume record and `out` every ctrl message. `engine` says that a sending or
   receiving engine exists, `finished` that it ended with every file done.
   */
  datatype Node = Node(
    isSender: bool,
    phase: Phase,
    announced: seq<Phase>,
    transportReady: bool,
    offerSent: bool,
    acceptReceived: bool,
    engine: bool,
    finished: bool,
    doneSent: bool,
    confirmed: bool,
    stored: seq<Stored>,
    out: seq<Msg>)

  datatype EndReason = ShareClosed | PeerLeft | OtherReason

  datatype Event =
    | TransportReady(haveFiles: bool)
    | TransportDown
    | OfferArrives(usable: bool, started: bool)
    | AcceptArrives(started: bool)
    | EngineFinishes
    | AllDone
    | TransferDoneArrives
    | SessionEnds(reason: EndReason)
    | CancelLocal
    | CancelArrives
    | ErrorArrives
    | EngineFails
    | PersistDue(version: nat)

  const NEW_SENDER := Node(true, Connecting, [], false, false, false, false, false, false, false, [], [])
  const NEW_RECEIVER := NEW_SENDER.(isSender := false)

  function SetState(n: Node, p: Phase): Node {
    if n.phase == p || Terminal(n.phase) then n else n.(phase := p, announced := n.announced + [p])
  }

  /** `Fail`: the peer is told unless it is the cause or gone. The resume record is kept. */
  function FailWith(n: Node, tellPeer: bool): Node {
    if Terminal(n.phase) then n
    else SetState(if tellPeer then n.(out := n.out + [Error]) else n, Failed)
  }

  function ReceiverAllDone(n: Node): Node {
    if Terminal(n.phase) then n
    else if !n.confirmed then SetState(n, Verifying)
    else
      var m := SetState(n, Completed);
      m.(stored := m.stored + [Cleared])
  }

  function SenderAllDone(n: Node): Node {
    if n.doneSent then n
    else SetState(n.(doneSent := true, out := n.out + [TransferDone]), Completed)
  }

  /** The transport is up, for the first time or again. */
  function Ready(n: Node, haveFiles: bool): Node {
    var m := n.(transportReady := true);
    if n.transportReady then m
    else if n.isSender then MakeOffer(m, haveFiles) else SetState(m, WaitingOffer)
  }

  function MakeOffer(n: Node, haveFiles: bool): Node {
    if !haveFiles then FailWith(n, true)
    else if n.offerSent then n
    else
      var o := SetState(n.(offerSent := true), Offering);
      o.(out := o.out + [Offer])
  }

  /** An `offer`; `usable` if the manifest and the save directory are, `started` if the engine came up. */
  function Offered(n: Node, usable: bool, started: bool): Node {
    if n.isSender || n.engine then n
    else if !usable then FailWith(n, true)
    else if !started then FailWith(n.(engine := true), true)
    else SetState(n.(engine := true, out := n.out + [Accept]), Transferring)
  }

  function Accepted(n: Node, started: bool): Node {
    if !n.isSender || n.acceptReceived then n
    else
      var m := n.(acceptReceived := true, engine := true);
      if !started then FailWith(m, true) else SetState(m, Transferring)
  }

  function Confirmed(n: Node): Node {
    if n.isSender then n
    else
      var m := n.(confirmed := true);
      if m.engine && m.finished then ReceiverAllDone(m) else m
  }

  function Ended(n: Node, reason: EndReason): Node {
    if Terminal(n.phase) then n
    else if !n.isSender && n.engine && n.finished && !reason.OtherReason? then
      ReceiverAllDone(n.(confirmed := true))
    else FailWith(n, false)
  }

  function CancelledHere(n: Node): Node {
    if Terminal(n.phase) then n
    else
      var m := SetState(n.(out := n.out + [Cancel]), Cancelled);
      if n.isSender then m else m.(stored := m.stored + [Cleared])
  }

  function Persisted(n: Node, version: nat): Node {
    if Terminal(n.phase) then n else n.(stored := n.stored + [Saved(version)])
  }

  function Handle(n: Node, e: Event): Node {
    match e
    case TransportReady(haveFiles) => Ready(n, haveFiles)
    case TransportDown => n.(transportReady := false)
    case OfferArrives(usable, started) => Offered(n, usable, started)
    case AcceptArrives(started) => Accepted(n, started)
    case EngineFinishes => n.(finished := true)
    case AllDone => if n.isSender then SenderAllDone(n) else ReceiverAllDone(n)
    case TransferDoneArrives => Confirmed(n)
    case SessionEnds(reason) => Ended(n, reason)
    case CancelLocal => CancelledHere(n)
    case CancelArrives => SetState(n, Cancelled)
    case ErrorArrives => FailWith(n, false)
    case EngineFails => FailWith(n, true)
    case PersistDue(version) => Persisted(n, version)
  }

  /** When the environment can raise an event: engines report only what they reached. */
  predicate Possible(n: Node, e: Event) {
    match e
    case EngineFinishes => n.engine
    case AllDone => n.engine && n.finished
    case _ => true
  }

  // ---- the invariant -----------------------------------------------------------------

  /** The last announcement is the phase, and at most the last one is terminal. */
  ghost predicate Announcements(phase: Phase, announced: seq<Phase>) {
    && (announced == [] <==> phase == Connecting)
    && (announced != [] ==> announced[|announced| - 1] == phase)
    && (forall i | 0 <= i < |announced| - 1 :: !Terminal(announced[i]))
  }

  /** A cleared record is the last thing stored, and only in a terminal phase. */
  ghost predicate Records(phase: Phase, stored: seq<Stored>) {
    forall i | 0 <= i < |stored| && stored[i] == Cleared :: i == |stored| - 1 && Terminal(phase)
  }

  /**
   A session completes only after its engine finished and, on the receiving side, after
   it was confirmed; it transfers only with an engine; each side has its own phases.
   */
  predicate Flags(n: Node) {
    && (n.finished ==> n.engine)
    && (n.phase == Completed ==> n.finished && if n.isSender then n.doneSent else n.confirmed)
    && (n.doneSent ==> n.isSender && n.finished)
    && (n.phase == Transferring || n.phase == Verifying ==> n.engine)
    && (if n.isSender then (n.engine <==> n.acceptReceived) && n.phase != WaitingOffer && n.phase != Verifying
        else !n.acceptReceived && n.phase != Offering)
  }

  /** `transfer_done` has been sent exactly if the session says so. */
  ghost predicate DoneTold(out: seq<Msg>, doneSent: bool) {
    TransferDone in out <==> doneSent
  }

  ghost predicate Consistent(n: Node) {
    Announcements(n.phase, n.announced) && Records(n.phase, n.stored) && Flags(n) && DoneTold(n.out, n.doneSent)
  }

  /**
   How a session ended shows in what it stored and sent: the record is cleared exactly by
   a receiver that completed or was cancelled on its own side, and the peer is told of a
   cancellation or an error only by a session that ended in one.
   */
  ghost predicate Outcome(n: Node) {
    && (Cleared in n.stored <==> !n.isSender && (n.phase == Completed || Cancel in n.out))
    && (Cancel in n.out ==> n.phase == Cancelled)
    && (Error in n.out ==> n.phase == Failed)
  }

  /** What every handler keeps. */
  ghost predicate NodeInv(n: Node) {
    Consistent(n) && Outcome(n)
  }

  lemma Announce(phase: Phase, announced: seq<Phase>, p: Phase)
    requires Announcements(phase, announced) && !Terminal(phase) && p != Connecting
    ensures Announcements(p, announced + [p])
  {}

  lemma SetStateInv(n: Node, p: Phase)
    requires Consistent(n) && p != Connecting && (!Terminal(n.phase) ==> Flags(n.(phase := p)))
    ensures Consistent(SetState(n, p))
  {
    hide Announcements, DoneTold;
    if !Terminal(n.phase) { Announce(n.phase, n.announced, p); }
  }

  /** Other flags, same announcements, records and messages. */
  lemma FlagsInv(n: Node, m: Node)
    requires Consistent(n) && Flags(m)
    requires m.phase == n.phase && m.announced == n.announced && m.stored == n.stored
    requires m.out == n.out && m.doneSent == n.doneSent
    ensures Consistent(m)
  {
    hide Announcements, Records, DoneTold, Flags;
  }

  lemma SendInv(n: Node, msg: Msg)
    requires Consistent(n) && msg != TransferDone
    ensures Consistent(n.(out := n.out + [msg]))
  {
    hide Announcements, Records;
  }

  lemma StoreInv(n: Node, s: Stored)
    requires Consistent(n) && (forall i | 0 <= i < |n.stored| :: n.stored[i] != Cleared)
    requires s == Cleared ==> Terminal(n.phase)
    ensures Consistent(n.(stored := n.stored + [s]))
  {
    hide Announcements, DoneTold;
  }

  lemma NotCleared(n: Node)
    requires Consistent(n) && !Terminal(n.phase)
    ensures forall i | 0 <= i < |n.stored| :: n.stored[i] != Cleared
  {
    hide Announcements, DoneTold, Flags;
  }

  lemma SetStateParts(n: Node, p: Phase)
    ensures var m := SetState(n, p);
            && m.phase == (if Terminal(n.phase) then n.phase else p)
            && m.isSender == n.isSender && m.finished == n.finished && m.confirmed == n.confirmed
            && m.out == n.out && m.stored == n.stored
  {}

  lemma FailWithInv(n: Node, tellPeer: bool)
    requires Consistent(n)
    ensures Consistent(FailWith(n, tellPeer))
  {
    hide Consistent, SetState;
    if !Terminal(n.phase) {
      FailureFlags(n);
      if tellPeer { SendInv(n, Error); }
      SetStateInv(if tellPeer then n.(out := n.out + [Error]) else n, Failed);
    }
  }

  /** Failing or being cancelled asks nothing of the flags. */
  lemma FailureFlags(n: Node)
    requires Consistent(n)
    ensures forall p, out | p == Failed || p == Cancelled :: Flags(n.(phase := p, out := out))
  {
    hide Announcements, Records, DoneTold;
  }

  /** The resume record is cleared in the step that ends the session. */
  lemma ClearInv(n: Node, p: Phase)
    requires Consistent(n) && !Terminal(n.phase) && Terminal(p) && Flags(n.(phase := p))
    ensures var m := SetState(n, p); Consistent(m.(stored := m.stored + [Cleared]))
  {
    hide Consistent, SetState, Flags;
    SetStateInv(n, p);
    SetStateParts(n, p);
    NotCleared(n);
    StoreInv(SetState(n, p), Cleared);
  }

  lemma ReadyInv(n: Node, haveFiles: bool)
    requires Consistent(n)
    ensures Consistent(Ready(n, haveFiles))
  {
    hide Announcements, Records, DoneTold, SetState, FailWith;
    var m := n.(transportReady := true);
    FlagsInv(n, m);
    FlagsInv(n, m.(offerSent := true));
    if !n.isSender {
      SetStateInv(m, WaitingOffer);
    } else if !haveFiles {
      FailWithInv(m, true);
    } else {
      SetStateInv(m.(offerSent := true), Offering);
      SendInv(SetState(m.(offerSent := true), Offering), Offer);
    }
  }

  lemma OfferedInv(n: Node, usable: bool, started: bool)
    requires Consistent(n)
    ensures Consistent(Offered(n, usable, started))
  {
    hide Announcements, Records, DoneTold, SetState, FailWith;
    if !n.isSender && !n.engine {
      var m := n.(engine := true);
      FlagsInv(n, m);
      FailWithInv(n, true);
      FailWithInv(m, true);
      SendInv(m, Accept);
      SetStateInv(m.(out := n.out + [Accept]), Transferring);
    }
  }

  lemma AcceptedInv(n: Node, started: bool)
    requires Consistent(n)
    ensures Consistent(Accepted(n, started))
  {
    hide Announcements, Records, DoneTold, SetState, FailWith;
    if n.isSender && !n.acceptReceived {
      var m := n.(acceptReceived := true, engine := true);
      FlagsInv(n, m);
      FailWithInv(m, true);
      SetStateInv(m, Transferring);
    }
  }

  lemma ReceiverAllDoneInv(n: Node)
    requires Consistent(n) && !n.isSender && n.finished
    ensures Consistent(ReceiverAllDone(n))
  {
    hide Announcements, Records, DoneTold, SetState;
    if !Terminal(n.phase) {
      SetStateInv(n, Verifying);
      if n.confirmed { ClearInv(n, Completed); }
    }
  }

  lemma SenderAllDoneInv(n: Node)
    requires Consistent(n) && n.isSender && n.finished
    ensures Consistent(SenderAllDone(n))
  {
    hide Announcements, Records, SetState;
    if !n.doneSent {
      SetStateInv(n.(doneSent := true, out := n.out + [TransferDone]), Completed);
    }
  }

  lemma ConfirmedInv(n: Node)
    requires Consistent(n)
    ensures Consistent(Confirmed(n))
  {
    hide Announcements, Records, DoneTold, ReceiverAllDone;
    if !n.isSender {
      FlagsInv(n, n.(confirmed := true));
      if n.finished { ReceiverAllDoneInv(n.(confirmed := true)); }
    }
  }

  lemma EndedInv(n: Node, reason: EndReason)
    requires Consistent(n)
    ensures Consistent(Ended(n, reason))
  {
    hide Announcements, Records, DoneTold, ReceiverAllDone, FailWith;
    FailWithInv(n, false);
    if !n.isSender {
      FlagsInv(n, n.(confirmed := true));
      if n.finished { ReceiverAllDoneInv(n.(confirmed := true)); }
    }
  }

  lemma CancelledHereInv(n: Node)
    requires Consistent(n)
    ensures Consistent(CancelledHere(n))
  {
    hide Consistent, SetState;
    if !Terminal(n.phase) {
      var m := n.(out := n.out + [Cancel]);
      SendInv(n, Cancel);
      FailureFlags(n);
      SetStateInv(m, Cancelled);
      ClearInv(m, Cancelled);
    }
  }

  lemma PersistedInv(n: Node, version: nat)
    requires Consistent(n)
    ensures Consistent(Persisted(n, version))
  {
    hide Consistent;
    if !Terminal(n.phase) {
      NotCleared(n);
      StoreInv(n, Saved(version));
    }
  }

  lemma CancelArrivesInv(n: Node)
    requires Consistent(n)
    ensures Consistent(SetState(n, Cancelled))
  {
    hide Consistent, SetState;
    FailureFlags(n);
    SetStateInv(n, Cancelled);
  }

  lemma PlainInv(n: Node, e: Event)
    requires Consistent(n) && Possible(n, e) && (e.TransportDown? || e.EngineFinishes?)
    ensures Consistent(Handle(n, e))
  {
    hide Announcements, Records, DoneTold;
    FlagsInv(n, Handle(n, e));
  }

  lemma HandleConsistent(n: Node, e: Event)
    requires Consistent(n) && Possible(n, e)
    ensures Consistent(Handle(n, e))
  {
    hide Consistent, SetState, FailWith, ReceiverAllDone, SenderAllDone;
    hide Ready, Offered, Accepted, Confirmed, Ended, CancelledHere, Persisted;
    match e
    case TransportReady(haveFiles) => ReadyInv(n, haveFiles);
    case OfferArrives(usable, started) => OfferedInv(n, usable, started);
    case AcceptArrives(started) => AcceptedInv(n, started);
    case AllDone => if n.isSender { SenderAllDoneInv(n); } else { ReceiverAllDoneInv(n); }
    case TransferDoneArrives => ConfirmedInv(n);
    case SessionEnds(reason) => EndedInv(n, reason);
    case CancelLocal => CancelledHereInv(n);
    case CancelArrives => CancelArrivesInv(n);
    case ErrorArrives => FailWithInv(n, false);
    case EngineFails => FailWithInv(n, true);
    case PersistDue(version) => PersistedInv(n, version);
    case _ => PlainInv(n, e);
  }

  // ---- the outcome ---------------------------------------------------------------------

  /** `m` is `n` after an event that sent `msgs` and stored `recs`. */
  lemma ChangedOutcome(n: Node, m: Node, msgs: seq<Msg>, recs: seq<Stored>)
    requires Outcome(n) && !Terminal(n.phase)
    requires m.isSender == n.isSender && m.out == n.out + msgs && m.stored == n.stored + recs
    requires (Cancel in msgs ==> m.phase == Cancelled) && (Error in msgs ==> m.phase == Failed)
    requires Cleared in recs <==> !n.isSender && (m.phase == Completed || Cancel in msgs)
    ensures Outcome(m)
  {}

  lemma EndedOutcome(n: Node, e: Event)
    requires Consistent(n) && Outcome(n) && Terminal(n.phase)
    ensures Outcome(Handle(n, e))
  {
    hide Consistent, Handle;
    EndedSession(n, e);
    TerminalAbsorbs(n, e);
    HandleKeeps(n, e);
    assert Cancel !in SentLate(n, e) && Error !in SentLate(n, e);
  }

  ghost predicate Open(n: Node) {
    Outcome(n) && !Terminal(n.phase)
  }

  lemma ReadyOutcome(n: Node, haveFiles: bool)
    requires Open(n)
    ensures Outcome(Ready(n, haveFiles))
  {
    hide Outcome, Ready;
    ReadyKeeps(n, haveFiles);
    ReadyPhase(n, haveFiles);
    ReadyMeans(n, haveFiles);
    assert n.stored + [] == n.stored;
    ChangedOutcome(n, Ready(n, haveFiles), ReadySends(n, haveFiles), []);
  }

  lemma OfferedOutcome(n: Node, usable: bool, started: bool)
    requires Open(n)
    ensures Outcome(Offered(n, usable, started))
  {
    hide Outcome, Offered;
    OfferedKeeps(n, usable, started);
    OfferedPhase(n, usable, started);
    OfferedMeans(n, usable, started);
    assert n.stored + [] == n.stored;
    ChangedOutcome(n, Offered(n, usable, started), OfferedSends(n, usable, started), []);
  }

  lemma AcceptedOutcome(n: Node, started: bool)
    requires Open(n)
    ensures Outcome(Accepted(n, started))
  {
    hide Outcome, Accepted;
    AcceptedKeeps(n, started);
    AcceptedPhase(n, started);
    AcceptedSent(n, started);
    assert n.stored + [] == n.stored;
    ChangedOutcome(n, Accepted(n, started), AcceptedSends(n, started), []);
  }

  lemma SenderAllDoneOutcome(n: Node)
    requires Open(n) && n.isSender
    ensures Outcome(SenderAllDone(n))
  {
    hide Outcome, SenderAllDone;
    AllDoneKeeps(n);
    AllDonePhase(n);
    SenderAllDoneSent(n);
    assert n.stored + [] == n.stored;
    ChangedOutcome(n, SenderAllDone(n), if n.doneSent then [] else [TransferDone], []);
  }

  lemma ReceiverAllDoneOutcome(n: Node)
    requires Open(n) && !n.isSender
    ensures Outcome(ReceiverAllDone(n))
  {
    hide Outcome, ReceiverAllDone;
    AllDoneKeeps(n);
    AllDonePhase(n);
    ReceiverAllDoneMeans(n);
    assert n.out + [] == n.out;
    ChangedOutcome(n, ReceiverAllDone(n), [], if n.confirmed then [Cleared] else []);
  }

  lemma ConfirmedOutcome(n: Node)
    requires Open(n)
    ensures Outcome(Confirmed(n))
  {
    hide ReceiverAllDone;
    if !n.isSender { ReceiverAllDoneOutcome(n.(confirmed := true)); }
  }

  lemma EndingOutcome(n: Node, reason: EndReason)
    requires Open(n)
    ensures Outcome(Ended(n, reason))
  {
    hide ReceiverAllDone, FailWith;
    FailWithOutcome(n, false);
    if !n.isSender { ReceiverAllDoneOutcome(n.(confirmed := true)); }
  }

  lemma CancelledOutcome(n: Node)
    requires Open(n)
    ensures Outcome(CancelledHere(n))
  {
    hide Outcome, CancelledHere;
    CancelledHereKeeps(n);
    CancelledHerePhase(n);
    CancelledHereMeans(n);
    ChangedOutcome(n, CancelledHere(n), [Cancel], if n.isSender then [] else [Cleared]);
  }

  lemma FailWithOutcome(n: Node, tell: bool)
    requires Open(n)
    ensures Outcome(FailWith(n, tell))
  {
    hide Outcome, FailWith;
    FailWithKeeps(n, tell);
    FailWithPhase(n, tell);
    FailWithParts(n, tell);
    assert n.stored + [] == n.stored;
    ChangedOutcome(n, FailWith(n, tell), if tell then [Error] else [], []);
  }

  lemma PlainOutcome(n: Node, e: Event)
    requires Open(n) && (e.TransportDown? || e.EngineFinishes? || e.CancelArrives? || e.PersistDue?)
    ensures Outcome(Handle(n, e))
  {
    hide SetState;
    SetStateParts(n, Cancelled);
  }

  lemma HandleOutcome(n: Node, e: Event)
    requires Open(n)
    ensures Outcome(Handle(n, e))
  {
    hide Open, Outcome, SetState, FailWith, ReceiverAllDone, SenderAllDone;
    hide Ready, Offered, Accepted, Confirmed, Ended, CancelledHere, Persisted;
    match e
    case TransportReady(haveFiles) => ReadyOutcome(n, haveFiles);
    case OfferArrives(usable, started) => OfferedOutcome(n, usable, started);
    case AcceptArrives(started) => AcceptedOutcome(n, started);
    case AllDone => if n.isSender { SenderAllDoneOutcome(n); } else { ReceiverAllDoneOutcome(n); }
    case TransferDoneArrives => ConfirmedOutcome(n);
    case SessionEnds(reason) => EndingOutcome(n, reason);
    case CancelLocal => CancelledOutcome(n);
    case ErrorArrives => FailWithOutcome(n, false);
    case EngineFails => FailWithOutcome(n, true);
    case _ => PlainOutcome(n, e);
  }

  /** Every handler keeps the invariant. */
  lemma HandleInv(n: Node, e: Event)
    requires NodeInv(n) && Possible(n, e)
    ensures NodeInv(Handle(n, e))
  {
    hide Consistent, Outcome, Handle, Possible;
    HandleConsistent(n, e);
    if Terminal(n.phase) { EndedOutcome(n, e); } else { HandleOutcome(n, e); }
  }

  /** `m` has announced its phase, if that is not the phase of `n`, and nothing else. */
  predicate Announces(n: Node, m: Node) {
    m.announced == n.announced + if m.phase == n.phase then [] else [m.phase]
  }

  lemma SetStateAnnounces(n: Node, p: Phase)
    ensures Announces(n, SetState(n, p))
  {
    if n.phase == p || Terminal(n.phase) {
      assert n.announced + [] == n.announced;
    } else {
      assert SetState(n, p).announced == n.announced + [p];
    }
  }

  lemma FailWithAnnounces(n: Node, tell: bool)
    ensures Announces(n, FailWith(n, tell))
  {
    hide SetState;
    SetStateAnnounces(n, Failed);
    SetStateAnnounces(n.(out := n.out + [Error]), Failed);
  }

  lemma AllDoneAnnounces(n: Node)
    ensures Announces(n, ReceiverAllDone(n)) && Announces(n, SenderAllDone(n))
  {
    hide SetState;
    SetStateAnnounces(n, Verifying);
    SetStateAnnounces(n, Completed);
    SetStateAnnounces(n.(doneSent := true, out := n.out + [TransferDone]), Completed);
  }

  lemma ReadyAnnounces(n: Node, haveFiles: bool)
    ensures Announces(n, Ready(n, haveFiles))
  {
    hide SetState, FailWith;
    var m := n.(transportReady := true);
    SetStateAnnounces(m, WaitingOffer);
    SetStateAnnounces(m.(offerSent := true), Offering);
    FailWithAnnounces(m, true);
  }

  lemma OfferedAnnounces(n: Node, usable: bool, started: bool)
    ensures Announces(n, Offered(n, usable, started))
  {
    hide SetState, FailWith;
    FailWithAnnounces(n, true);
    FailWithAnnounces(n.(engine := true), true);
    SetStateAnnounces(n.(engine := true, out := n.out + [Accept]), Transferring);
  }

  lemma AcceptedAnnounces(n: Node, started: bool)
    ensures Announces(n, Accepted(n, started))
  {
    hide SetState, FailWith;
    var m := n.(acceptReceived := true, engine := true);
    FailWithAnnounces(m, true);
    SetStateAnnounces(m, Transferring);
  }

  lemma LastAnnounces(n: Node, reason: EndReason)
    ensures Announces(n, Confirmed(n)) && Announces(n, Ended(n, reason)) && Announces(n, CancelledHere(n))
  {
    hide SetState, FailWith, ReceiverAllDone;
    AllDoneAnnounces(n.(confirmed := true));
    FailWithAnnounces(n, false);
    SetStateAnnounces(n.(out := n.out + [Cancel]), Cancelled);
  }

  lemma PlainAnnounces(n: Node, e: Event)
    requires e.TransportDown? || e.EngineFinishes? || e.PersistDue?
    ensures Announces(n, Handle(n, e))
  {}

  /** An event announces the phase it leads to, if that is another one, and nothing else. */
  lemma HandleAnnounces(n: Node, e: Event)
    ensures Announces(n, Handle(n, e))
  {
    hide Announces, SetState, FailWith, ReceiverAllDone, SenderAllDone;
    hide Ready, Offered, Accepted, Confirmed, Ended, CancelledHere, Persisted;
    match e
    case TransportReady(haveFiles) => ReadyAnnounces(n, haveFiles);
    case OfferArrives(usable, started) => OfferedAnnounces(n, usable, started);
    case AcceptArrives(started) => AcceptedAnnounces(n, started);
    case AllDone => AllDoneAnnounces(n);
    case TransferDoneArrives => LastAnnounces(n, OtherReason);
    case SessionEnds(reason) => LastAnnounces(n, reason);
    case CancelLocal => LastAnnounces(n, OtherReason);
    case CancelArrives => SetStateAnnounces(n, Cancelled);
    case ErrorArrives => FailWithAnnounces(n, false);
    case EngineFails => FailWithAnnounces(n, true);
    case _ => PlainAnnounces(n, e);
  }

  function HandleAll(n: Node, events: seq<Event>): Node {
    if events == [] then n else Handle(HandleAll(n, events[..|events| - 1]), events[|events| - 1])
  }

  ghost predicate PossibleAll(n: Node, events: seq<Event>) {
    forall k | 0 <= k < |events| :: Possible(HandleAll(n, events[..k]), events[k])
  }

  /**
   Over a whole session: at most one terminal phase is announced, as the last one;
   once the resume record is cleared it is never written again; and a session that
   completed had its engine finish.
   */
  lemma {:induction false} SessionRun(n: Node, events: seq<Event>)
    requires NodeInv(n) && PossibleAll(n, events)
    ensures NodeInv(HandleAll(n, events))
    decreases |events|
  {
    hide NodeInv, Handle, Possible;
    if events != [] {
      var k := |events| - 1;
      var front := events[..k];
      forall j | 0 <= j < |front| ensures Possible(HandleAll(n, front[..j]), front[j]) {
        assert front[..j] == events[..j];
      }
      SessionRun(n, front);
      HandleInv(HandleAll(n, front), events[k]);
    }
  }

  lemma StartNodes()
    ensures NodeInv(NEW_SENDER) && NodeInv(NEW_RECEIVER)
  {}

  // ---- what no event takes back --------------------------------------------------------

  /** A normal end of the session as the receiver hears of it. */
  predicate NormalEnd(e: Event) {
    e.SessionEnds? && !e.reason.OtherReason?
  }

  /** What no event takes back, and what only some events bring about. */
  ghost predicate Kept(n: Node, e: Event, m: Node) {
    && m.isSender == n.isSender
    && Extends(n.out, m.out)
    && (m.finished ==> n.finished || e.EngineFinishes?)
    && (m.confirmed ==> n.confirmed || e.TransferDoneArrives? || NormalEnd(e))
  }

  ghost predicate Extends(a: seq<Msg>, b: seq<Msg>) {
    |a| <= |b| && a == b[..|a|]
  }

  lemma ExtendsHas(a: seq<Msg>, b: seq<Msg>, msg: Msg)
    requires Extends(a, b) && msg in a
    ensures msg in b
  {
    var i :| 0 <= i < |a| && a[i] == msg;
    assert b[i] == b[..|a|][i];
  }

  /** What one state change leaves alone. */
  ghost predicate Keeps(n: Node, m: Node) {
    m.isSender == n.isSender && m.finished == n.finished && m.confirmed == n.confirmed && Extends(n.out, m.out)
  }

  lemma SetStateKeeps(n: Node, p: Phase)
    ensures Keeps(n, SetState(n, p))
  {
    hide SetState, Extends;
    SetStateParts(n, p);
    ExtendsItself(n.out);
  }

  lemma SentKeeps(n: Node, m: Node, msg: Msg)
    requires Keeps(n.(out := n.out + [msg]), m)
    ensures Keeps(n, m)
  {
    assert (n.out + [msg])[..|n.out|] == n.out;
  }

  lemma FailWithKeeps(n: Node, tell: bool)
    ensures Keeps(n, FailWith(n, tell))
  {
    hide SetState, Extends;
    if Terminal(n.phase) {
      SetStateKeeps(n, n.phase);
      SetStateParts(n, n.phase);
      ExtendsItself(n.out);
    } else if tell {
      SetStateKeeps(n.(out := n.out + [Error]), Failed);
      SentKeeps(n, FailWith(n, tell), Error);
    } else {
      SetStateKeeps(n, Failed);
    }
  }

  lemma ExtendsItself(a: seq<Msg>)
    ensures Extends(a, a)
  {}

  lemma ExtendsSnoc(a: seq<Msg>, b: seq<Msg>, msg: Msg)
    requires Extends(a, b)
    ensures Extends(a, b + [msg])
  {}

  lemma AllDoneKeeps(n: Node)
    ensures Keeps(n, SenderAllDone(n)) && Keeps(n, ReceiverAllDone(n))
  {
    hide SetState, Extends;
    ExtendsItself(n.out);
    var m := n.(doneSent := true, out := n.out + [TransferDone]);
    SetStateKeeps(m, Completed);
    SentKeeps(n, SetState(m, Completed), TransferDone);
    SetStateKeeps(n, Verifying);
    SetStateKeeps(n, Completed);
  }

  lemma ReadyKeeps(n: Node, haveFiles: bool)
    ensures Keeps(n, Ready(n, haveFiles))
  {
    hide SetState, FailWith, Extends;
    ExtendsItself(n.out);
    var m := n.(transportReady := true);
    SetStateKeeps(m, WaitingOffer);
    FailWithKeeps(m, true);
    SetStateKeeps(m.(offerSent := true), Offering);
    ExtendsSnoc(n.out, SetState(m.(offerSent := true), Offering).out, Offer);
  }

  lemma OfferedKeeps(n: Node, usable: bool, started: bool)
    ensures Keeps(n, Offered(n, usable, started))
  {
    hide SetState, FailWith, Extends;
    ExtendsItself(n.out);
    var m := n.(engine := true);
    FailWithKeeps(n, true);
    FailWithKeeps(m, true);
    SetStateKeeps(m.(out := n.out + [Accept]), Transferring);
    SentKeeps(m, SetState(m.(out := n.out + [Accept]), Transferring), Accept);
  }

  lemma AcceptedKeeps(n: Node, started: bool)
    ensures Keeps(n, Accepted(n, started))
  {
    hide SetState, FailWith, Extends;
    ExtendsItself(n.out);
    var m := n.(acceptReceived := true, engine := true);
    FailWithKeeps(m, true);
    SetStateKeeps(m, Transferring);
  }

  lemma CancelledHereKeeps(n: Node)
    ensures Keeps(n, CancelledHere(n))
  {
    hide SetState, Extends;
    ExtendsItself(n.out);
    var m := n.(out := n.out + [Cancel]);
    SetStateKeeps(m, Cancelled);
    SentKeeps(n, SetState(m, Cancelled), Cancel);
  }

  lemma ConfirmedKeeps(n: Node)
    ensures var m := Confirmed(n); m.isSender == n.isSender && m.finished == n.finished && Extends(n.out, m.out)
  {
    hide ReceiverAllDone, Extends;
    ExtendsItself(n.out);
    AllDoneKeeps(n.(confirmed := true));
  }

  lemma KeepsIsKept(n: Node, e: Event, m: Node)
    requires Keeps(n, m)
    ensures Kept(n, e, m)
  {
    hide Extends;
  }

  lemma PlainKept(n: Node, e: Event)
    requires e.TransportDown? || e.EngineFinishes? || e.PersistDue?
    ensures Kept(n, e, Handle(n, e))
  {
    hide Extends;
    ExtendsItself(n.out);
  }

  lemma ConfirmedKept(n: Node)
    ensures Kept(n, TransferDoneArrives, Confirmed(n))
  {
    hide Extends, Confirmed;
    ConfirmedKeeps(n);
  }

  lemma EndedKeeps(n: Node, reason: EndReason)
    ensures Kept(n, SessionEnds(reason), Ended(n, reason))
  {
    hide ReceiverAllDone, FailWith, Extends;
    ExtendsItself(n.out);
    AllDoneKeeps(n.(confirmed := true));
    FailWithKeeps(n, false);
  }

  lemma HandleKeeps(n: Node, e: Event)
    ensures Kept(n, e, Handle(n, e))
  {
    hide Kept, Keeps, SetState, FailWith, ReceiverAllDone, SenderAllDone;
    hide Ready, Offered, Accepted, Confirmed, Ended, CancelledHere, Persisted;
    match e
    case TransportReady(haveFiles) => ReadyKeeps(n, haveFiles); KeepsIsKept(n, e, Handle(n, e));
    case OfferArrives(usable, started) => OfferedKeeps(n, usable, started); KeepsIsKept(n, e, Handle(n, e));
    case AcceptArrives(started) => AcceptedKeeps(n, started); KeepsIsKept(n, e, Handle(n, e));
    case AllDone => AllDoneKeeps(n); KeepsIsKept(n, e, Handle(n, e));
    case TransferDoneArrives => ConfirmedKept(n);
    case SessionEnds(reason) => EndedKeeps(n, reason);
    case CancelLocal => CancelledHereKeeps(n); KeepsIsKept(n, e, Handle(n, e));
    case CancelArrives => SetStateKeeps(n, Cancelled); KeepsIsKept(n, e, Handle(n, e));
    case ErrorArrives => FailWithKeeps(n, false); KeepsIsKept(n, e, Handle(n, e));
    case EngineFails => FailWithKeeps(n, true); KeepsIsKept(n, e, Handle(n, e));
    case _ => PlainKept(n, e);
  }

  // ---- after the end ---------------------------------------------------------------------

  /** Terminal phases are absorbing: nothing is announced or stored after them. */
  lemma TerminalAbsorbs(n: Node, e: Event)
    requires Terminal(n.phase)
    ensures var m := Handle(n, e);
            m.phase == n.phase && m.announced == n.announced && m.stored == n.stored
  {
    match e
    case TransportReady(haveFiles) =>
    case OfferArrives(usable, started) =>
    case AcceptArrives(started) =>
    case AllDone =>
    case TransferDoneArrives =>
    case _ =>
  }

  /** The events that start an engine although the session is over. */
  predicate StartsLate(n: Node, e: Event) {
    || (e.AcceptArrives? && n.isSender && !n.acceptReceived)
    || (e.OfferArrives? && e.usable && !n.isSender && !n.engine)
  }

  /** What an ended session still sends. */
  function SentLate(n: Node, e: Event): seq<Msg> {
    match e
    case OfferArrives(usable, started) =>
      if usable && started && !n.isSender && !n.engine then [Accept] else []
    case TransportReady(haveFiles) =>
      if n.isSender && !n.transportReady && haveFiles && !n.offerSent then [Offer] else []
    case AllDone =>
      if n.isSender && !n.doneSent then [TransferDone] else []
    case _ => []
  }

  /**
   What a session does after its end, for every event: the engine starts exactly on a
   first `accept` at a sender and on a usable `offer` at a receiver without an engine;
   and it still offers, accepts and confirms, but reports no error and no cancellation.
   */
  lemma EndedSession(n: Node, e: Event)
    requires Consistent(n) && Terminal(n.phase)
    ensures !n.engine && Handle(n, e).engine <==> StartsLate(n, e)
    ensures Handle(n, e).out == n.out + SentLate(n, e)
  {
    hide Consistent, Ready, Offered, Accepted, SenderAllDone, ReceiverAllDone;
    hide Confirmed, Ended, CancelledHere, FailWith;
    match e
    case TransportReady(haveFiles) => EndedReady(n, haveFiles);
    case OfferArrives(usable, started) => EndedOffer(n, usable, started);
    case AcceptArrives(started) => EndedAccept(n, started);
    case AllDone => EndedDone(n);
    case _ => EndedOther(n, e);
  }

  lemma EndedReady(n: Node, haveFiles: bool)
    requires Terminal(n.phase)
    ensures var m := Ready(n, haveFiles);
            m.engine == n.engine && m.out == n.out + SentLate(n, TransportReady(haveFiles))
  {
    hide SetState;
    EndedState(n.(transportReady := true), WaitingOffer);
    EndedState(n.(transportReady := true, offerSent := true), Offering);
  }

  lemma EndedOffer(n: Node, usable: bool, started: bool)
    requires Terminal(n.phase)
    ensures var m, e := Offered(n, usable, started), OfferArrives(usable, started);
            (!n.engine && m.engine <==> StartsLate(n, e)) && m.out == n.out + SentLate(n, e)
  {
    hide SetState;
    EndedState(n.(engine := true, out := n.out + [Accept]), Transferring);
  }

  lemma EndedAccept(n: Node, started: bool)
    requires Consistent(n) && Terminal(n.phase)
    ensures var m, e := Accepted(n, started), AcceptArrives(started);
            (!n.engine && m.engine <==> StartsLate(n, e)) && m.out == n.out + SentLate(n, e)
  {
    hide SetState, Announcements, Records, DoneTold;
    EndedState(n.(acceptReceived := true, engine := true), Transferring);
  }

  lemma EndedDone(n: Node)
    requires Terminal(n.phase)
    ensures var m := if n.isSender then SenderAllDone(n) else ReceiverAllDone(n);
            m.engine == n.engine && m.out == n.out + SentLate(n, AllDone)
  {
    hide SetState;
    EndedState(n.(doneSent := true, out := n.out + [TransferDone]), Completed);
  }

  lemma EndedOther(n: Node, e: Event)
    requires Terminal(n.phase) && !e.TransportReady? && !e.OfferArrives? && !e.AcceptArrives? && !e.AllDone?
    ensures Handle(n, e).engine == n.engine && Handle(n, e).out == n.out + SentLate(n, e)
  {
    hide SetState, FailWith, ReceiverAllDone;
    EndedState(n, Cancelled);
    EndedFails(n);
    EndedFails(n.(confirmed := true));
    assert n.out + [] == n.out;
  }

  lemma EndedFails(n: Node)
    requires Terminal(n.phase)
    ensures forall tell :: FailWith(n, tell) == n
    ensures ReceiverAllDone(n) == n
  {}

  lemma EndedState(n: Node, p: Phase)
    requires Terminal(n.phase)
    ensures SetState(n, p) == n
  {}

  // ---- phases that go back ------------------------------------------------------------------

  function Rank(p: Phase): nat {
    match p
    case Connecting => 0 case Offering => 1 case WaitingOffer => 1
    case Transferring => 2 case Verifying => 3
    case Completed => 4 case Failed => 4 case Cancelled => 4
  }

  /**
   The reported phase goes back exactly when the transport comes up in mid-transfer: a
   receiver then reports that it waits for an offer, and a sender that was accepted
   before its first transport that it makes one.
   */
  lemma PhaseGoesBack(n: Node, e: Event)
    requires Consistent(n) && Possible(n, e)
    ensures Rank(Handle(n, e).phase) < Rank(n.phase) <==>
              && e.TransportReady? && !n.transportReady && (n.phase == Transferring || n.phase == Verifying)
              && (n.isSender ==> e.haveFiles && !n.offerSent)
  {
    hide Announcements, Records, DoneTold, SetState, FailWith, ReceiverAllDone, SenderAllDone;
    hide Ready, Offered, Accepted, Confirmed, Ended, CancelledHere;
    match e
    case TransportReady(haveFiles) => ReadyPhase(n, haveFiles);
    case OfferArrives(usable, started) => OfferedPhase(n, usable, started);
    case AcceptArrives(started) => AcceptedPhase(n, started);
    case AllDone => AllDonePhase(n);
    case TransferDoneArrives => ConfirmedPhase(n);
    case SessionEnds(reason) => EndedPhase(n, reason);
    case CancelLocal => CancelledHerePhase(n);
    case CancelArrives => SetStateParts(n, Cancelled);
    case ErrorArrives => FailWithPhase(n, false);
    case EngineFails => FailWithPhase(n, true);
    case _ =>
  }

  lemma FailWithPhase(n: Node, tell: bool)
    ensures FailWith(n, tell).phase == if Terminal(n.phase) then n.phase else Failed
  {
    hide SetState;
    SetStateParts(n, Failed);
    SetStateParts(n.(out := n.out + [Error]), Failed);
  }

  lemma ReadyPhase(n: Node, haveFiles: bool)
    ensures Ready(n, haveFiles).phase
         == if n.transportReady || Terminal(n.phase) then n.phase
            else if !n.isSender then WaitingOffer
            else if !haveFiles then Failed
            else if n.offerSent then n.phase else Offering
  {
    hide SetState, FailWith;
    var m := n.(transportReady := true);
    SetStateParts(m, WaitingOffer);
    FailWithPhase(m, true);
    SetStateParts(m.(offerSent := true), Offering);
  }

  lemma OfferedPhase(n: Node, usable: bool, started: bool)
    ensures Offered(n, usable, started).phase
         == if n.isSender || n.engine || Terminal(n.phase) then n.phase
            else if usable && started then Transferring else Failed
  {
    hide SetState, FailWith;
    FailWithPhase(n, true);
    FailWithPhase(n.(engine := true), true);
    SetStateParts(n.(engine := true, out := n.out + [Accept]), Transferring);
  }

  lemma AcceptedPhase(n: Node, started: bool)
    ensures Accepted(n, started).phase
         == if !n.isSender || n.acceptReceived || Terminal(n.phase) then n.phase
            else if started then Transferring else Failed
  {
    hide SetState, FailWith;
    var m := n.(acceptReceived := true, engine := true);
    FailWithPhase(m, true);
    SetStateParts(m, Transferring);
  }

  lemma AllDonePhase(n: Node)
    ensures ReceiverAllDone(n).phase
         == if Terminal(n.phase) then n.phase else if n.confirmed then Completed else Verifying
    ensures SenderAllDone(n).phase == if n.doneSent || Terminal(n.phase) then n.phase else Completed
  {
    hide SetState;
    SetStateParts(n, Verifying);
    SetStateParts(n, Completed);
    SetStateParts(n.(doneSent := true, out := n.out + [TransferDone]), Completed);
  }

  lemma ConfirmedPhase(n: Node)
    ensures Confirmed(n).phase
         == if n.isSender || !n.engine || !n.finished || Terminal(n.phase) then n.phase else Completed
  {
    hide ReceiverAllDone;
    AllDonePhase(n.(confirmed := true));
  }

  lemma EndedPhase(n: Node, reason: EndReason)
    ensures Ended(n, reason).phase
         == if Terminal(n.phase) then n.phase
            else if !n.isSender && n.engine && n.finished && !reason.OtherReason? then Completed else Failed
  {
    hide ReceiverAllDone, FailWith;
    AllDonePhase(n.(confirmed := true));
    FailWithPhase(n, false);
  }

  lemma CancelledHerePhase(n: Node)
    ensures CancelledHere(n).phase == if Terminal(n.phase) then n.phase else Cancelled
  {
    hide SetState;
    SetStateParts(n.(out := n.out + [Cancel]), Cancelled);
  }

  // ---- what each event means for the owner of a session ---------------------------------------

  lemma SetStateOut(n: Node, p: Phase)
    ensures var m := SetState(n, p);
            m.offerSent == n.offerSent && m.engine == n.engine && m.transportReady == n.transportReady
  {}

  lemma FailWithParts(n: Node, tell: bool)
    ensures var m := FailWith(n, tell);
            && m.offerSent == n.offerSent && m.engine == n.engine && m.transportReady == n.transportReady
            && m.stored == n.stored
            && m.out == n.out + (if tell && !Terminal(n.phase) then [Error] else [])
  {
    hide SetState;
    var m := if tell then n.(out := n.out + [Error]) else n;
    SetStateParts(m, Failed);
    SetStateOut(m, Failed);
  }

  function ReadySends(n: Node, haveFiles: bool): seq<Msg> {
    if !n.isSender || n.transportReady then []
    else if haveFiles then (if n.offerSent then [] else [Offer])
    else if Terminal(n.phase) then [] else [Error]
  }

  /** At most one offer is made, and none without files. */
  lemma ReadyMeans(n: Node, haveFiles: bool)
    ensures var m := Ready(n, haveFiles);
            && m.transportReady && m.stored == n.stored && m.out == n.out + ReadySends(n, haveFiles)
            && (m.offerSent <==> n.offerSent || (n.isSender && haveFiles && !n.transportReady))
  {
    hide SetState, FailWith;
    var m := n.(transportReady := true);
    SetStateOut(m, WaitingOffer);
    SetStateParts(m, WaitingOffer);
    FailWithParts(m, true);
    SetStateOut(m.(offerSent := true), Offering);
    SetStateParts(m.(offerSent := true), Offering);
    assert n.out + [] == n.out;
  }

  function OfferedSends(n: Node, usable: bool, started: bool): seq<Msg> {
    if n.isSender || n.engine then []
    else if usable && started then [Accept]
    else if Terminal(n.phase) then [] else [Error]
  }

  /** A receiver has one engine, accepts once and only what it can use, and otherwise reports an error. */
  lemma OfferedMeans(n: Node, usable: bool, started: bool)
    ensures var m := Offered(n, usable, started);
            && (m.engine <==> n.engine || (!n.isSender && usable))
            && m.stored == n.stored && m.out == n.out + OfferedSends(n, usable, started)
  {
    hide SetState, FailWith;
    var m := Offered(n, usable, started);
    FailWithParts(n, true);
    FailWithParts(n.(engine := true), true);
    var o := n.(engine := true, out := n.out + [Accept]);
    SetStateOut(o, Transferring);
    SetStateParts(o, Transferring);
  }

  /** After an `accept` a sender has its engine. */
  lemma AcceptedMeans(n: Node, started: bool)
    requires NodeInv(n) && n.isSender
    ensures Accepted(n, started).engine
  {
    hide Announcements, Records, DoneTold, SetState, FailWith;
    var m := n.(acceptReceived := true, engine := true);
    FailWithParts(m, true);
    SetStateOut(m, Transferring);
  }

  function AcceptedSends(n: Node, started: bool): seq<Msg> {
    if n.isSender && !n.acceptReceived && !started && !Terminal(n.phase) then [Error] else []
  }

  lemma AcceptedSent(n: Node, started: bool)
    ensures var m := Accepted(n, started); m.stored == n.stored && m.out == n.out + AcceptedSends(n, started)
  {
    hide SetState, FailWith;
    var m := n.(acceptReceived := true, engine := true);
    FailWithParts(m, true);
    SetStateParts(m, Transferring);
  }

  /** `transfer_done` is sent once. */
  lemma SenderAllDoneMeans(n: Node)
    requires NodeInv(n)
    ensures TransferDone in SenderAllDone(n).out && SenderAllDone(n).doneSent
  {
    hide Announcements, Records, Flags, SetState;
    SenderAllDoneSent(n);
    SetStateDone(n.(doneSent := true, out := n.out + [TransferDone]), Completed);
  }

  lemma SenderAllDoneSent(n: Node)
    ensures SenderAllDone(n).out == n.out + if n.doneSent then [] else [TransferDone]
    ensures SenderAllDone(n).stored == n.stored
  {
    hide SetState;
    SetStateParts(n.(doneSent := true, out := n.out + [TransferDone]), Completed);
  }

  lemma SetStateDone(n: Node, p: Phase)
    ensures SetState(n, p).doneSent == n.doneSent
  {}

  /** The record is cleared exactly with completion. */
  lemma ReceiverAllDoneMeans(n: Node)
    ensures ReceiverAllDone(n).stored
         == n.stored + if !Terminal(n.phase) && n.confirmed then [Cleared] else []
    ensures ReceiverAllDone(n).out == n.out
  {
    hide SetState;
    SetStateParts(n, Verifying);
    SetStateParts(n, Completed);
  }

  /** A confirmation tells nobody; if it completes the receiver the record is cleared. */
  lemma ConfirmedMeans(n: Node)
    ensures var m := Confirmed(n);
            && m.out == n.out && (!n.isSender ==> m.confirmed)
            && m.stored == n.stored + if m.phase == Completed && !Terminal(n.phase) then [Cleared] else []
  {
    hide ReceiverAllDone;
    var m := n.(confirmed := true);
    ReceiverAllDoneMeans(m);
    AllDonePhase(m);
    AllDoneKeeps(m);
  }

  /** The end of the connection ends the session and tells nobody; the record goes only with completion. */
  lemma EndedMeans(n: Node, reason: EndReason)
    ensures Terminal(Ended(n, reason).phase) && Ended(n, reason).out == n.out
    ensures Ended(n, reason).stored
         == n.stored + if Ended(n, reason).phase == Completed && !Terminal(n.phase) then [Cleared] else []
  {
    hide ReceiverAllDone, FailWith;
    ReceiverAllDoneMeans(n.(confirmed := true));
    FailWithParts(n, false);
    EndedPhase(n, reason);
  }

  /** Cancelling tells the peer and, at the receiver, clears the record. */
  lemma CancelledHereMeans(n: Node)
    ensures var m := CancelledHere(n);
            && m.out == n.out + (if Terminal(n.phase) then [] else [Cancel])
            && m.stored == n.stored + (if Terminal(n.phase) || n.isSender then [] else [Cleared])
  {
    hide SetState;
    SetStateParts(n.(out := n.out + [Cancel]), Cancelled);
  }

  /** After a record was cleared none is written. */
  lemma PersistedMeans(n: Node, version: nat)
    requires NodeInv(n)
    ensures Cleared in n.stored ==> Persisted(n, version).stored == n.stored
  {
    hide Announcements, DoneTold, Flags, Outcome;
  }

  // ---- sessions in which it happens -------------------------------------------------------------

  lemma HandleAllSnoc(n: Node, events: seq<Event>, e: Event)
    ensures HandleAll(n, events + [e]) == Handle(HandleAll(n, events), e)
  {
    assert (events + [e])[..|events|] == events;
  }

  lemma HandleTwo(n: Node, a: Event, b: Event)
    ensures HandleAll(n, [a, b]) == Handle(Handle(n, a), b)
  {
    HandleAllSnoc(n, [], a);
    HandleAllSnoc(n, [a], b);
    assert [] + [a] == [a] && [a] + [b] == [a, b];
  }

  lemma ReceiverTransfers()
    ensures var n := Handle(Handle(NEW_RECEIVER, TransportReady(true)), OfferArrives(true, true));
            n.announced == [WaitingOffer, Transferring] && n.phase == Transferring && !n.isSender
  {
    var m := Handle(NEW_RECEIVER, TransportReady(true));
    assert m.announced == [WaitingOffer] && m.phase == WaitingOffer && !m.isSender && !m.engine;
  }

  /** A receiver whose transport returns in mid-transfer reports that it waits for an offer. */
  lemma ReceiverGoesBack()
    ensures var events := [TransportReady(true), OfferArrives(true, true), TransportDown, TransportReady(true)];
            HandleAll(NEW_RECEIVER, events).announced == [WaitingOffer, Transferring, WaitingOffer]
  {
    var a, b, c, d := TransportReady(true), OfferArrives(true, true), TransportDown, TransportReady(true);
    HandleTwo(NEW_RECEIVER, a, b);
    ReceiverTransfers();
    hide Offered;
    HandleAllSnoc(NEW_RECEIVER, [a, b], c);
    HandleAllSnoc(NEW_RECEIVER, [a, b, c], d);
    assert [a, b] + [c] == [a, b, c] && [a, b, c] + [d] == [a, b, c, d];
  }

  /** A sender accepted before its first transport reports that it makes an offer. */
  lemma SenderGoesBack()
    ensures HandleAll(NEW_SENDER, [AcceptArrives(true), TransportReady(true)]).announced == [Transferring, Offering]
  {
    HandleTwo(NEW_SENDER, AcceptArrives(true), TransportReady(true));
  }

  /** A receiver that was cancelled starts its engine on a late offer and accepts it. */
  lemma CancelledReceiverStarts()
    ensures var n := HandleAll(NEW_RECEIVER, [CancelLocal, OfferArrives(true, true)]);
            n.phase == Cancelled && n.engine && n.out == [Cancel, Accept]
  {
    HandleTwo(NEW_RECEIVER, CancelLocal, OfferArrives(true, true));
  }

  /** A sender that was cancelled starts its engine on a late accept. */
  lemma CancelledSenderStarts()
    ensures var n := HandleAll(NEW_SENDER, [CancelLocal, AcceptArrives(true)]); n.phase == Cancelled && n.engine
  {
    HandleTwo(NEW_SENDER, CancelLocal, AcceptArrives(true));
  }
}
