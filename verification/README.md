# Verified model of the transfer core and the packet queue

A Dafny 4.11 model of the file transfer protocol (`core/src/transfer`, driven by
`core/src/share/transfer_session.cpp` and `core/src/runtime/session_link.cpp`) and of
two queueing components of the media stack (`minirtc/src/qos`), with proofs over all
inputs, all runs and all reachable states. `dafny verify dfyconfig.toml` checks
everything. Nothing of the original program was executed.

## How the model is laid out

- `Words`, `Runs`, `BlockBitmap`: the packed bitmap as a class, refining a set of indices.
- `Manifest`, `Receiver`, `ReceiverBatch`: how a file is cut into blocks, what the
  receiver does with one block, and the batching loop as a class.
- `Sacks`, `Sender`, `Repair`: acknowledgements, the sender's per-file state and progress
  ledger, and a repair pass as a class.
- `Transfer`: the two ends of one file as a state machine (a *lane*). Data blocks and
  SACKs are sets of everything ever sent, so they can be lost, repeated and reordered at
  will; the verdicts `file_ok`/`file_bad` are a FIFO. `TransferInvariant` has the joint
  invariant, `TransferIntegrity`, `TransferRepair`, `TransferProgress`, `StaleSack`,
  `TransferReports`, `StaleSackRuns` and `TransferResume` what follows from it over whole
  runs and across restarts. `BatchLanes` puts the batching receiver into the lanes.
- `Session`, `SessionHandlers`, `SessionMessages`, `SenderLoop`: the session state machine,
  the handlers as a class, and the sender thread's loop over files. `Agreement` composes
  all of it with one lane per file, single deliveries and batches; `Plays` and
  `Completion` have what follows for every file and for the whole transfer.
- `CtrlCodec`, `SessionLink`, `BlockCodec`, `TokenBucket`, `Utf8`, `PathSanitize`: framing
  and pumping of control messages, datagram formats, pacing, path validation.
- `QueueModel`, `QueueOps`, `QueueInvariant`, `PacketQueue`, `QueueService`,
  `QueueHistory`: the prioritized packet queue; `PacketQueue` is the class over mutable
  stream objects and pointer tables, the others its abstract value.
- `FeedbackHistory`, `FeedbackTracker`: congestion control feedback (RFC 8888).

## Assumptions

- SHA-256 is an arbitrary function; it is assumed injective only in the lemmas that
  carry `Injective(hash)`.
- The source file does not change during a run. Clocks are monotone where a lemma says so.
- Verdicts of one file are delivered in order. SACKs sent before a reset are not
  delivered after the sender handled that reset's `file_bad` (`Transfer.Enabled`), except
  in `StaleSack`, which shows what happens if they are.
- A part file is not longer than the file where `NeverStuck` and `IntegrityOfRun` ask for
  it; `OverlongNeverVerifies` shows what happens otherwise.

## Properties that do not hold as one would expect

Each is a lemma about the code as it is, with the exact condition.

- A scan of the bitmap moves forward exactly up to 2^32 - 64 blocks; beyond that, which
  the manifest's size limit allows, an empty bitmap is scanned forever (`SkipAdvances`,
  `EmptyScanNeverLeaves`, `TooManyBlocks`).
- Batched writing differs from writing block by block exactly when a block is dropped as
  a duplicate while the pending write is about to reset its file (`BatchRefinesIff`,
  `DropHappens`), and its duplicate counter exactly when a duplicate joins a run whose
  writing verifies or resets the file (`DuplicatesIff`, `MiscountHappens`). A batch is
  always what some of its blocks would do (`BatchIsSubsequence`), so that integrity,
  progress and completion hold with batches as well (`BatchLaneKeeps`, `PlayIntegrity`,
  `PlayNeverStuck`, `CompletionAgreement`, `TransferCanComplete`).
- A SACK from before a reset, complete or not, that arrives after the `file_bad` can end
  the transfer of that file for good. The file can still be verified, as long as no
  further such SACK arrives, if and only if the blocks the receiver has, those in flight
  and those this SACK makes the sender resend are together at least as many as the SACK
  counts (`StaleSackIff`, also after the loss of everything in flight; `LateSackHappens`
  has a run that then fails with a complete and with an incomplete SACK).
- The bytes booked for a file exceed those of the blocks behind the best SACK exactly
  while the shorter last block is held and others are missing (`AckedIsHeld`).
- A part file longer than the file never verifies (`OverlongNeverVerifies`).
- The resume record is exact up to 2^20 runs and loses blocks beyond (`ResumeRoundTrip`,
  `RecordLosesBlocks`).
- An `accept` that lists a file with bytes twice credits it twice, and only then is the
  ledger wrong (`ListedExact`); the list the receiver makes is right (`ListIsCredited`).
- A transport that comes up in mid-transfer takes the reported phase back
  (`PhaseGoesBack`, `ReceiverGoesBack`, `SenderGoesBack`).
- A session that is over still starts an engine on a first `accept` (sender) or a usable
  `offer` (receiver without an engine), and still offers, accepts and confirms
  (`EndedSession`, `CancelledReceiverStarts`, `CancelledSenderStarts`).
- A control message above 16 MiB is not just lost: its tail is delivered as a message
  (`DeliveredIffFits`). One cut short by giving up spoils the next unless nothing of it
  had been sent (`NextMessageSpoiled`, reached by `CutReached`).
- SACK datagrams are accepted with non-zero reserved bytes and more than 140 runs
  (`SackReencode`).
- A packet's time to live counts the pauses before it was pushed (`ExpiredWhenPushed`,
  `ExpiredByClock`).
- A repair time below the ack base is forgotten, so that a SACK with holes there, which
  the receiver never makes, is repaired without the hold (`HeldBack`,
  `BelowBaseForgotten`, `ReportInOrder`).
- For duplicates the feedback reports the latest copy's arrival, where RFC 8888 and the
  comment in the code ask for the first's (`FirstCopyReported`, `SecondCopyReported`).

## Model

| member | source | states |
|---|---|---|
| Words.CountTrailingZeros | core/src/transfer/bitmap.cpp:39-66 | the count of trailing zeros is the index of the lowest set bit |
| Runs.RunsFromExact | core/src/transfer/bitmap.cpp:68-121 | the maximal runs of a set are ascending, separated and cover exactly its members from a start |
| Runs.SeparatedUnique | core/src/transfer/bitmap.cpp:68-121 | they are the only separated list that covers it |
| Runs.FirstRunsMarked | core/src/transfer/bitmap.cpp:96-130 | marking the first runs of a set gives a subset of it, and all of it when nothing was cut |
| BlockBitmaps.SkipAdvances | core/src/transfer/bitmap.cpp:85-103 | the 32-bit word skip always moves forward if and only if there are at most 2^32 - 64 blocks |
| BlockBitmaps.EmptyScanNeverLeaves | core/src/transfer/bitmap.cpp:96-108 | beyond that bound the search for a set bit in an empty bitmap is still in its loop after any number of iterations |
| BlockBitmaps.TooManyBlocks | core/src/transfer/manifest.cpp:17-21 | which sizes have so many blocks; the largest one a manifest may state does |
| BlockBitmaps.BlockBitmap.Reset | core/src/transfer/bitmap.cpp:17-22 | the bitmap stands for the empty set |
| BlockBitmaps.BlockBitmap.Test | core/src/transfer/bitmap.cpp:24-27 | membership; false out of range |
| BlockBitmaps.BlockBitmap.Set | core/src/transfer/bitmap.cpp:29-37 | adds an index in range, reports whether it was new, keeps the count equal to the cardinality |
| BlockBitmaps.BlockBitmap.FindAckBase | core/src/transfer/bitmap.cpp:39-66 | starting from any cached lower bound, the least index not in the set |
| BlockBitmaps.BlockBitmap.AckBase | core/src/transfer/bitmap.cpp:39-66 | the same, and the cache stays a lower bound |
| BlockBitmaps.BlockBitmap.HolesFrom | core/src/transfer/bitmap.cpp:68-94 | the first maximal runs of the complement despite word skipping |
| BlockBitmaps.BlockBitmap.Holes | core/src/transfer/bitmap.cpp:68-94 | the same as called by the receiver |
| BlockBitmaps.BlockBitmap.HaveRuns | core/src/transfer/bitmap.cpp:96-121 | the first maximal runs of the set |
| BlockBitmaps.BlockBitmap.SetRuns | core/src/transfer/bitmap.cpp:123-130 | adds exactly the in-range indices of arbitrary runs |
| Manifest.BlocksTile | core/src/transfer/manifest.cpp:17-27 | blocks are non-empty, lie back to back and end at the file size |
| Manifest.ByteInOneBlock | core/src/transfer/manifest.cpp:17-27 | every byte lies in exactly one block |
| Manifest.BlocksDetermineFile | core/src/transfer/manifest.cpp:17-27 | files with equal blocks are equal |
| Manifest.WriteBlock | core/src/transfer/receiver.cpp:289-296 | writing a block changes that block and no other |
| Receiver.AcceptOneWf | core/src/transfer/receiver.cpp:268-311 | taking one block keeps flags, bitmap and open part file in agreement |
| Receiver.FlushRunWf | core/src/transfer/receiver.cpp:289-311 | so does writing a run, including a verification or reset it triggers |
| TransferReports.ReceivedOfRun | core/src/transfer/receiver.cpp:268-311 | between two resets, in every run, the receiver has exactly what it had and what was delivered, and its frontier is one more than the highest arrival, or where it was |
| TransferReports.AboveIsLeast | core/src/transfer/receiver.cpp:276-279 | that frontier is the least number beyond all arrivals and not below the start |
| TransferReports.StartReceived | core/src/transfer/receiver.cpp:85-106 | a receiver starts with its resumed blocks and the frontier at the first one missing |
| TransferReports.CompletingBlock | core/src/transfer/receiver.cpp:306-309 | the block that completes a file is reported with all others at once, leaves no report owed, and the file is judged if its hash is known |
| TransferReports.OwedOfRun | core/src/transfer/receiver.cpp:352-368 | after a report another is owed only if a block has arrived since |
| ReceiverBatch.AppendIsAccept | core/src/transfer/receiver.cpp:328-348 | extending the pending run equals writing it and then the block |
| ReceiverBatch.EarlyDecision | core/src/transfer/receiver.cpp:328-338 | judging a duplicate before the write instead of after changes nothing if and only if the write does not reset the file |
| ReceiverBatch.DroppedDiffers | core/src/transfer/receiver.cpp:328-338 | in that case the block is missing afterwards |
| ReceiverBatch.BatchRefinesIff | core/src/transfer/receiver.cpp:313-350 | every prefix of a batch leaves bytes, bitmaps and verdicts as its blocks one by one would, if and only if no block is dropped while a reset is pending |
| ReceiverBatch.BatchRefines | core/src/transfer/receiver.cpp:313-350 | it does whenever no resetting block is directly followed by its file's next block |
| ReceiverBatch.DropHappens | core/src/transfer/receiver.cpp:328-338 | a two-block file and batch for which it does not |
| ReceiverBatch.DuplicatesIff | core/src/transfer/receiver.cpp:280-285 | every prefix of a batch counts the duplicates that its blocks one by one would, if and only if none joins a run whose writing verifies or resets the file |
| ReceiverBatch.MiscountHappens | core/src/transfer/receiver.cpp:328-338 | for every hash, a two-block file and batch that count one duplicate too many |
| ReceiverBatch.ReceiverTransfer.HandleBatch | core/src/transfer/receiver.cpp:315-350 | the loop computes that batch machine, with its duplicate count, for every batch, and never writes to a closed file |
| ReceiverBatch.RunStaysSmall | core/src/transfer/receiver.cpp:345-347 | between two blocks of a batch less than 1 MiB waits to be written |
| BatchLanes.BatchIsSubsequence | core/src/transfer/receiver.cpp:313-350 | every batch leaves files and verdicts as a subsequence of its blocks one by one would, but for the frontier of a complete file |
| BatchLanes.LikeReports | core/src/transfer/receiver.cpp:370-385 | the frontier of a complete file does not show in its SACK |
| BatchLanes.DeliverAllIsRun | core/src/transfer/receiver.cpp:268-311 | blocks taken one by one by the engine are a run of each file's lane, with the same verdicts |
| BatchLanes.BatchIsRun | core/src/transfer/receiver.cpp:313-350 | for every batch of blocks in flight, single deliveries that are a run of each file's lane and lead to the batch's file and verdicts |
| BatchLanes.BatchLaneKeeps | core/src/transfer/receiver.cpp:313-350 | whatever the batch holds, a lane keeps the joint invariant, the content of verified files, true set bits and the bound on resets; the sender's side is not touched |
| Sacks.SendSack | core/src/transfer/receiver.cpp:370-385 | the SACK is the one for the received set the bitmap stands for |
| Sacks.ClipHoles | core/src/transfer/receiver.cpp:380-385 | the clipping loop drops and cuts at the frontier |
| Sacks.ClippedCovers | core/src/transfer/receiver.cpp:380-385 | clipping keeps exactly the indices below the frontier |
| Sacks.SackRunsValid | core/src/transfer/receiver.cpp:378-389 | at most 140 runs, none empty, none beyond the file |
| Sacks.SackHoles | core/src/transfer/receiver.cpp:370-385 | reported holes are missing blocks; with at most 140 they are all those below the frontier |
| Sacks.SackCounts | core/src/transfer/receiver.cpp:370-379 | a SACK has the first missing block, the number received and whether that is all; its frontier is the receiver's, or the first missing block if higher |
| TransferReports.HolesAreBelowHeld | core/src/transfer/receiver.cpp:378-385 | in every reachable state each hole of a SACK is a block missing then, below one held then |
| Sacks.LowestMissingIsCandidate | core/src/transfer/sender.cpp:325-353 | the lowest missing block is always a repair candidate |
| Sacks.CandidatesAreMissing | core/src/transfer/sender.cpp:325-353 | candidates were missing; with at most 140 holes they are exactly the missing blocks |
| Sender.LedgerExact | core/src/transfer/sender.cpp:58-65 | confirmed plus missing bytes equal the total plus what was credited twice |
| Sender.AckedIsHeld | core/src/transfer/sender.cpp:133-136 | the bytes a SACK confirms are those of the blocks it was made from; a held last block counts as a full one while others are missing |
| TransferReports.BookedIsHeld | core/src/transfer/sender.cpp:133-147 | in every reachable state the bytes booked for a file are those of the blocks behind the stored SACK, and less than a block more than the receiver holds |
| Sender.SenderTransfer.constructor | core/src/transfer/sender.cpp:30-70 | skip is what accept reported; the credit is the sum over the list, and balanced if and only if no file with bytes is listed twice; every entry that names a file counts as one done |
| Sender.SenderTransfer.OnSack | core/src/transfer/sender.cpp:129-152 | outdated SACKs are ignored; otherwise the file has at least the bytes of the blocks the SACK reports, by `AckedIsHeld`; acked bytes never fall; the ledger stays exact |
| Sender.SenderTransfer.OnFileBad | core/src/transfer/sender.cpp:154-169 | takes back what the file had confirmed, nothing for a verified file |
| Sender.SenderTransfer.OnFileOk | core/src/transfer/sender.cpp:171-183 | credits the rest of the file and counts it once |
| Sender.SenderTransfer.BalancedBound | core/src/transfer/sender.cpp:58-65 | files acknowledged by SACKs or credited at accept, but not both, stay within the total |
| Sender.ListedExact | core/src/share/transfer_session.cpp:188-205 | the credit for a list of verified files is right if and only if none with bytes is listed twice |
| TransferResume.VerifiedFiles | core/src/transfer/receiver.cpp:123-130 | lists exactly the verified files, each once |
| TransferResume.ListIsCredited | core/src/share/transfer_session.cpp:374-386 | so the credit the sender takes from the receiver's accept is right |
| Agreement.ProgressWithinTotal | core/src/transfer/sender.cpp:96-108 | in every interleaving acked bytes and credited files stay within the total, and reach it when every file is done |
| Repair.RepairRunsCover | core/src/transfer/sender.cpp:333-353 | the run list of a repair covers exactly the candidates |
| Repair.RepairPass.RepairRun | core/src/transfer/sender.cpp:346-366 | walks a run: every due candidate is sent unless the budget ends, lowest first, and has the time it was sent at |
| Repair.RepairPass.RepairFile | core/src/transfer/sender.cpp:325-368 | sends only due candidates, within the budget, and all of them if it suffices; in runs that are in order the lowest first; every block sent has the time it was last sent at, the others keep theirs |
| Repair.HeldBack | core/src/transfer/sender.cpp:354-362 | a block one pass has sent is not sent in a later pass that begins less than the hold after it |
| Repair.SentUnlessRecent | core/src/transfer/sender.cpp:300-305 | a pass with budget left sends exactly the candidates that neither the sweep nor a repair has sent within the hold |
| Repair.BelowBaseForgotten | core/src/transfer/sender.cpp:342-343 | below the ack base only the sweep is remembered |
| Repair.ReportInOrder | core/src/transfer/sender.cpp:333-353 | for every SACK of the receiver the runs are walked in order and none lies below the ack base |
| TransferInvariant.StartInv | core/src/transfer/receiver.cpp:61-106 | both ends start in agreement from any part file and resume record |
| TransferInvariant.StepInv | core/src/transfer/receiver.cpp:268-311 | every step of either end and every delivery keeps the joint invariant |
| TransferInvariant.AbsorbedInv | core/src/transfer/receiver.cpp:268-311 | a delivered block keeps set bits true of the part file |
| TransferInvariant.JudgedInv | core/src/transfer/receiver.cpp:399-458 | so does verification, with either verdict |
| TransferIntegrity.VerifiedIsSource | core/src/transfer/receiver.cpp:399-458 | whatever the disk held and the network does, a file verified in this run is the source |
| TransferIntegrity.IntegrityOfRun | core/src/transfer/receiver.cpp:268-311 | from a true record, in every run of single deliveries: set bits mean source bytes, complete means equal, the hash check passes, no `file_bad` |
| TransferIntegrity.HonestStart | core/src/transfer/receiver.cpp:85-106 | which part files and records make the start true |
| TransferIntegrity.RejectedAtMostOnce | core/src/transfer/receiver.cpp:423-443 | a wrong record costs at most one reset |
| TransferIntegrity.OverlongNeverVerifies | core/src/transfer/file_io.cpp:165-173 | a part file that is too long is never verified in any run |
| TransferIntegrity.VerdictOnGenuineBlocks | core/src/transfer/receiver.cpp:399-458 | genuine blocks pass if and only if the part file has the right length |
| TransferRepair.SkipIsHeld | core/src/transfer/sender.cpp:53-54 | skip is a subset of the receiver's bitmap unless a `file_bad` is in flight; received blocks are below the frontier or resumed |
| TransferRepair.RepairIsExact | core/src/transfer/sender.cpp:325-353 | in every reachable state the candidates contain the lowest missing block, no received one, and with few holes are the missing set |
| TransferRepair.RepairBeforeReport | core/src/transfer/sender.cpp:333-353 | before the first SACK the candidates are everything the receiver did not resume |
| TransferRepair.ChainStep | core/src/transfer/sender.cpp:139-142 | the received sets behind SACKs of one epoch form a chain |
| TransferRepair.SackReorderHarmless | core/src/transfer/sender.cpp:138-147 | after any reordering the kept SACK reports at least what any delivered one did |
| TransferProgress.Progress | core/src/transfer/sender.cpp:204-219 | from every reachable state some continuation verifies the file, with reports only when one is due |
| TransferProgress.NudgeSteps | core/src/transfer/receiver.cpp:352-368 | when no report is due the sender still has a block to resend, and its arrival brings a block or makes a report due |
| TransferProgress.NeverStuck | core/src/transfer/sender.cpp:204-219 | even if everything in flight is lost and the record was wrong |
| StaleSack.StuckForever | core/src/transfer/sender.cpp:333-366 | while the sender acts on a SACK that counts more than the receiver can come to hold, no run verifies the file |
| StaleSack.MisledIff | core/src/transfer/sender.cpp:138-147 | whatever SACK the sender acts on, the file can be verified if and only if enough blocks are held, in flight or resent |
| StaleSack.StaleSackIff | core/src/transfer/sender.cpp:138-142 | the same for every SACK from before a reset, in every reachable state, with and without the loss of everything in flight |
| StaleSack.StaysMisled | core/src/transfer/sender.cpp:138-142 | another late SACK leaves the sender in a state of the same kind |
| StaleSackRuns.LateSackHappens | core/src/transfer/sender.cpp:154-169 | for every three-block file with a wrong first block, a run in which a complete and an incomplete SACK are both fatal |
| TransferResume.TruncationExact | core/src/transfer/bitmap.cpp:96-130 | cutting a run list loses blocks if and only if it is too long |
| TransferResume.ResumeRoundTrip | core/src/transfer/receiver.cpp:113-143 | snapshot and restart give the same verdict, bytes and (up to 2^20 runs, and only then) blocks |
| TransferResume.RecordLosesBlocks | core/src/transfer/receiver.cpp:132-143 | a received set of 2^20 + 1 runs of which a restart has lost blocks |
| TransferResume.AcceptTellsResumed | core/src/share/transfer_session.cpp:186-205 | the sender's skip is that set |
| TransferResume.ResumeStaysTruthful | core/src/transfer/receiver.cpp:460-468 | a record saved earlier in a run is true of the part file after a later crash |
| Session.HandleInv | core/src/share/transfer_session.cpp:71-507 | every event keeps the session invariant |
| Session.TerminalAbsorbs | core/src/share/transfer_session.cpp:71-90 | after a terminal phase nothing is announced or stored |
| Session.HandleAnnounces | core/src/share/transfer_session.cpp:71-76 | an event announces the phase it leads to, if that is another one, and nothing else |
| Session.SessionRun | core/src/share/transfer_session.cpp:71-507 | over whole sessions one terminal announcement at most, completion needs a finished engine and (receiver) a confirmation; the record is cleared exactly by a receiver that completed or was cancelled on its side, and then never rewritten; an error or cancellation is sent only by a session that ended in it |
| Session.PhaseGoesBack | core/src/share/transfer_session.cpp:131-142 | on either side the phase goes back if and only if the transport comes up in mid-transfer (a sender: before its first offer) |
| Session.ReceiverGoesBack | core/src/share/transfer_session.cpp:131-148 | a receiver that does |
| Session.SenderGoesBack | core/src/share/transfer_session.cpp:131-181 | a sender that does |
| Session.EndedSession | core/src/share/transfer_session.cpp:183-389 | for every event after the end, exactly when an engine still starts and what is still sent |
| Session.CancelledReceiverStarts | core/src/share/transfer_session.cpp:296-389 | a cancelled receiver that starts its engine and accepts |
| Session.CancelledSenderStarts | core/src/share/transfer_session.cpp:183-237 | a cancelled sender that starts its engine |
| SessionHandlers.TransferSession.OnTransportReady | core/src/share/transfer_session.cpp:131-181 | keeps the session invariant; at most one offer is ever made, and without files the session fails and the peer is told; the exact phase and messages |
| SessionHandlers.TransferSession.OnSessionEnd | core/src/share/transfer_session.cpp:156-170 | keeps the invariant; the session is over, completed exactly for a receiver with every file verified and a normal end, and only then is the record cleared; nobody is told |
| SessionHandlers.TransferSession.HandleAccept | core/src/share/transfer_session.cpp:183-237 | keeps the invariant; the sender has its engine, a second accept changes nothing, a failed start fails the session and tells the peer |
| SessionHandlers.TransferSession.OnSenderAllDone | core/src/share/transfer_session.cpp:262-272 | keeps the invariant; transfer_done is sent once, and the session completes unless it was over |
| SessionHandlers.TransferSession.HandleOffer | core/src/share/transfer_session.cpp:296-389 | keeps the invariant; one engine, one accept and only for a usable offer, otherwise the session fails and the peer is told |
| SessionHandlers.TransferSession.OnReceiverAllDone | core/src/share/transfer_session.cpp:399-414 | keeps the invariant; completion and clearing the record go together and need the sender's confirmation |
| SessionHandlers.TransferSession.OnTransferDone | core/src/share/transfer_session.cpp:455-462 | keeps the invariant; a confirmation completes the receiver exactly if it has verified everything, and then clears the record |
| SessionHandlers.TransferSession.PersistReceiver | core/src/share/transfer_session.cpp:416-434 | keeps the invariant; nothing is written once the record was cleared |
| SessionHandlers.TransferSession.CancelTransfer | core/src/share/transfer_session.cpp:495-507 | keeps the invariant; ends the session, tells the peer and, at the receiver, clears the record, all once |
| SessionHandlers.TransferSession.OnCancelMessage | core/src/share/transfer_session.cpp:467-473 | keeps the invariant; the session is cancelled unless it was over, the record is kept and nothing is sent back |
| SessionHandlers.TransferSession.OnErrorMessage | core/src/share/transfer_session.cpp:474-476 | the same for an error of the peer, with failure |
| SessionHandlers.TransferSession.OnEngineError | core/src/share/transfer_session.cpp:77-90 | keeps the invariant; the session fails unless it was over, the record is kept and the peer is told once |
| Session.EndedMeans | core/src/share/transfer_session.cpp:156-170 | the end of the connection always ends the session |
| SenderLoop.ReapInflight | core/src/transfer/sender.cpp:227-237 | keeps exactly the files not ok, in order |
| SenderLoop.ReapedMembers | core/src/transfer/sender.cpp:227-237 | membership of what is kept |
| SenderLoop.MoveInv | core/src/transfer/sender.cpp:187-225 | every file passed is ok or in flight, so the loop ends only with all files ok |
| Agreement.PlayInv | core/src/share/transfer_session.cpp:156-507 | the composed system keeps its invariant in every interleaving |
| Agreement.CompletionAgreement | core/src/share/transfer_session.cpp:262-270 | a completed sender means every file verified at the receiver; a completed receiver means all verified and confirmed or closed normally; verified files are the sources |
| Plays.PlayIntegrity | core/src/transfer/receiver.cpp:268-350 | the same integrity in every interleaving of single deliveries and batches of all files, the sending loop and both sessions |
| Plays.PlayNeverStuck | core/src/transfer/receiver.cpp:419-443 | in every such interleaving a file is rejected at most once and can still be finished, even if everything in flight is lost |
| SessionMessages.HandleTold | core/src/share/transfer_session.cpp:131-272 | every event keeps it that a sender with a transport has offered, a receiver with an engine has accepted and a sender that is done has ended |
| Completion.LoopEnds | core/src/transfer/sender.cpp:187-225 | the sending loop can always get to its end, with every file done |
| Completion.TransferCanComplete | core/src/share/transfer_session.cpp:131-272 | after any play in which neither session has ended, a transfer of at least one file can still be completed on both sides, by turns in which nothing arrives that was not sent |
| CtrlCodec.SplitCtrlMessage | core/src/transfer/ctrl_codec.cpp:13-27 | the chunking loop, for every message including the empty one |
| CtrlCodec.SplitLayout | core/src/transfer/ctrl_codec.cpp:13-27 | chunk i holds 16 KiB from i times that on, behind a flag that is 1 in the last one only |
| CtrlCodec.CtrlReassembler.Feed | core/src/transfer/ctrl_codec.cpp:29-53 | one chunk: a message, more, or one of three errors, exactly when, and what is left in the buffer |
| CtrlCodec.SplitFeeds | core/src/transfer/ctrl_codec.cpp:13-53 | the chunks of a message that fits are reassembled to it |
| CtrlCodec.WireRoundTrip | core/src/transfer/ctrl_codec.cpp:13-53 | any sequence of messages arrives once each and in order |
| CtrlCodec.PartialDelivery | core/src/transfer/ctrl_codec.cpp:29-53 | any prefix of the stream delivers a prefix of the messages |
| CtrlCodec.DeliveredIffFits | core/src/transfer/ctrl_codec.cpp:41-45 | a message arrives as itself if and only if it is at most 16 MiB; what a longer one delivers |
| SessionLinks.SendCtrlInv | core/src/runtime/session_link.cpp:70-81 | queueing a message keeps the pump invariant |
| SessionLinks.PumpInv | core/src/runtime/session_link.cpp:83-121 | so does a pump under any pattern of send results |
| SessionLinks.StreamFidelity | core/src/runtime/session_link.cpp:70-121 | in every run nothing is missing if and only if the link was not detached and never met 400 unavailable answers with no chunk sent in between; then the peer has a prefix of the messages, all of them once the queue is empty; a non-empty queue has exactly one task outstanding |
| SessionLinks.NextMessageSpoiled | core/src/runtime/session_link.cpp:100-108 | for every message and every cut, what the peer delivers of the next one; as sent if and only if nothing of the cut one was sent |
| SessionLinks.CutReached | core/src/runtime/session_link.cpp:83-121 | after any run that left nothing waiting, a run with 400 unavailable answers that makes that cut |
| SessionLinks.SessionLink.Send | core/src/runtime/session_link.cpp:70-81 | the method is the model step and keeps the invariant |
| SessionLinks.SessionLink.Task | core/src/runtime/session_link.cpp:74-121 | so is a posted task |
| SessionLinks.SessionLink.PumpQueue | core/src/runtime/session_link.cpp:83-121 | the loop is the pump function |
| BlockCodec.BlockRoundTrip | core/src/transfer/block_codec.cpp:33-62 | a datagram decodes to a header and payload if and only if it is their encoding and fits |
| BlockCodec.BlockLayout | core/src/transfer/block_codec.cpp:33-47 | where each field of a block is, most significant byte first |
| BlockCodec.EncodeBlock | core/src/transfer/block_codec.cpp:33-47 | writes that encoding and nothing else, or 0 exactly in the error cases |
| BlockCodec.EncodeSack | core/src/transfer/block_codec.cpp:64-85 | the encoding with the first 140 holes, within 1150 bytes |
| BlockCodec.DecodeSack | core/src/transfer/block_codec.cpp:87-110 | the decoding loop, refusing empty runs |
| BlockCodec.SackRoundTrip | core/src/transfer/block_codec.cpp:64-110 | decoding inverts encoding (first 140 holes) if no hole is empty, and refuses otherwise |
| BlockCodec.SackLayout | core/src/transfer/block_codec.cpp:64-85 | where each field of a SACK is, most significant byte first |
| BlockCodec.RunLayout | core/src/transfer/block_codec.cpp:79-83 | and each of its runs |
| BlockCodec.SackReencode | core/src/transfer/block_codec.cpp:87-110 | an accepted datagram re-encodes to itself if and only if its reserved bytes are zero and it has at most 140 runs |
| BlockCodec.ReceiverSackDecodes | core/src/transfer/receiver.cpp:370-389 | every SACK the receiver builds fits a datagram and decodes unchanged |
| TokenBuckets.UpdateRate | core/src/transfer/sender.cpp:424-445 | the target is within 300 kbit/s and the AIMD rate, that within 1 Gbit/s; tokens untouched |
| TokenBuckets.RateBounded | core/src/transfer/sender.cpp:442-444 | and at most 1.1 times a known bandwidth |
| TokenBuckets.RateMoves | core/src/transfer/sender.cpp:433-440 | loss lowers the rate and its absence raises it, strictly between the bounds |
| TokenBuckets.RateFactors | core/src/transfer/sender.cpp:433-440 | heavy loss takes 30 per cent, loss 10 per cent, quiet adds 2 Mbit/s, as far as the bounds allow |
| TokenBuckets.TargetIsHighest | core/src/transfer/sender.cpp:442-444 | nothing but the AIMD rate and a known bandwidth keeps the target down |
| TokenBuckets.RateIsFresh | core/src/transfer/sender.cpp:404-409 | no attempt runs on a rate 200 ms old or older, and a younger one is left alone |
| TokenBuckets.RunInv | core/src/transfer/sender.cpp:404-445 | in every run tokens stay within zero and the largest burst |
| TokenBuckets.GrantedBound | core/src/transfer/sender.cpp:404-416 | bytes granted over any part of a run are at most one burst plus rate times time, for any cap on the rate that held, including pauses |
| TokenBuckets.GrantedAtMost | core/src/transfer/sender.cpp:86-94 | unconditionally 6.25 MB plus 125 kB per millisecond |
| TokenBuckets.WaitBounded | core/src/transfer/sender.cpp:404-422 | a row of refusals is shorter than the bytes take at the lowest rate |
| TokenBuckets.Pacer.Update | core/src/transfer/sender.cpp:424-445 | the new rate is within its bounds, loss lowers and quiet raises it; the target is that rate or 1.1 times a known bandwidth; the tokens stay, the invariant is kept |
| TokenBuckets.Pacer.WaitTokens | core/src/transfer/sender.cpp:404-422 | grants the bytes once, at the first attempt that affords them |
| TokenBuckets.Pacer.PauseWait | core/src/transfer/sender.cpp:86-94 | goes on at once unless paused; no tokens gather during a pause |
| Utf8.SeenIsChar | core/src/transfer/path_sanitize.cpp:21-51 | masks, shifts and range checks accept exactly the characters of section 4 of RFC 3629 |
| Utf8.ValidUtf8 | core/src/transfer/path_sanitize.cpp:17-55 | accepts exactly the texts of that grammar |
| PathSanitize.IsReservedDeviceName | core/src/transfer/path_sanitize.cpp:57-70 | a device name in any case, alone or before a dot |
| PathSanitize.AllowedMeans | core/src/transfer/path_sanitize.cpp:72-85 | no control characters and none of eight others |
| PathSanitize.SafeComponent | core/src/transfer/path_sanitize.cpp:72-88 | exactly the safe names |
| PathSanitize.IsSafeRelativePath | core/src/transfer/path_sanitize.cpp:92-107 | accepts exactly UTF-8 paths of 1 to 4096 bytes all of whose components are safe |
| PathSanitize.JoinSafe | core/src/transfer/path_sanitize.cpp:109-121 | the base followed by the non-empty components |
| PathSanitize.ComponentsUnique | core/src/transfer/path_sanitize.cpp:92-121 | a path has one decomposition into slash-free components |
| PathSanitize.JoinStaysInside | core/src/transfer/path_sanitize.cpp:92-121 | for an accepted path these are all its components, none empty, "." or "..", and resolving names stays under the base |
| QueueModel.TotalsWithoutFirst | minirtc/src/qos/prioritized_packet_queue.cc:375-404 | taking a packet out changes each total by exactly its share |
| QueueModel.AgesGrow | minirtc/src/qos/prioritized_packet_queue.cc:306-320 | the sum of waiting times grows by elapsed time times packets |
| QueueModel.TimesWithoutFirst | minirtc/src/qos/prioritized_packet_queue.cc:403-403 | erasing a packet's entry leaves the times of the others |
| QueueInvariant.PurgeInv | minirtc/src/qos/prioritized_packet_queue.cc:427-453 | purging keeps tables and FIFOs linked and other levels alone |
| QueueInvariant.PushInv | minirtc/src/qos/prioritized_packet_queue.cc:164-215 | push keeps the invariant |
| QueueInvariant.PopInv | minirtc/src/qos/prioritized_packet_queue.cc:217-236 | pop keeps it |
| QueueInvariant.RemoveInv | minirtc/src/qos/prioritized_packet_queue.cc:327-365 | removal keeps it |
| QueueInvariant.CullInv | minirtc/src/qos/prioritized_packet_queue.cc:203-214 | culling keeps it: no table names a culled stream |
| QueueInvariant.MaybeUpdateTopInv | minirtc/src/qos/prioritized_packet_queue.cc:406-425 | the top level is the least non-empty one, or -1 exactly when empty |
| PacketQueue.PrioritizedPacketQueue.constructor | minirtc/src/qos/prioritized_packet_queue.cc:149-162 | the empty queue is valid, with its time limits by level |
| PacketQueue.PrioritizedPacketQueue.Push | minirtc/src/qos/prioritized_packet_queue.cc:164-215 | objects, pointer tables, counters, time list and time sum stay a true image of the model after a push |
| PacketQueue.PrioritizedPacketQueue.Pop | minirtc/src/qos/prioritized_packet_queue.cc:217-236 | the same; the packet reports its own unpaused time; none only if empty |
| PacketQueue.PrioritizedPacketQueue.RemovePacketsForSsrc | minirtc/src/qos/prioritized_packet_queue.cc:327-365 | the same; no packet of the stream is left |
| PacketQueue.PrioritizedPacketQueue.PurgeOldPackets | minirtc/src/qos/prioritized_packet_queue.cc:427-453 | the purge loop over a table that shrinks under it |
| PacketQueue.PrioritizedPacketQueue.MaybeUpdateTopPrioLevel | minirtc/src/qos/prioritized_packet_queue.cc:406-425 | the search for a new top level, purging on the way |
| PacketQueue.PrioritizedPacketQueue.CullStreams | minirtc/src/qos/prioritized_packet_queue.cc:203-214 | drops exactly the idle streams |
| PacketQueue.PrioritizedPacketQueue.TakeFront | minirtc/src/qos/prioritized_packet_queue.cc:375-404 | one packet leaves every structure |
| PacketQueue.PrioritizedPacketQueue.UpdateAverageQueueTime | minirtc/src/qos/prioritized_packet_queue.cc:306-320 | the time sum stays the sum of unpaused waiting times |
| PacketQueue.PrioritizedPacketQueue.SetPauseState | minirtc/src/qos/prioritized_packet_queue.cc:322-325 | the same across pauses |
| PacketQueue.PrioritizedPacketQueue.AverageQueueTime | minirtc/src/qos/prioritized_packet_queue.cc:299-304 | the mean of the unpaused waiting times of the packets in the queue |
| PacketQueue.PrioritizedPacketQueue.OldestEnqueueTime | minirtc/src/qos/prioritized_packet_queue.cc:294-297 | the push time of the packet that waits longest |
| QueueService.StepKeepsInv | minirtc/src/qos/prioritized_packet_queue.cc:164-453 | the invariant holds after any sequence of operations |
| QueueService.PopServesBest | minirtc/src/qos/prioritized_packet_queue.cc:217-236 | a pop serves the best priority present and, of its stream, the first pushed |
| QueueHistory.LevelsByMedia | minirtc/src/qos/prioritized_packet_queue.cc:36-59 | two waiting packets share a level if and only if neither media type goes before the other |
| QueueHistory.PopByMedia | minirtc/src/qos/prioritized_packet_queue.cc:217-236 | audio is served whenever it waits, video and redundancy only without audio and retransmissions, padding only alone, retransmitted video after other retransmissions if they are told apart |
| QueueHistory.LimitByMedia | minirtc/src/qos/prioritized_packet_queue.cc:65-79 | which time limit applies to a waiting packet; without the distinction the one for audio holds for all retransmissions |
| QueueHistory.PacketsLeave | minirtc/src/qos/prioritized_packet_queue.cc:217-453 | a packet leaves only by being served, with its stream, or because it is too old |
| QueueHistory.CullExact | minirtc/src/qos/prioritized_packet_queue.cc:203-214 | a stream is forgotten exactly if a cull is due, nothing of it waits and it was created half a second ago |
| QueueHistory.PushStreams | minirtc/src/qos/prioritized_packet_queue.cc:164-215 | which streams a push leaves known, each with the time of its first push |
| QueueHistory.PushPurges | minirtc/src/qos/prioritized_packet_queue.cc:164-185 | a push leaves nothing too old at the front of a stream at its level |
| QueueHistory.TopPurged | minirtc/src/qos/prioritized_packet_queue.cc:406-425 | nor does the search for a new top level, at that level |
| QueueHistory.StepMoves | minirtc/src/qos/prioritized_packet_queue.cc:306-325 | every operation counts the time since the last one as pause or as waiting time, and adds only the packet it pushes |
| QueueHistory.WaitingTimes | minirtc/src/qos/prioritized_packet_queue.cc:375-404 | after any history the time a packet reports is the unpaused time since its push, by the timestamps and pause calls of the history, and the sum kept is the sum of these |
| QueueHistory.WaitedWithoutPauses | minirtc/src/qos/prioritized_packet_queue.cc:375-404 | without pauses it is the time by the clock |
| QueueHistory.ExpiredByClock | minirtc/src/qos/prioritized_packet_queue.cc:427-453 | a packet is too old if and only if its time by the clock and all pauses before its push exceed the limit |
| QueueService.StepOrder | minirtc/src/qos/prioritized_packet_queue.cc:217-236 | only serving a stream puts it behind another that waits |
| QueueService.RoundRobin | minirtc/src/qos/prioritized_packet_queue.cc:217-236 | between two pops of a stream every other stream that keeps waiting at the level is served exactly once, whatever happens in between |
| QueueService.NoStarvation | minirtc/src/qos/prioritized_packet_queue.cc:217-236 | and at least once even if the popped stream ran empty in between |
| QueueService.PurgeExact | minirtc/src/qos/prioritized_packet_queue.cc:427-453 | a purge drops exactly the expired front of each FIFO of the level |
| QueueService.ExpiredWhenPushed | minirtc/src/qos/prioritized_packet_queue.cc:186-194 | a packet is expired on arrival if and only if earlier pauses exceed the limit |
| FeedbackHistory.RetainedBounded | minirtc/src/qos/congestion_control_feedback_tracker.cc:40-50 | the eviction queue never repeats a number nor exceeds 16384 |
| FeedbackHistory.RetainedInOrder | minirtc/src/qos/congestion_control_feedback_tracker.cc:40-50 | it lists the numbers in the order in which they entered the history |
| FeedbackHistory.CeStep | minirtc/src/qos/congestion_control_feedback_tracker.cc:40-58 | a number counts as CE while it stays if any copy since entry was |
| FeedbackHistory.EarliestStep | minirtc/src/qos/congestion_control_feedback_tracker.cc:52-54 | the history keeps the earliest arrival since entry |
| FeedbackHistory.CombinedEcnMeans | minirtc/src/qos/congestion_control_feedback_tracker.cc:99-121 | the merged mark is CE if and only if the history or any copy is |
| FeedbackHistory.LatestArrivalMeans | minirtc/src/qos/congestion_control_feedback_tracker.cc:93-118 | the merged arrival is the latest of all |
| FeedbackHistory.FirstCopyReported | minirtc/src/qos/congestion_control_feedback_tracker.cc:107-118 | it is the first copy's if and only if no new copy came later |
| FeedbackHistory.SecondCopyReported | minirtc/src/qos/congestion_control_feedback_tracker.cc:107-118 | an input for which it is not |
| FeedbackTracker.Merge | minirtc/src/qos/congestion_control_feedback_tracker.cc:79-129 | consecutive lines up to the highest number, each true of its number; the iterator stays in range and consumes every packet |
| FeedbackTracker.LineReports | minirtc/src/qos/congestion_control_feedback_tracker.cc:84-128 | what a line says about arrival and mark |
| FeedbackTracker.NoGapExtends | minirtc/src/qos/congestion_control_feedback_tracker.cc:81-83 | reports leave no gap above the lowest number ever reported, even under reordering |
| FeedbackTracker.CeReported | minirtc/src/qos/congestion_control_feedback_tracker.cc:86-121 | CE is reported if and only if some copy since entry to the history, or a new one, was CE |
| FeedbackTracker.CongestionControlFeedbackTracker.ReceivedPacket | minirtc/src/qos/congestion_control_feedback_tracker.cc:26-61 | history, eviction queue and pending packets follow the log; the next report starts right after the last one, or at the lowest packet waiting |
| FeedbackTracker.CongestionControlFeedbackTracker.AddPacketsToFeedback | minirtc/src/qos/congestion_control_feedback_tracker.cc:63-132 | the report covers every packet since the last one, from there on |

## Left out

- BlockBitmaps.BlockBitmap.Holes: asks for at most 2^32 - 64 blocks, the bound up to which the scan ends (`SkipAdvances`).
- BlockBitmaps.BlockBitmap.HaveRuns: the same bound.
- BlockBitmaps.BlockBitmap.HolesFrom: the same bound.
- Sacks.SendSack: the same bound, since it scans for holes.
- ReceiverBatch.BatchRefines: one direction only; a later copy of the dropped block can make the end of a batch agree again, so the exact condition is stated for all prefixes (`BatchRefinesIff`, and `DuplicatesIff` for the counter).
- PacketQueue.PrioritizedPacketQueue.RemovePacketsForSsrc: takes the packets of a level out one at a time where the code first swaps the FIFO out; the state in between is not modelled.
- FeedbackTracker.SortPackets: an insertion sort in place of `std::sort`; only its contract is used.
- FeedbackTracker.CongestionControlFeedbackTracker.AddPacketsToFeedback: arrival times are finite; sequence numbers are already unwrapped.
- TokenBuckets.UpdateRate: doubles are reals, so rounding is not modelled; neither is 64-bit overflow of the bandwidth.
- Threads and locks: each call of an engine is one atomic step; interleavings are those of steps.
- Failing reads, writes, renames and sends of the engines, and the link-down timeout of the sender (core/src/transfer/sender.cpp:370-402).
- When SACKs are repeated: in the model one may be sent whenever a block has arrived since the last, and any number for a complete file; the timers and the rate and loss estimates (core/src/transfer/receiver.cpp:470-484) are not modelled.
- The 32-bit wrap of the SACK counter and of millisecond clocks, except in the rate update and the repair hold.
- The budget that one repair pass shares between the files in flight (core/src/transfer/sender.cpp:307-323).
- Pausing a transfer, progress events and path changes of a session.
- JSON, manifest building and parsing, name choice (`UniqueName`, `ChooseNames`), the resume store's file format.
- `LeadingPacketEnqueueTime` and `HasKeyframePackets` of the packet queue, which only read what the invariant describes.
- Transport, ICE, signalling, storage, user interface and the floating-point estimators of the media stack.
