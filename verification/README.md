# Aokie: verified core

Aokie bridges a phone call to remote people and to an AI agent. What must never go wrong is decided by a handful of
fenced state machines that see their events in any order. This project models them in Dafny and proves what they keep
over every run.

| file | component |
|---|---|
| `RouteGate.dfy` | peer bindings and the lease gate to the caller |
| `MicrophoneAuthority.dfy` | generation-numbered arm/disarm authority, sender and receiver |
| `AuthorityCodec.dfy` | the text codec of the arm/disarm message |
| `RtpProgress.dfy` | the timed RTP progress proof with its re-proof deadline and discontinuity budget |
| `RtpExact.dfy` | the same gate told exactly: open window, forgiven discontinuity, pending re-proof |
| `DesktopPeer.dfy` | the decoded-audio task, interleaved with the three gates above |
| `FrameEvidence.dfy` | the events of a run that stand behind a delivered frame |
| `FrameFate.dfy` | exactly which frames are delivered, and where the others went |
| `AuthorityHistory.dfy` | the peer's authority read off its channel events |
| `FailureAftermath.dfy` | what can still come out of a peer after a protocol failure |
| `Assistance.dfy`, `AssistanceHistory.dfy` | the one-slot assistance mailbox, and where everything in it came from |
| `ReplyBoundaries.dfy`, `ReplyStream.dfy` | where a streamed reply may be cut, and the stream |
| `ReplyText.dfy`, `ReplyLoops.dfy` | the text a stream comes to and its cuts, and the streaming loops |
| `CallSession.dfy`, `CallRecords.dfy` | call sessions, park and restore, never-reused generations, and the records of ended calls |
| `Takeover.dfy`, `TakeoverConsent.dfy` | the Companion's takeover attempt, its auto-arm effect, and what permits every arm call |
| `KeyCell.dfy` | single-flight fetch of the sealing key |
| `CommandJournal.dfy` | canonical JSON and the command journal |
| `EchoCanceller.dfy` | framing around the echo canceller |
| `Base64.dfy` | the base64 codec |
| `Prelude.dfy` | result types, machine integers, clock arithmetic, text |

How it is built: each object that the program updates in place is a class whose methods are proved equal to a step
function on values; a run is a sequence of events folded through that step function, and the main results are about all
runs. Clocks, randomness, UUIDs and answers of the network are parameters of the events. Media times are whole
milliseconds, mailbox times whole seconds.

Five places where the code does less than a reader might expect, each with a witness and its exact condition:

- The authority is read once per frame, so a frame can come out after a protocol failure (`SnapshotCanOutliveFailure`).
  It does exactly when one was in hand that could still pass the RTP gate (`FrameOutlivesFailureIff`), and at most one
  ever does (`AtMostOneFrameOutlivesFailure`).
- Before anything has been flushed, the first cut of a reply depends on how the text is split into deltas
  (`FirstCutDependsOnDeltas`); `ReplySplitsAgreeIff` says exactly when it does not matter, for any lines before, any
  deltas and any listener. After the first flush it never matters (`ReplyIsConfluent`).
- The authority parser accepts more than is printed (`SignedGenerationIsAccepted`). `AcceptedIffSpelled` says exactly
  what it accepts; an accepted message is the printed one exactly when its numerals have no sign and no leading zero
  (`PrintedIffShortest`).
- The base64 decoder accepts texts that are no encoding (`AcceptedButNotCanonical`): stray bits under the padding, an
  inner pad, padding before the end, whitespace. Encoding after decoding is an identity exactly without these
  (`EncodeOfDecodeIff`).
- The authority sender's counter wraps, so one generation belongs to one send exactly up to 2^64 - 1 sends
  (`GenerationsAreOneToOneIff`).

## Model

| member | source | states |
|---|---|---|
| DesktopPeers.DeliveredFramesAreAuthorized | crates/aokie-media/src/peer.rs:735-921 | over every interleaving of authority messages, channel events, stats polls, route calls and frames, each delivered frame took its snapshot from an armed unfailed authority, then found the RTP gate proved in that same generation and open, then (talk) the route open for exactly this binding; receive-only peers deliver nothing |
| FrameEvidence.DeliveredFrameHasAllProofs | crates/aokie-media/src/peer.rs:661-921 | the events of the history behind a delivered frame: an arm message for exactly this binding in its generation, and before the snapshot no disarm of that generation, no message of a higher one and no fault on the channel; RTP reports that advanced strictly twice 100 ms apart since their baseline and again within 125 ms, no poll missed or report refused since, all in that generation; and a permit authorized for this binding, left alone by every event since, its latest expiry ahead |
| FrameFate.DeliveredIff | crates/aokie-media/src/peer.rs:757-921 | over every interleaving a frame is delivered exactly when its snapshot was armed with no re-proof overdue, the first thing to end the poll it needed was a report the gate accepted, the next decision found the window open, and the next routing found (talk) the route open for exactly this binding and room in the queue |
| FrameFate.FramesAreConserved | crates/aokie-media/src/peer.rs:757-921 | every frame read is delivered, counted as quarantined, lost to a failed or abandoned proof, or still on its way |
| FrameFate.PollsAreSpaced | crates/aokie-media/src/peer.rs:757-848 | two stats polls for one generation are at least 50 ms apart |
| FrameFate.PhaseMovesExactly | crates/aokie-media/src/peer.rs:763-921 | when the task polls, decides, routes, waits again and stops, by authority, re-proof, poll time, report, window and route |
| FrameFate.GateSeesExactly | crates/aokie-media/src/peer.rs:763-890 | which generation starts, clock checks, reports, misses and abandonments the RTP gate sees of each event |
| AuthorityHistory.ArmedIff | crates/aokie-media/src/peer.rs:646-689 | after any events the authority is armed in generation g exactly when an arm of g for this binding came over the open channel, everything else that came was of a lower generation or that same arm, and nothing was refused |
| AuthorityHistory.FailedIffFault | crates/aokie-media/src/peer.rs:646-689 | the protocol has failed exactly when some event was at fault: a text or unparsable message or a close on the open channel, a second or foreign channel, or a proof that contradicts the highest generation heard |
| AuthorityHistory.PeerIsReceiver | crates/aokie-media/src/peer.rs:661-689 | on a channel never misused the authority is what the receiver makes of the proofs parsed from the messages, in order |
| FrameEvidence.RtpProofAt | crates/aokie-media/src/peer.rs:428-573 | an open gate at a decision goes back to answered stats polls of the history, the latest of them above every strict advance since the baseline |
| FrameEvidence.RouteProofAt | crates/aokie-media/src/binding.rs:163-248 | an open route at a check goes back to an authorize call of the history, with no revocation, replacement or mismatched renewal since |
| FrameEvidence.ReportSource | crates/aokie-media/src/peer.rs:877-890 | every observation the gate made is a report that arrived for a frame in hand, seen by the gate as it then was |
| FrameEvidence.PeerRebaselinesAreSpread | crates/aokie-media/src/peer.rs:496-561 | over the whole life of a peer and a clock that does not go back, any three accepted rebaselines span ten seconds |
| FailureAftermath.FrameOutlivesFailureIff | crates/aokie-media/src/peer.rs:812-921 | after a protocol failure some continuation delivers a frame at a time or later exactly when a frame is in hand that waits for its route, or for its decision with the window open, or for a report with the window open or one strict advance from opening; on a talk peer the binding must be valid and a permit stored or still possible to make before the platform's last instant |
| FailureAftermath.AtMostOneFrameOutlivesFailure | crates/aokie-media/src/peer.rs:812-921 | no frame whose snapshot follows a protocol failure is delivered, so at most the one in hand comes out afterwards |
| FailureAftermath.SnapshotCanOutliveFailure | crates/aokie-media/src/peer.rs:812-914 | on every valid talk peer a schedule exists in which a frame is delivered after the protocol failed |
| DesktopPeers.SecondAuthorizationIsRefused | crates/aokie-media/src/peer.rs:1013-1020 | on one peer no authorization succeeds while a permit is stored |
| FrameEvidence.ArmingNeedsMessage | crates/aokie-media/src/peer.rs:661-689 | only a binary arm message that parses for this binding arms the authority, in that message's generation |
| FrameEvidence.ArmWasReceived | crates/aokie-media/src/peer.rs:661-689 | an armed authority goes back to such a message earlier in the run |
| FailureAftermath.FailureSticks | crates/aokie-media/src/peer.rs:279-282 | a failed authority protocol stays failed under every later event |
| DesktopPeers.DrivePeer | crates/aokie-media/src/peer.rs:757-921 | the loop over any schedule delivers exactly the modelled frames, all of them authorized |
| DesktopPeers.DesktopPeer.Dispatch | crates/aokie-media/src/peer.rs:646-921 | one event on the object equals one step of the model |
| DesktopPeers.DesktopPeer.TakeFrame | crates/aokie-media/src/peer.rs:812-848 | snapshot, re-arming of the gate, overdue re-proof and poll decision of a frame |
| DesktopPeers.DesktopPeer.TakeStats | crates/aokie-media/src/peer.rs:877-890 | a report is observed or missed; a failed observation stops the task |
| DesktopPeers.DesktopPeer.RouteFrame | crates/aokie-media/src/peer.rs:907-921 | the talk route check and the bounded hand-over |
| DesktopPeers.DesktopPeer.ReconcileReproofWait | crates/aokie-media/src/peer.rs:576-594 | an expired re-proof wait re-begins when the authority moved on and otherwise fails closed |
| DesktopPeers.DesktopPeer.ReceiveMessage | crates/aokie-media/src/peer.rs:663-680 | parse, apply, and fail for good on any refusal |
| DesktopPeers.DesktopPeer.HandleCallerRoute | crates/aokie-media/src/peer.rs:1013-1033 | authorize, revoke and renew wrappers of a peer |
| RtpProgress.OpenWindowWasProved | crates/aokie-media/src/peer.rs:451-573 | PCM is allowed only within 125 ms of a strict advance over the report the gate held, above its whole chain, with no miss, failure or new authority since, after two strict advances at least 100 ms apart of the pinned report since its baseline |
| RtpProgress.RebaselinesAreSpread | crates/aokie-media/src/peer.rs:496-534 | over a peer's whole life, re-arming included, any three accepted rebaselines span at least 10 s |
| RtpProgress.ReachableGateIsCoherent | crates/aokie-media/src/peer.rs:428-561 | a re-proof deadline is set exactly while a re-proof is pending and never together with ready |
| RtpProgress.DiscontinuityEarnsNothing | crates/aokie-media/src/peer.rs:496-534 | a discontinuity never moves the PCM deadline later, and a second one while pending fails the gate closed |
| RtpProgress.WindowMovesOnlyOnAdvance | crates/aokie-media/src/peer.rs:475-493 | only a strict advance with the gate ready opens or extends the window |
| RtpExact.OpenWindowIff | crates/aokie-media/src/peer.rs:451-573 | for a clock that does not go back, PCM is allowed at t exactly when the pinned report advanced strictly within the last 125 ms, having first done so 100 ms or more before, with no miss, failure or new authority since, and neither that advance nor a later proving one came too close to the platform's last instant for its window to be dated |
| RtpExact.ForgivenIff | crates/aokie-media/src/peer.rs:496-534 | a discontinuity is accepted exactly when no earlier accepted one awaits its re-proof, fewer than two were accepted in the ten seconds before it, re-arming included, and its re-proof deadline exists on the platform |
| RtpExact.PendingIff | crates/aokie-media/src/peer.rs:451-561 | a re-proof is pending exactly since an accepted discontinuity that no new authority, failure or proving advance has settled |
| RtpExact.OverdueIff | crates/aokie-media/src/peer.rs:544-553 | a clock check fails the gate exactly when an unsettled discontinuity is 500 ms old |
| RtpExact.HoldsIff | crates/aokie-media/src/peer.rs:428-464 | the gate holds a report exactly when one came since the authority began |
| RtpExact.ReportsCompare | crates/aokie-media/src/peer.rs:466-479 | which report continues the held one and which advances it, counter by counter |
| RtpProgress.RtpProgressGate.ObserveProgress | crates/aokie-media/src/peer.rs:451-494 | observation updates the fields as the model says |
| RtpProgress.RtpProgressGate.RebaselineOn | crates/aokie-media/src/peer.rs:496-534 | the deque loop and the new baseline |
| RtpProgress.RtpProgressGate.FailIfExpired | crates/aokie-media/src/peer.rs:544-553 | an overdue re-proof fails closed |
| RtpProgress.RtpProgressGate.Begin | crates/aokie-media/src/peer.rs:428-441 | a new authority resets the proof and keeps the discontinuity history |
| RtpProgress.RtpProgressGate.FailClosed | crates/aokie-media/src/peer.rs:555-561 | failing closes readiness, re-proof and window |
| RouteGates.OpenRouteIffGranted | crates/aokie-media/src/binding.rs:163-248 | over every run the gate is open for b at t exactly when some call granted b an expiry past t and nothing since revoked, replaced or mismatched it |
| RouteGates.OpenRouteWasGranted | crates/aokie-media/src/binding.rs:163-248 | an open route goes back to an accepted permit for exactly that binding, kept since, before the latest expiry granted to it |
| RouteGates.RenewalNeverRevivesNorShortens | crates/aokie-media/src/binding.rs:198-227 | renewal succeeds exactly on a current permit, never revives an expired one and never shortens a live one |
| RouteGates.ReplacementsClimb | crates/aokie-media/src/binding.rs:170-184 | accepted permits with no gap between them strictly raise owner epoch and fence on one call |
| RouteGates.AuthorizedIff | crates/aokie-media/src/binding.rs:164-186 | a permit is stored exactly when its binding is valid and, over a stored one, stays on its call and raises owner epoch and fence; otherwise the slot is untouched |
| RouteGates.RefusalIsTrue | crates/aokie-media/src/binding.rs:164-186 | a refused authorization names the reason that holds: invalid binding, another call, or an epoch or fence not raised |
| RouteGates.QueryFreesExpired | crates/aokie-media/src/binding.rs:229-247 | a query at or after the expiry frees the slot for any valid permit, an earlier one changes nothing |
| SessionBindings.ValidBindingIff | crates/aokie-media/src/binding.rs:55-106 | a binding is valid exactly with safe identifiers and epochs, a lease, and a positive fence for talk and none otherwise |
| RouteGates.NewPermit | crates/aokie-media/src/binding.rs:128-147 | a permit is made exactly for a valid talk binding, a positive lifetime and an expiry that exists, and is current exactly for that binding until then |
| RouteGates.RouteGate.AuthorizeRoute | crates/aokie-media/src/binding.rs:164-186 | stores the permit or leaves the slot untouched |
| RouteGates.RouteGate.RenewRoute | crates/aokie-media/src/binding.rs:198-227 | renewal in place, clearing the slot on a mismatch |
| RouteGates.RouteGate.AllowsRoute | crates/aokie-media/src/binding.rs:229-247 | the query, which sweeps an expired permit out |
| RouteGates.RouteGate.Revoke | crates/aokie-media/src/binding.rs:188-192 | closing is immediate |
| AuthorityCodec.PayloadBindsExactly | crates/aokie-media/src/peer.rs:299-376 | a message printed for one valid binding parses under another exactly when they are equal, and then to the printed action and generation |
| AuthorityCodec.PayloadIsWellFormed | crates/aokie-media/src/peer.rs:299-327 | a printed message is under 2048 bytes, is UTF-8 and splits back into its eleven fields |
| AuthorityCodec.AcceptedIffSpelled | crates/aokie-media/src/peer.rs:319-376 | for a valid binding a message parses to an action and generation exactly when it has at most 2048 bytes and its bar-free fields say them, numerals in any accepted spelling |
| AuthorityCodec.PrintedIffShortest | crates/aokie-media/src/peer.rs:299-376 | an accepted message is the printed one exactly when its four numerals have no sign and no leading zero |
| AuthorityCodec.SignedGenerationIsAccepted | crates/aokie-media/src/peer.rs:370-374 | for every valid binding a message that is not printed is accepted |
| AuthorityCodec.ParseU64OfDecimal | crates/aokie-media/src/peer.rs:337-344 | every 64-bit numeral reads back |
| MicrophoneAuthority.DeliveryConverges | crates/aokie-media/src/peer.rs:256-287 | under any loss, duplication and reordering of minted messages the receiver ends at the highest delivered generation with its action and no violation |
| MicrophoneAuthority.DeliveryOrderIsIrrelevant | crates/aokie-media/src/peer.rs:256-287 | deliveries of the same messages end in the same state |
| MicrophoneAuthority.FailsExactlyOnContradiction | crates/aokie-media/src/peer.rs:257-277 | for arbitrary messages the protocol fails exactly on a contradiction at the highest generation so far |
| MicrophoneAuthority.FailureIsForever | crates/aokie-media/src/peer.rs:258-261 | once failed, no later message arms it |
| MicrophoneAuthority.RemoteMicrophoneAuthority.ApplyProof | crates/aokie-media/src/peer.rs:257-277 | the receiver's update in place |
| MicrophoneAuthority.AuthoritySender.Mint | crates/aokie-media/src/peer.rs:1551-1576 | send n carries the generation of a wrapping counter and a saturating successor; up to 2^64 - 1 sends that is n, so one generation carries one action |
| MicrophoneAuthority.GenerationsAreOneToOneIff | crates/aokie-media/src/peer.rs:1567-1570 | generations of distinct sends differ exactly up to 2^64 - 1 sends |
| Assistance.RequestLivesOneLife | crates/aokie-plugin/src/assistance.rs:314-367 | over every run a request's first resolution is never replaced, its fence only moves forward on its call and the rest of it never changes |
| Assistance.TakeReturnsTheRecord | crates/aokie-plugin/src/assistance.rs:707-719 | a take returns the recorded resolution, honest about intent and holder, or Expired only if none was ever recorded |
| AssistanceHistory.TakenWasSaid | crates/aokie-plugin/src/assistance.rs:314-719 | whatever a take yields was said word for word by one earlier operation on that request, which named its fence of that moment, came before its deadline and was permitted by who then held it: the typed answer or decline, the trimmed transcript, the taking device or the returned fence; Expired only without one and past the waiting time |
| AssistanceHistory.HeldAsOpened | crates/aokie-plugin/src/assistance.rs:198-247 | the request in the slot is the one an operation opened: its id, trimmed question and context, intent and expiry, its fence at most moved forward on its call |
| AssistanceHistory.HolderAccepted | crates/aokie-plugin/src/assistance.rs:536-584 | a device that holds a transfer accepted it in time, and has held it in every state since |
| AssistanceHistory.FenceInForce | crates/aokie-plugin/src/assistance.rs:372-409 | the fence in force is the opening one or that of a private consultation begun in time, strictly ahead |
| AssistanceHistory.MovesExactly | crates/aokie-plugin/src/assistance.rs:314-678 | exactly which operations resolve, re-fence, hold or release an unresolved request, and what it becomes |
| AssistanceHistory.ResolvedStays | crates/aokie-plugin/src/assistance.rs:314-678 | a resolved request never moves, and exactly a repeat of what was recorded is told so |
| AssistanceHistory.OpensExactly | crates/aokie-plugin/src/assistance.rs:198-247 | a request is opened exactly with valid texts, time to live and fence when nothing blocks, and as it was asked |
| AssistanceHistory.RemovesExactly | crates/aokie-plugin/src/assistance.rs:707-791 | exactly which take, withdrawal and discard empties the slot |
| AssistanceHistory.RefusalIsTrue | crates/aokie-plugin/src/assistance.rs:198-705 | the reason of a refusal holds of the slot it was given |
| Assistance.RemovalIsFinal | crates/aokie-plugin/src/assistance.rs:707-792 | after a take, withdrawal or discard no accept, resolve or removal naming that id succeeds |
| Assistance.DepartedNeverReturns | crates/aokie-plugin/src/assistance.rs:198-247 | a request that left the slot is never in it again |
| Assistance.ReachableIsHonest | crates/aokie-plugin/src/assistance.rs:536-678 | in every reachable mailbox a taken transfer was taken by the device that holds the acceptance, an answer means advice, an answer or a decline means nobody held it |
| Assistance.BlockingEnds | crates/aokie-plugin/src/assistance.rs:130-141 | no accepts, re-accepts and releases block the mailbox at or after opening + ttl + 54 s |
| Assistance.BlockingBoundIsTight | crates/aokie-plugin/src/assistance.rs:536-560 | the bound is reached by an acceptance in the offer's last second |
| Assistance.ActivationExcludesExpiry | crates/aokie-plugin/src/assistance.rs:513-532 | while media activation is current nothing can be taken, so not Expired |
| Assistance.GraceAdmitsOnlyFailure | crates/aokie-plugin/src/assistance.rs:621-705 | in the grace accept, release and taken are refused, nothing can be taken, and exactly the accepting device's fence-preserving failure is recorded |
| Assistance.DriveMailbox | crates/aokie-plugin/src/assistance.rs:198-792 | a mailbox driven through any operations replies and yields exactly what the model says and ends honest |
| Assistance.AssistanceBroker.Request | crates/aokie-plugin/src/assistance.rs:198-247 | opening a request in place |
| Assistance.AssistanceBroker.Accept | crates/aokie-plugin/src/assistance.rs:314-367 | answering or declining in place |
| Assistance.AssistanceBroker.StartVoiceConsult | crates/aokie-plugin/src/assistance.rs:372-409 | re-fencing for a private consultation |
| Assistance.AssistanceBroker.AcceptVoiceAnswer | crates/aokie-plugin/src/assistance.rs:429-463 | a transcript as the one answer |
| Assistance.AssistanceBroker.AcceptOffer | crates/aokie-plugin/src/assistance.rs:536-560 | device acceptance with its set-up window |
| Assistance.AssistanceBroker.Release | crates/aokie-plugin/src/assistance.rs:566-584 | giving an acceptance back |
| Assistance.AssistanceBroker.CompleteTransfer | crates/aokie-plugin/src/assistance.rs:589-616 | completion by the accepting device |
| Assistance.AssistanceBroker.AbandonTransfer | crates/aokie-plugin/src/assistance.rs:621-678 | failure, also after the deadlines |
| Assistance.AssistanceBroker.TakeResolution | crates/aokie-plugin/src/assistance.rs:707-719 | taking one result and emptying the slot |
| Assistance.AssistanceBroker.WithdrawIfUnaccepted | crates/aokie-plugin/src/assistance.rs:764-780 | check and removal in one step |
| Assistance.AssistanceBroker.Discard | crates/aokie-plugin/src/assistance.rs:782-791 | removal of exactly the named request |
| ReplyBoundaries.BoundaryIsFirstBreak | crates/aokie-plugin/src/agent.rs:534-585 | a boundary is exactly the first break outside bracket tokens and never past an open token |
| ReplyBoundaries.BoundaryStable | crates/aokie-plugin/src/agent.rs:522-559 | a found boundary never moves when more text arrives |
| ReplyBoundaries.TokenEndIs | crates/aokie-plugin/src/agent.rs:498-507 | a double-bracket token runs to the first double close after it, any other to the first single one, and without one it is open |
| ReplyBoundaries.TopLevelIsOutsideTokens | crates/aokie-plugin/src/agent.rs:498-507 | a top-level position is strictly inside no bracket token |
| ReplyBoundaries.TailHasNoNewBoundary | crates/aokie-plugin/src/agent.rs:534-559 | cutting at a top-level position creates no boundary |
| ReplyBoundaries.FindBoundary | crates/aokie-plugin/src/agent.rs:534-585 | the scanning loop finds the first boundary |
| ReplyBoundaries.TerminalRemainder | crates/aokie-plugin/src/agent.rs:513-520 | a remainder is speakable exactly when all its bracket tokens are closed |
| ReplyStream.EveryStreamIsSound | crates/aokie-plugin/src/agent.rs:347-464 | for every reply, split and listener: cuts and remainder concatenate to the text received, what is spoken is the trimmed cuts, and no cut falls inside a bracket token of that text |
| ReplyText.RunningIff | crates/aokie-plugin/src/agent.rs:347-463 | a stream is still running exactly when none of its lines ended it and the listener never stopped it, and its text is then the concatenation of the deltas of its lines |
| ReplyText.EndedText | crates/aokie-plugin/src/agent.rs:347-489 | a stream ends at its first ending line or refused chunk, and its text is the concatenation over the lines read by then |
| ReplyText.ReplyTextIs | crates/aokie-plugin/src/agent.rs:465-489 | the reply returned is that text |
| ReplyText.EveryCutIsFirst | crates/aokie-plugin/src/agent.rs:435-463 | every cut ends at the first sentence boundary of the text from its start, or, only as the very first, at the first clause boundary |
| Prelude.TrimIs | crates/aokie-plugin/src/agent.rs:438-443 | what is spoken of a cut is the cut without its leading and trailing whitespace and nothing else |
| ReplyText.ReplySplitsAgreeIff | crates/aokie-plugin/src/agent.rs:435-463 | for any lines after which nothing is flushed or stopped, chunk lines act like one with their concatenation exactly when no clause had ended in the first of them before a sentence only the later ones complete |
| ReplyStream.ReplyIsConfluent | crates/aokie-plugin/src/agent.rs:435-446 | once something is flushed, any two splits of the same further text cut and speak the same chunks |
| ReplyStream.SplitsAgree | crates/aokie-plugin/src/agent.rs:435-446 | feeding deltas one by one agrees with feeding their concatenation |
| ReplyStream.UnflushedSplitsAgreeIff | crates/aokie-plugin/src/agent.rs:447-463 | before any flush, for any listener, any deltas act like their concatenation exactly when no clause had ended in the first of them before a sentence only the later ones complete |
| ReplyStream.FirstCutDependsOnDeltas | crates/aokie-plugin/src/agent.rs:447-463 | an opening whose first cut differs with the split |
| ReplyStream.ClauseChunkIsSpoken | crates/aokie-plugin/src/agent.rs:451-462 | the eager chunk is never blank |
| ReplyStream.RemainderNeedsTerminalProof | crates/aokie-plugin/src/agent.rs:465-489 | the remainder is spoken only after exactly one stop, nothing said after it, then [DONE], and only with all tokens closed |
| ReplyStream.EveryStreamIsDrained | crates/aokie-plugin/src/agent.rs:435-463 | every state has flushed all its complete sentences, also after the eager clause |
| ReplyStream.EveryStreamIsSettled | crates/aokie-plugin/src/agent.rs:435-463 | in every running state that has flushed nothing, no sentence and no clause is complete |
| ReplyLoops.StreamReply | crates/aokie-plugin/src/agent.rs:347-489 | the whole loop returns and speaks the conclusion of the modelled run, and an accepted reply is the concatenation of the deltas of the lines read |
| ReplyLoops.ReadLine | crates/aokie-plugin/src/agent.rs:360-463 | one line of the stream |
| ReplyLoops.FlushSentencesLoop | crates/aokie-plugin/src/agent.rs:435-443 | the inner flush loop |
| CallSessions.StampIsCurrentIffFocusUnbroken | crates/aokie-plugin/src/call_session.rs:265-465 | a stamp taken in a live call matches later exactly when nothing parked or terminated a call in between |
| CallSessions.GenerationsAreNeverReused | crates/aokie-plugin/src/call_session.rs:279-465 | of any two events that put a call in focus, ring, dial or restore, the later one issues the higher generation |
| CallSessions.EveryStartIsAccountedFor | crates/aokie-plugin/src/call_session.rs:443-487 | the events that started a call under an id are, one for one, a live, a parked or an ended call |
| CallRecords.RecordsAreTruthful | crates/aokie-plugin/src/call_session.rs:265-568 | with fresh ids each call some event started is in one place; its record tells, from the events, direction, generation and number, the time from the first answer to the end, the outcome by first intent, alert and answer, and the reason by the same facts |
| CallRecords.VerdictAgrees | crates/aokie-plugin/src/call_session.rs:489-568 | the record of any session is the one its facts call for: rejected, missed, no answer, failed, completed, abused or lost exactly in their cases |
| CallSessions.SessionTracker.RingCall | crates/aokie-plugin/src/call_session.rs:279-309 | a ring starts a call only when idle |
| CallSessions.SessionTracker.DialCall | crates/aokie-plugin/src/call_session.rs:321-359 | a dial starts a call only when idle |
| CallSessions.SessionTracker.CallAnswered | crates/aokie-plugin/src/call_session.rs:394-413 | the first answer is kept and decides who took the call |
| CallSessions.SessionTracker.NoteLive | crates/aokie-plugin/src/call_session.rs:362-436 | a note keeps id, generation, direction, owner, times and answer; the first intent wins; a known number is never taken back; only an outbound call alerts and only an unanswered one is handed over |
| CallRecords.DriveTracker | crates/aokie-plugin/src/call_session.rs:265-568 | a tracker driven through any events ends with exactly the modelled live, parked and ended calls, every record the one its events call for |
| CallSessions.SessionTracker.Park | crates/aokie-plugin/src/call_session.rs:443-445 | parking hands the session out |
| CallSessions.SessionTracker.Restore | crates/aokie-plugin/src/call_session.rs:452-462 | restoring issues a new generation or hands the session back |
| CallSessions.SessionTracker.Terminate | crates/aokie-plugin/src/call_session.rs:484-487 | the record of the live call |
| Takeover.OneConfirmationArmsAtMostTwice | apps/aokie-mobile/src/App.tsx:933-1008 | since the last begin or reset, in any event order, arm calls are at most confirmations plus one, so at most two for one confirmation |
| Takeover.SecondCallFollowsRetryableFailure | apps/aokie-mobile/src/App.tsx:933-1008 | the second call for one confirmation, in the events of the run: an effect run armed, then that very call was rejected as retryable while its generation was current, then an effect run armed on a strictly newer media revision in a connected phase |
| TakeoverConsent.EveryCallIsPermitted | apps/aokie-mobile/src/App.tsx:499-1008 | every arm call was made with a current snapshot, the exact active session, an active talk takeover lease of the target's app, call, epoch and device with a higher owner epoch, remote audio ready and the microphone off in an armable phase, for a session not tried since it was last forgotten, and on a target confirmed by an event of the same era |
| TakeoverConsent.ArmsExactly | apps/aokie-mobile/src/App.tsx:933-985 | an effect run arms exactly when all of this holds on an unstale render, and says what it leaves |
| TakeoverConsent.ReducesExactly | apps/aokie-mobile/src/App.tsx:319-361 | every field of the attempt after every action |
| TakeoverConsent.RejectsExactly | apps/aokie-mobile/src/App.tsx:985-1004 | a rejection of the current generation is retried once if retryable and resets otherwise; any other only settles |
| TakeoverConsent.AttemptedIffTried | apps/aokie-mobile/src/App.tsx:965-1004 | a session counts as attempted exactly when an arm call was made for it and nothing has forgotten it since |
| TakeoverConsent.SameTargetIff | apps/aokie-mobile/src/App.tsx:363-397 | two targets are the same exactly when all fences agree, the grant lists are equally long and every grant of the first is in the second |
| TakeoverConsent.RenderedIsLast | apps/aokie-mobile/src/App.tsx:389-397 | an effect compares with the attempt of the last render |
| Takeover.StaleActionsChangeNothing | apps/aokie-mobile/src/App.tsx:319-361 | actions with another generation change nothing and generations never go back |
| Takeover.ArmingConsumesConsent | apps/aokie-mobile/src/App.tsx:389-397 | arming needs an unstale render and a held target, and consumes it |
| Takeover.EveryAppIsFine | apps/aokie-mobile/src/App.tsx:980-1005 | rejections of calls from earlier eras carry older generations; calls are paid for by confirmations and one retry |
| Takeover.TakeoverComponent.Apply | apps/aokie-mobile/src/App.tsx:666-677 | a transition of the refs |
| Takeover.TakeoverComponent.Effect | apps/aokie-mobile/src/App.tsx:933-985 | one run of the auto-arm effect |
| Takeover.TakeoverComponent.Rejected | apps/aokie-mobile/src/App.tsx:985-1004 | the rejection handler |
| Takeover.DriveTakeover | apps/aokie-mobile/src/App.tsx:666-1008 | a component driven through any events ends with the modelled refs and makes the modelled native calls |
| KeyCells.AskedOneAtATime | crates/aokie-core/src/keychain_seal.rs:174-268 | in every interleaving at most one fetch is under way, exactly when Asking; all keys handed out are one key; the ask after n failures starts no sooner than the n-th pause |
| KeyCells.ReadyForGood | crates/aokie-core/src/keychain_seal.rs:202-213 | a ready key is never replaced |
| KeyCells.BackoffNeverDecreases | crates/aokie-core/src/keychain_seal.rs:215-226 | the pause never shrinks with more failures and never exceeds its limit |
| KeyCells.CellIsBooked | crates/aokie-core/src/keychain_seal.rs:174-268 | in every interleaving the cell is what its events come to: a fetch starts exactly when none is under way, no key came and the pause is over, and every key handed out is the one that came |
| KeyCells.KeyWasFetched | crates/aokie-core/src/keychain_seal.rs:202-213 | the key is the answer of a fetch that was under way |
| KeyCells.PassTells | crates/aokie-core/src/keychain_seal.rs:231-268 | a pass waits on a fetch only until its time is up, hands out the key that came, asks exactly when a fetch may start and is else too soon |
| KeyCells.BackoffDoubles | crates/aokie-core/src/keychain_seal.rs:215-226 | the pause doubles with each failure up to the seventeenth, within its limit |
| KeyCells.KeyCell.Ask | crates/aokie-core/src/keychain_seal.rs:174-200 | starting an ask in place |
| KeyCells.KeyCell.Answered | crates/aokie-core/src/keychain_seal.rs:202-213 | taking the fetch's answer |
| KeyCells.KeyCell.GetPass | crates/aokie-core/src/keychain_seal.rs:231-268 | one pass of the waiting loop: the key, a refusal, a wait or an ask |
| KeyCells.DriveCell | crates/aokie-core/src/keychain_seal.rs:174-268 | a cell driven through any interleaving has at most one fetch under way, exactly while asking, and hands out one key |
| CanonicalJson.CanonicalIffSame | crates/aokie-plugin/src/command_journal.rs:228-242 | two documents have one canonical form exactly when they differ at most in the order of object members, at every depth |
| CommandJournals.NewAtMostOnce | crates/aokie-plugin/src/command_journal.rs:95-139 | New is returned at most once per request id between removals of its row |
| CommandJournals.PrepareIsAnsweredByItsRow | crates/aokie-plugin/src/command_journal.rs:115-137 | while the row stands, the same command and document replays its first result or is pending, anything else is a collision |
| CommandJournals.CompletionIsWriteOnce | crates/aokie-plugin/src/command_journal.rs:141-157 | a completed result never changes |
| CommandJournals.ReplayWasCompleted | crates/aokie-plugin/src/command_journal.rs:95-157 | a replayed result is the one a complete operation carried, on the pending row that an earlier prepare of the same command and document was accepted for |
| CommandJournals.CommandJournal.PrepareCommand | crates/aokie-plugin/src/command_journal.rs:95-139 | the decision and the insertion |
| CommandJournals.CommandJournal.CompleteCommand | crates/aokie-plugin/src/command_journal.rs:141-157 | completion of a pending row only |
| CommandJournals.CommandJournal.AbandonCommand | crates/aokie-plugin/src/command_journal.rs:188-197 | removal of a pending row only |
| CommandJournals.CommandJournal.PruneCompleted | crates/aokie-plugin/src/command_journal.rs:64-73 | every pending row and every row completed at the cutoff or later stays unchanged, the older ones are gone, nothing is added |
| CommandJournals.DriveJournal | crates/aokie-plugin/src/command_journal.rs:64-197 | a journal driven through any operations and restarts gives exactly the modelled replies |
| EchoCancellers.FrameOfRun | crates/aokie-plugin/src/aec.rs:82-128 | in any run of feeds, captures and resets, frame n since the last reset is, of frame n of the microphone stream since then, untouched when none of reference frames n-10 to n has a non-zero sample, else silence if the guard finds it quiet and the filter's answer if not; every whole frame comes out |
| EchoCancellers.ReferenceOfRun | crates/aokie-plugin/src/aec.rs:82-105 | reference frame n of any run holds, sample for sample, the fed stream as it stood at the capture that completed frame n, at the head of the queue plus the frames that capture completed before it, zeros past its end |
| EchoCancellers.QueueOfRun | crates/aokie-plugin/src/aec.rs:71-105 | the queue is the fed stream from a head that frames move on and an overrun moves to the newest 300 frames |
| EchoCancellers.DriveCanceller | crates/aokie-plugin/src/aec.rs:71-135 | a canceller driven through any events hands back the modelled output |
| EchoCancellers.ChunkingIsIrrelevant | crates/aokie-plugin/src/aec.rs:82-128 | the output does not depend on how the microphone stream is chunked |
| EchoCancellers.UnreferencedStreamIsUntouched | crates/aokie-plugin/src/aec.rs:79-128 | with no reference fed, the output is the input less a sub-frame tail |
| EchoCancellers.TailCounts | crates/aokie-plugin/src/aec.rs:107-113 | the tail counter measures how long ago a reference was heard |
| EchoCancellers.EveryStateIsAligned | crates/aokie-plugin/src/aec.rs:71-135 | in every run the tail is what the references since the reset say and less than a frame is held back |
| EchoCancellers.DrainConserves | crates/aokie-plugin/src/aec.rs:82-128 | samples are neither lost nor invented |
| EchoCancellers.EchoCanceller.Feed | crates/aokie-plugin/src/aec.rs:71-77 | the bounded reference FIFO |
| EchoCancellers.EchoCanceller.Process | crates/aokie-plugin/src/aec.rs:82-128 | the frame loop |
| EchoCancellers.EchoCanceller.ProcessOne | crates/aokie-plugin/src/aec.rs:95-126 | one frame, FIFOs popped sample by sample |
| EchoCancellers.EchoCanceller.Clear | crates/aokie-plugin/src/aec.rs:131-135 | reset drops both FIFOs and the tail |
| Base64.DecodeOfEncode | crates/aokie-core/src/dpapi.rs:156-220 | every byte string reads back from its encoding, whatever whitespace is strewn in, and the length is 4 * ceil(n / 3) |
| Base64.EncodeOfDecodeIff | crates/aokie-core/src/dpapi.rs:156-220 | for every accepted text, encoding what it decodes to gives the text back exactly when it has no whitespace, padding only at the very end and zero bits under it |
| Base64.AcceptedButNotCanonical | crates/aokie-core/src/dpapi.rs:185-220 | an accepted text for each way of not being an encoding |
| Base64.EncodeLoop | crates/aokie-core/src/dpapi.rs:159-182 | the encoding loop |
| Base64.DecodeLoop | crates/aokie-core/src/dpapi.rs:185-220 | the decoding loop |

## Left out

- WebRTC, SDP, audio devices, tokio tasks and channels of the media peer; a stats reply arrives already reduced to one report or none.
- The `RemoteMicrophoneReady` event, protocol-violation reports and the error texts of the media task, which no gate depends on.
- Mutex poisoning and a system clock before the Unix epoch, which only add refusals.
- The read-only queries of the mailbox (pending frames, voice and transfer snapshots) and the target list of a transfer, which the accepting operations never consult.
- HTTP, model discovery, prompts and JSON decoding around the reply stream: a line arrives already classified.
- Greeting, tone, utterance, resume, pending-incoming, left-ringing and handset-audio fields of a call session, which no record reads; generation counters are unbounded.
- React rendering, dialogs and the snapshot, consent and lease checks behind `exactActiveSession`, which enter the effect as facts of one run.
- The condition-variable wait of the key cell's `get`: each pass of its loop is one event.
- The journal's SQLite file, WAL and quarantine; its digest is taken as injective and its table survives restarts.
- RMS, floating point and the speex filter itself: the filter is an arbitrary function of the frames fed to it.
- Sealing ciphers, key stores, consent signatures, configuration, Bluetooth and driver code: foreign libraries or I/O.
