# babelfix-core in Dafny

A model of the `babelfix-core` crate, a FIX engine: the session protocol and what keeps it safe across
crashes, and the flat tape that messages are parsed into, edited on and written from.

**Sessions.** `Session` is the state machine of one connection: sequence numbers both ways, gaps and
resend requests, replays with gap fills, heartbeats, logon and logout. Its methods change an object;
each does what a function on values says, and the theorems are about those functions over whole runs.
`Replay` holds the bookkeeping of one replay. `Outbound` and `Inbound` say what a run may put on the
wire and tell the application; `LostReplays` is about a replay that goes wrong. What a run does is then
said event by event, from the inputs and the log alone: `Deliveries` and `Gaps` for what comes in,
`Handshake` for what may go out and when, `Retransmissions` for what goes out again, `Probes` and
`Timekeeping` for Test Requests, Heartbeats and Logouts. `TwoPeers` joins two sessions by a wire that
loses messages.

**Sequencing.** `Sequencer` numbers messages, has them persisted before they are sent, and keeps the
watermark that a later session resumes from. `SequencerRuns`, `Handovers`, `Watermarks` and `Reports` are
about its runs with writes completing in any order and crashes anywhere; `Composed` joins it to a session.
`Reorder` is the window that puts messages back in order, and `WindowMoves` says where each offer leaves
it.

**The tape.** A message is three forests of fields, groups and instances, laid out flat with spans and
counts (`Tape`, `Document`). `Editing`, `Messages`, `Groups`, `Copying`, `Pruning` and `Canonical` edit
the flat tape in place and are proved against operations on the trees; `MemberOrder`, `OrderedRuns`,
`InstanceEdits` and `PruneUnseen` say what those come to for whoever edits; `NormalOrder` spells out the
normal form and `NormalForms` says which messages share one; `Navigation` and `Lookup` find entries.

**Bytes.** `Lexing` finds fields, `Parsing` is the stack machine that lays them out, and `Parser` is
the loop that does both. `Legible` says which bytes are accepted, without the loop. `Encoding` and
`Output` write. `Framing` cuts a stream into frames, and `Frames` says where they are without looking for
them. `MessageTrip` closes the circle for one message and `Streams` for a stream of them; `Forwarding` starts from bytes that were accepted, and `Faithful` says exactly which messages survive.

Eight properties turn out to need a condition. Each has a theorem that says exactly when it holds and a
concrete input on which it does not: a lookup hint costs nothing but time (`HintsAreHarmless`: if the tag
does not repeat; `HintFindsAnother`); a message is late only if its number was passed or is held
(`LateWhen`: or if its slot is taken; `LateThoughNeitherPassedNorHeld`); messages with the same fields
are equal once normalised (`NormalAlike`: if repeated tags come in the same order; `RepeatsKeepOrder`); a
replay stays in step with the wire (`InStepThroughout`: if what it would retransmit carries a time;
`UntimedOffer`); a message that was accepted can be sent on (`ReadBackWhen`: if what is written of it
conforms, as it does when no group is empty; `ZeroCountLost`); one Logon goes out (`OneLogonWhen`: if none
is accepted while another waits for a replay to end; `TwoLogonsGoOut`); a message whose turn has come is
released at once (`PromptWhen`: unless it is its turn only because another has waited too long;
`HeldThoughExpected`); setting a field keeps an instance in the order of its definition (`PutKeepsOrder`:
for a data field, if nothing there belongs between it and its Length; `PairSplitsOrder`). Where code and
documentation disagree the model follows the code.

Integers are unbounded unless a limit is part of what the code does: tags, numbers read from text and
frame lengths have theirs. Clocks are parameters.

## Model

| member | source | states |
|---|---|---|
| Replaying.ReplayTiling | crates/babelfix-core/src/session/replay.rs:53-139 | For any offers, in any order, the pieces sent and the trailing gap fill run end to end from the first number asked for to the last one asked for, or, if the end was left open, to the last one sent; with nothing sent from there on, nothing is. |
| Replaying.ResentAreRecords | crates/babelfix-core/src/session/replay.rs:96-132 | The numbers retransmitted are exactly the offers inside the range that are beyond every earlier offer inside it and are not gap filled. |
| Replaying.OfferedTiles | crates/babelfix-core/src/session/replay.rs:96-132 | At any moment of a replay what was sent runs from its first number up to the next one expected, less the gap fill owed. |
| Replaying.TilesCoverOnce | crates/babelfix-core/src/session/replay.rs:53-139 | Pieces laid end to end cover each number of their range once and no other number. |
| Replaying.Replay.Offer | crates/babelfix-core/src/session/replay.rs:96-132 | An offer gives the step, and leaves the replay, that the functions of the three theorems above say. |
| Replaying.Replay.Trailing | crates/babelfix-core/src/session/replay.rs:136-139 | The gap fill owed when the application is done, if any. |
| Session.SessionState.AskForLogon | crates/babelfix-core/src/session/state.rs:223-226 | The Logon is asked for; nothing else changes. |
| Session.SessionState.Begin | crates/babelfix-core/src/session/state.rs:230-249 | The peer's Logon: the new state, everything sent and raised, and the outcome, in every case. |
| Session.SessionState.Receive | crates/babelfix-core/src/session/state.rs:252-269 | An inbound message: the same. It always counts as a sign of life and is reported; while the session is closing it is otherwise ignored. |
| Session.SessionState.Command | crates/babelfix-core/src/session/state.rs:272-297 | Each of the application's commands, accepted or refused. |
| Session.SessionState.Timeout | crates/babelfix-core/src/session/state.rs:300-347 | Heartbeats, Test Requests and giving up, each exactly when due. |
| Session.SessionState.AskForSyncTestRequest | crates/babelfix-core/src/session/state.rs:385-394 | The Test Request that asks whether a resend is over. |
| Session.SessionState.AskForLogout | crates/babelfix-core/src/session/state.rs:401-414 | The Logout that is asked for, at most once. |
| Session.SessionState.SendNumbered | crates/babelfix-core/src/session/state.rs:422-483 | Refused: no number or zero, one not beyond every number accepted, a second Logon or one with another heartbeat interval, anything else before our Logon, and anything but it before the peer has logged on. Accepted during a replay, a message is held back. |
| Session.SessionState.Dispatch | crates/babelfix-core/src/session/state.rs:506-524 | What reaching the wire does: the Logon is noted, a Logout closes. |
| Session.SessionState.Hand | crates/babelfix-core/src/session/state.rs:531-558 | A message goes out, and the highest number sent follows it if it is new. |
| Session.SessionState.FillGap | crates/babelfix-core/src/session/state.rs:566-579 | A gap fill for a range of numbers. |
| Session.SessionState.OfferForReplay | crates/babelfix-core/src/session/state.rs:585-624 | A message offered for a replay: skipped, absorbed, or retransmitted behind the gap fill before it. A message without a time is refused after the replay has moved past it. |
| Session.SessionState.FinishReplay | crates/babelfix-core/src/session/state.rs:626-654 | The end of a replay: the trailing gap fill, then everything held back, in order. |
| Session.SessionState.Handle | crates/babelfix-core/src/session/state.rs:675-784 | In sequence, too low, too high, duplicate, gap fill and Sequence Reset: which of them a message is, and what follows. |
| Session.SessionState.Act | crates/babelfix-core/src/session/state.rs:788-876 | What each kind of message leads to. |
| Outbound.OutboundOrder | crates/babelfix-core/src/session/state.rs:223-654 | Over any run in which an offer that a replay would retransmit carries a time, whatever fails along the way: nothing new is sent while a replay is outstanding; new numbers are beyond every number sent before; a replay goes through its range once, in order; the highest number sent never passes the highest accepted. |
| Outbound.NewNumbersIncrease | crates/babelfix-core/src/session/state.rs:422-558 | What that says of new messages: their numbers strictly increase. |
| Outbound.ReplaysAreWhole | crates/babelfix-core/src/session/state.rs:585-654 | Between a range being announced and the next new message, what is sent covers the range exactly once, in order. |
| Outbound.AcceptedAreSentInOrder | crates/babelfix-core/src/session/state.rs:422-654 | While the session is open, the messages accepted are, field by field and in that order, the new messages on the wire and then those held back. |
| Outbound.InStepThroughout | crates/babelfix-core/src/session/state.rs:585-654 | A run stays in step with the wire throughout, every replay accounted for to its next number, if and only if every offer that a replay would retransmit carries a time. |
| LostReplays.UntimedIsLost | crates/babelfix-core/src/session/state.rs:585-624 | Without the time, in any run: the call fails and sends nothing, and until the peer asks again nothing that is sent covers the number, nor the numbers owed before it. |
| LostReplays.UntimedOffer | crates/babelfix-core/src/session/state.rs:585-624 | A run that comes to this: a session logged on, one message sent, a resend asked for from 1, and the message offered without a time; for every continuation until the next request. |
| Outbound.ReplayFollows | crates/babelfix-core/src/session/state.rs:585-624 | A message is counted before its time is looked at, so the replay stays in step with the wire if and only if a message that would be retransmitted carries a time. |
| Inbound.InboundOrder | crates/babelfix-core/src/session/state.rs:675-876 | Over any run whose inbound messages are accepted, the application is told of every number below the one expected once, in order; a gap asks for one resend, from the first missing number; a Logout inside a gap is held until it closes. |
| Inbound.DeliveredIncrease | crates/babelfix-core/src/session/state.rs:675-876 | What that says of deliveries: their numbers strictly increase, within what the application was told of. |
| Inbound.ResendBeginsIncrease | crates/babelfix-core/src/session/state.rs:675-784 | And of resends: each is asked for from beyond where the last one was. |
| Inbound.InboundAccounting | crates/babelfix-core/src/session/state.rs:675-784 | Over any run at all, the numbers of the messages taken in sequence and the ranges from the numbers of the gap fills and resets to the number before their NewSeqNo run end to end: each number passed was used up by exactly one of them. |
| Inbound.StepAsks | crates/babelfix-core/src/session/state.rs:675-784 | In any state and for any input: a resend is asked for if and only if a gap opens, from the number expected. |
| Inbound.LogoutAnsweredAfterGap | crates/babelfix-core/src/session/state.rs:675-876 | A Logout is answered only if it came in sequence, or once the gap it came in has closed. |
| TwoPeers.TwoPeerRecovery | crates/babelfix-core/src/session/state.rs:230-876 | Two sessions, one of them missing some of what the other sends, at logon or later: the receiver asks for one resend, finds no number too low, and ends with no gap, expecting one past everything sent, whatever the other's application offers for the replay. |
| RecoveryCases.GapAtLogon | crates/babelfix-core/src/session/state.rs:230-249 | Runs the theorem above is about: a Logon numbered beyond what was expected, for any two numbers. |
| RecoveryCases.GapMidSession | crates/babelfix-core/src/session/state.rs:252-269 | And a gap found by a session in any state. |
| Deliveries.HandedInOrder | crates/babelfix-core/src/session/state.rs:675-876 | Over any run, the application is handed, in order and under their own numbers, exactly the application messages and Rejects among the messages used up in sequence. |
| Deliveries.AskedAsNamed | crates/babelfix-core/src/session/state.rs:788-876 | Over any run, the ranges the application is asked to replay are those of the ResendRequests that came in sequence or in a gap with no replay outstanding: from BeginSeqNo to EndSeqNo, or to the highest number on the wire if that is zero. |
| Gaps.GapsAskedForOnce | crates/babelfix-core/src/session/state.rs:675-784 | Over any run, a resend is asked for exactly when a message comes beyond the number expected and no gap is open, from that number; a gap is open until the numbers up to the message that opened it are used up. |
| Gaps.LogoutAnsweredWhen | crates/babelfix-core/src/session/state.rs:675-876 | Over any run, a message heard is answered with a Logout if and only if it comes in sequence and is one, or leaves no gap that one came beyond. |
| Probes.AnsweredInOrder | crates/babelfix-core/src/session/state.rs:788-876 | Over any run, the Heartbeats asked for in answer are one for each Test Request used up in sequence, with its identifier, in order. |
| Probes.RecoveredOnEcho | crates/babelfix-core/src/session/state.rs:788-876 | Over any run, recovery is reported complete exactly for each Heartbeat used up in sequence that echoes the last Test Request to synchronise, if it was not echoed before. |
| Probes.ProbesAreNumbered | crates/babelfix-core/src/session/state.rs:365-394 | Over any run, the Test Requests asked for are numbered 1, 2, 3 and so on, whatever they are for. |
| Probes.SynchronisedWhen | crates/babelfix-core/src/session/state.rs:230-249 | Over any run, a Test Request to synchronise is asked for once after each accepted Logon of the peer and each completed replay that leave the session going, and at no other time. |
| Handshake.LogonsFirst | crates/babelfix-core/src/session/state.rs:422-524 | After any run, a message sent for the first time, held back or not, is a Logon with the session's interval, or comes when our Logon is on the wire and the peer's was accepted. |
| Handshake.AcceptedWhen | crates/babelfix-core/src/session/state.rs:422-504 | After any run, a message given for sending is accepted if and only if its number is beyond every number accepted and every range promised, and it is a Logon with our interval and none is on the wire, or our Logon is and the peer's was accepted. |
| Handshake.OneLogonWhen | crates/babelfix-core/src/session/state.rs:422-524 | Over any run, at most one Logon is on the wire or held if and only if none was accepted while another was held behind a replay. |
| Handshake.TwoLogonsGoOut | crates/babelfix-core/src/session/state.rs:422-524 | A run in which two do: the peer asks for a resend before we log on, two Logons are accepted while the replay is outstanding, and both go out when it ends. |
| Handshake.LoggedOnWhen | crates/babelfix-core/src/session/state.rs:230-249 | After any run, a call reports the session logged on once for each Logon of ours that finds the peer's accepted and once if the peer's is accepted and finds ours, unless the session is ending; never otherwise. |
| Handshake.LogonAskedWhenTold | crates/babelfix-core/src/session/state.rs:223-226 | Over any run, a Logon is asked for exactly when the driver says so, with the session's interval. |
| Timekeeping.TimePasses | crates/babelfix-core/src/session/state.rs:300-347 | After any run, time passing leads to exactly this: a Heartbeat an interval after the last thing that put one off, if none is on its way; a Test Request when the peer has been silent for a second interval in a row, a Logout after the third; the end, an interval after a Logout was asked for. |
| Timekeeping.LogoutAskedWhen | crates/babelfix-core/src/session/state.rs:401-414 | In any state and for any input: for which reason a Logout is asked for, if any, and until when an answer is waited for; never a second one. |
| Retransmissions.ResentAsOffered | crates/babelfix-core/src/session/state.rs:585-624 | Over any run, what is sent again is what was offered and wanted, in order, each message as it was offered but for the mark of a copy and its times; an OrigSendingTime it had wins over its SendingTime. |
| RawEvents.WireIsReported | crates/babelfix-core/src/session/state.rs:531-558 | Over any run, the messages reported sent are those sent, and those reported received are those received, in order. |
| Sequencing.Sequencer.SendMessage | crates/babelfix-core/src/sequencer.rs:301-311 | The next number is assigned and a write asked for, or nothing changes. |
| Sequencing.Sequencer.SendExactly | crates/babelfix-core/src/sequencer.rs:319-338 | A message with a number of its own: refused if that is behind the next number; a jump ahead is taken, and the next number follows it. |
| Sequencing.Sequencer.Persisted | crates/babelfix-core/src/sequencer.rs:342-367 | A write has completed, in any order: what that frees is handed to the session. |
| Sequencing.Sequencer.Release | crates/babelfix-core/src/sequencer.rs:385-399 | Messages that are ready are handed over in order, until the session closes, refuses one or is not logged on; a replay does not stop it. |
| Sequencing.Sequencer.PopReady | crates/babelfix-core/src/sequencer.rs:442-448 | The first message that is ready is taken, but until the session is logged on only a Logon. |
| Sequencing.Sequencer.Resumption | crates/babelfix-core/src/sequencer.rs:268-278 | The watermark: the number from which the next session resumes. |
| Sequencing.Sequencer.NoteHandled | crates/babelfix-core/src/sequencer.rs:403-418 | A message handled, in any order: the watermark moves past what is handled without a break. |
| Sequencing.Sequencer.NoteWatermarkWritten | crates/babelfix-core/src/sequencer.rs:421-431 | A watermark persisted; the next, if it has moved, is asked for. |
| Sequencing.Sequencer.Intercept | crates/babelfix-core/src/sequencer.rs:505-538 | What the session raises, numbered, noted or passed on. |
| SequencerRuns.ReleasedIsActions | crates/babelfix-core/src/sequencer.rs:385-399 | What a release does to the sequencer is what a run of single actions does, and tells the application the same. |
| SequencerRuns.PersistedIsActions | crates/babelfix-core/src/sequencer.rs:342-367 | And so is what the report of a write does. |
| SequencerRuns.PersistBeforeSend | crates/babelfix-core/src/sequencer.rs:301-490 | Over any run, with writes completing in any order: what was handed to the session is a prefix of what was numbered; numbers only go up, from where it resumed; every number handed over had its own write reported complete. |
| SequencerRuns.NumbersNeverReused | crates/babelfix-core/src/sequencer.rs:222-249 | Wherever a run is cut off, a sequencer that resumes past everything the store holds never gives out a number that reached the session. |
| SequencerRuns.AtLeastOnce | crates/babelfix-core/src/sequencer.rs:403-503 | At any moment neither the watermark persisted nor the one being written passes a delivered message that has not been handled; each watermark asked for is beyond the last. |
| Composed.ReleasedAreAccepted | crates/babelfix-core/src/sequencer.rs:287-548 | Sequencer and session together, over any run in which our Logon is asked for at most once, the application sends none itself and the peer asks only for what was sent: the session refuses nothing the sequencer is ready to hand over, and until both Logons have passed that is only ours. |
| Composed.DeliveredAtLeastOnce | crates/babelfix-core/src/sequencer.rs:403-548 | Over any run whose inbound messages are accepted, the sequencer expects the number the session expects, and no watermark passes a message delivered and not handled. |
| Composed.UnhandledAskedForAgain | crates/babelfix-core/src/sequencer.rs:268-278 | So a crash loses nothing: a session that resumes from either watermark asks, once, at the peer's Logon, for every message left unhandled. |
| Reports.ToldInOrder | crates/babelfix-core/src/sequencer.rs:505-538 | Over any run, whatever fails, the application is told, in order, of exactly the session's events other than requests to send and notices that the count moved. |
| Reports.CallTells | crates/babelfix-core/src/sequencer.rs:505-552 | Of one session call the same, up to the first request to send once a write has failed; the call fails if and only if there is one. |
| Reports.HandedThrough | crates/babelfix-core/src/sequencer.rs:505-552 | Session and sequencer together, as long as no write fails: the messages the application is handed are the application messages and Rejects the session used up in sequence. |
| Reports.PairIsSession | crates/babelfix-core/src/sequencer.rs:385-399 | The session behind a sequencer does what it does alone on the same inputs, so what is proved of its runs holds of it there. |
| Watermarks.WatermarkKeepsUp | crates/babelfix-core/src/sequencer.rs:268-278 | By every policy, at any moment of any run: unless a watermark is being written, the one due has been. Due is the number after the last one received, the first message handed over and not handled, or the number after the last one handled. |
| Watermarks.WatermarkAskedWhenDue | crates/babelfix-core/src/sequencer.rs:492-503 | And each watermark asked for is the one due, beyond what has been written, with none outstanding. |
| Handovers.HandedAsStored | crates/babelfix-core/src/sequencer.rs:342-490 | Over any run, the messages given to the store are, field by field and in order, those handed to the session, those that may be, and those whose writes are outstanding. |
| Handovers.StoredAsGiven | crates/babelfix-core/src/sequencer.rs:301-338 | After any run, the next action gives the store exactly the message it is meant to: numbered next, stamped if it had no time, a new one without the marks of a copy; refused if and only if a write has failed, there is no room, or its own number is missing or behind. |
| Handovers.HistoryKnown | crates/babelfix-core/src/sequencer.rs:342-367 | Over any run, a message has left the writes in flight if and only if its own write and all before it are complete. |
| Handovers.HandedWhen | crates/babelfix-core/src/sequencer.rs:442-448 | After any run, what is first in line is handed over if and only if the session said it is logged on, or it is a Logon. |
| Handovers.ReleasedAll | crates/babelfix-core/src/sequencer.rs:385-399 | A release that ends of itself leaves nothing that may be handed over. |
| Reordering.ReorderWindow.OfferMessage | crates/babelfix-core/src/reorder.rs:147-208 | A message offered: released, held, or handed back as late, and everything released with it. The ring of slots refines the map of held numbers. |
| Reordering.ReorderWindow.ExpireUpTo | crates/babelfix-core/src/reorder.rs:216-239 | What has waited too long is given up on. |
| Reordering.ReorderWindow.Take | crates/babelfix-core/src/reorder.rs:258-272 | One number taken out of the ring, if it is there. |
| Reordering.ReorderWindow.Through | crates/babelfix-core/src/reorder.rs:276-296 | Everything held up to a number is released, in order. |
| Reordering.ReorderWindow.RunOn | crates/babelfix-core/src/reorder.rs:299-312 | The run of held numbers from the one expected is released. |
| ReorderRuns.RunAccounted | crates/babelfix-core/src/reorder.rs:147-312 | Over any run in which no offer repeats the number expected while it is held: released numbers strictly increase; every message offered was released once, handed back or is held; held numbers stay within a window of the one expected. |
| ReorderRuns.OfferKeepsRange | crates/babelfix-core/src/reorder.rs:147-208 | The window stays in order if and only if the offer does not repeat the number expected while that is held. |
| ReorderRuns.LateWhen | crates/babelfix-core/src/reorder.rs:147-208 | A message offered is handed back if and only if it is not the number expected at the call and, past what has expired and the run behind it, its number is behind, is still held, or falls on a slot still taken; said of the window before the call. |
| ReorderRuns.ExpireLeaves | crates/babelfix-core/src/reorder.rs:216-239 | Expiring leaves exactly the numbers beyond the last expired one and the run that follows it, and expects the first number behind those. |
| ReorderRuns.LateThoughNeitherPassedNorHeld | crates/babelfix-core/src/reorder.rs:147-239 | The third case arises: a concrete window hands back a number neither passed nor held. |
| ReorderRuns.ExpireReleases | crates/babelfix-core/src/reorder.rs:216-239 | What expiring releases is in order and beyond nothing that is held; nothing held has expired afterwards. |
| ReorderRuns.DistinctNeverRepeat | crates/babelfix-core/src/reorder.rs:147-208 | Messages with distinct numbers meet the condition of the first of these. |
| WindowMoves.OfferLeaves | crates/babelfix-core/src/reorder.rs:147-312 | Where any offer to a window that has begun leaves it, said of the window before: which number is expected, what is gone, what stays, and whether the offer is held and until when; for all but a repeat of the number expected while it is held. |
| WindowMoves.PromptWhen | crates/babelfix-core/src/reorder.rs:147-239 | Nothing waits that could go, after an offer as before it, if and only if the offer is not the number that comes to be expected only because something else has waited too long. |
| WindowMoves.HeldThoughExpected | crates/babelfix-core/src/reorder.rs:147-239 | A concrete window that holds such an offer though its turn has come. |
| Tape.SetBlockFlat | crates/babelfix-core/src/message/tape.rs:109-114 | Exchanging a block, at any depth, changes on the tape only that block, the spans of what is around it and the count of the nearest group. |
| Document.SpliceRefines | crates/babelfix-core/src/message/edit.rs:265-327 | A splice of the flat tape, with the ancestors' spans grown, the nearest count patched and the boundaries shifted, is an exchange of nodes in the tree: in any region and at any depth. |
| Document.FillRefines | crates/babelfix-core/src/message/edit.rs:265-297 | Filling slots of the header's gap is inserting before it: nothing else moves. |
| Document.ViewsStay | crates/babelfix-core/src/message/edit.rs:33-60 | A view made before an edit inside its block is good after it. |
| Editing.InsertRefines | crates/babelfix-core/src/message/edit.rs:265-297 | Insertion, into the gap or by a splice, is insertion of nodes. |
| Editing.RemoveRefines | crates/babelfix-core/src/message/edit.rs:301-307 | Taking out an entry with all it spans is taking out a node. |
| Messages.Message.constructor | crates/babelfix-core/src/message/tape.rs:160-173 | A new message: BeginString and MsgType, stored in its arena, and the gap. |
| Messages.Message.Reset | crates/babelfix-core/src/message/tape.rs:180-195 | The same of a message that is used again. |
| Messages.Message.AppendField | crates/babelfix-core/src/message/tape.rs:210-214 | The arena grows by the field as it is spelt, and the entry points at it. |
| Messages.Message.FindIn | crates/babelfix-core/src/message/tape.rs:287-305 | The search from a hint and round to the start finds the entry the function on trees says. |
| Messages.Message.HeaderGap | crates/babelfix-core/src/message/tape.rs:325-335 | The gap that ends the header, if there is one. |
| Messages.Message.Insert | crates/babelfix-core/src/message/edit.rs:265-297 | The flat insertion: gap slots used if they suffice and come next, else a splice. |
| Messages.Message.RemoveAt | crates/babelfix-core/src/message/edit.rs:301-307 | The flat removal. |
| Messages.Message.InsertPos | crates/babelfix-core/src/message/edit.rs:367-387 | Where a field goes: by its definition's order in an instance, before the gap in the header, else last. |
| Messages.Message.WriteValue | crates/babelfix-core/src/message/edit.rs:392-423 | A value that is empty, or plain and holding a delimiter, is refused and leaves the arena alone. |
| Messages.Message.PlaceEntries | crates/babelfix-core/src/message/edit.rs:546-568 | A field, or a Length with its data, overwrites the one there is or goes where it belongs. |
| Messages.Message.SetField | crates/babelfix-core/src/message/edit.rs:517-542 | Setting a field: which requests are refused, and what the message and its bytes are otherwise. |
| Messages.Message.Remove | crates/babelfix-core/src/message/edit.rs:575-600 | Removing a tag takes out the node it names, or both halves of a pair. |
| Values.CanBeSetWhen | crates/babelfix-core/src/message/edit.rs:392-542 | A field can be set if and only if the message does not derive it, and its value is not empty and, unless it is data, holds no delimiter. |
| Values.SetThenGet | crates/babelfix-core/src/message/edit.rs:517-542 | A field that was set reads as the value it was set to. |
| Values.OthersKeepValues | crates/babelfix-core/src/message/edit.rs:517-568 | Every other field of the block reads as it did. |
| Values.RemovedReads | crates/babelfix-core/src/message/edit.rs:575-600 | A field that was removed is gone if and only if the block had no second one of that tag; the others read as they did. |
| Copying.CopyFlat | crates/babelfix-core/src/message/edit.rs:608-646 | Copying a subtree's entries, re-based to another depth, lays out the copied tree. |
| Copying.CopyTexts | crates/babelfix-core/src/message/edit.rs:608-646 | The copies have the bytes of the originals, whatever is appended later. |
| Copying.Copy | crates/babelfix-core/src/message/edit.rs:608-646 | What a tag names in one message replaces it in the other, groups and all; framing fields are not copied. |
| Groups.GroupMut.InstanceAt | crates/babelfix-core/src/message/edit.rs:740-754 | The view of the nth instance if the group is there and has so many, and nothing otherwise. |
| Groups.GroupMut.Ensure | crates/babelfix-core/src/message/edit.rs:757-776 | The group, made if it is missing. |
| Groups.GroupMut.Insert | crates/babelfix-core/src/message/edit.rs:807-823 | An instance is inserted and counted, at any position there is, in a group made for it if it is missing; the view of it fits. |
| Groups.GroupMut.Remove | crates/babelfix-core/src/message/edit.rs:833-848 | An instance goes, and the group with its last one; a stale index changes nothing. |
| Groups.GroupMut.Retain | crates/babelfix-core/src/message/edit.rs:852-885 | The instances chosen stay, in order; if none does the group goes. |
| Groups.GroupMut.Clear | crates/babelfix-core/src/message/edit.rs:888-896 | The group goes. |
| Pruning.LiveInstances | crates/babelfix-core/src/message/encode.rs:161-172 | On the flat tape: how many instances of a group write something, to any depth. |
| Pruning.InstanceWrites | crates/babelfix-core/src/message/encode.rs:176-189 | Whether an instance writes anything. |
| Pruning.Prune | crates/babelfix-core/src/message/edit.rs:141-159 | An instance left with nothing to write goes, and its group with the last one. |
| Shape.ReadyToEdit | crates/babelfix-core/src/message/edit.rs:33-60 | A view onto a block of a well-formed message meets what every edit asks for. |
| EditRuns.EditsKeepShape | crates/babelfix-core/src/message/edit.rs:265-897 | However a message is edited, copies and pruning included, it stays well formed. |
| EditRuns.CopyShaped | crates/babelfix-core/src/message/edit.rs:608-646 | Copies of well-formed nodes are well formed. |
| EditRuns.NamedShaped | crates/babelfix-core/src/message/edit.rs:608-646 | What a tag names in a well-formed block can be copied. |
| MemberOrder.PutKeepsOrder | crates/babelfix-core/src/message/edit.rs:367-568 | Setting a field of an instance keeps the members its definition lists in that order; setting a data field with its Length does if and only if it is there already or no member is that is listed between the two. |
| MemberOrder.PairSplitsOrder | crates/babelfix-core/src/message/edit.rs:367-568 | A definition, an instance and a pair that do not meet it, and the order lost. |
| MemberOrder.GroupKeepsOrder | crates/babelfix-core/src/message/edit.rs:757-776 | And so does a new group of an instance. |
| MemberOrder.CopyKeepsOrder | crates/babelfix-core/src/message/edit.rs:608-646 | And so does a copy, under the same condition for a pair. |
| MemberOrder.DelimiterFirst | crates/babelfix-core/src/message/edit.rs:364-387 | In such an instance no listed member comes before the delimiter. |
| MemberOrder.OthersGoLast | crates/babelfix-core/src/message/edit.rs:367-387 | A field that is not listed goes last in an instance, and any new field in the body or the trailer. |
| MemberOrder.HeaderGoesBeforeGap | crates/babelfix-core/src/message/edit.rs:367-387 | A new header field goes behind the others, and nothing but the gap is behind it. |
| OrderedRuns.EditsKeepOrder | crates/babelfix-core/src/message/edit.rs:265-897 | However a message is edited, its instances stay in the order of their definitions, at any depth, if these list each Length right in front of its data. |
| OrderedRuns.BuiltInOrder | crates/babelfix-core/src/message/edit.rs:265-897 | So in a message built from nothing by any edits every instance has its listed members in order. |
| InstanceEdits.AddedWhereAsked | crates/babelfix-core/src/message/edit.rs:807-823 | A new instance is empty and goes where it is asked for; the others stay, in order. |
| InstanceEdits.RemovedAsAsked | crates/babelfix-core/src/message/edit.rs:833-848 | The instance asked for goes, and the group with its last one; the others stay, in order. |
| InstanceEdits.RetainedAsChosen | crates/babelfix-core/src/message/edit.rs:852-885 | Exactly the instances chosen stay, in order; the group goes if there are none. |
| InstanceEdits.ElsewhereStays | crates/babelfix-core/src/message/edit.rs:265-327 | An edit of a block leaves every block that is neither on the way to it nor inside it as it was. |
| PruneUnseen.PrunedUnseen | crates/babelfix-core/src/message/edit.rs:141-159 | Pruning takes an instance out if and only if there is no field in it at any depth; either way the message writes what it wrote before. |
| Lookup.HintFindsAnother | crates/babelfix-core/src/message/tape.rs:283-316 | A body with a tag twice, where a hint at the second finds the second. |
| Lookup.HintsAreHarmless | crates/babelfix-core/src/message/tape.rs:283-316 | A lookup from any hint is the lookup without one if and only if the block has the tag at most once. |
| Navigation.AddressLeadsBack | crates/babelfix-core/src/message/view.rs:480-631 | Resolving an entry's path, at any depth, gives the entry if and only if every group on the way, and the entry, is the first with its tag. |
| Navigation.UniqueMeansFirst | crates/babelfix-core/src/message/view.rs:480-631 | With tags unique per block that always holds. |
| Navigation.Up | crates/babelfix-core/src/message/view.rs:403-463 | The entry around an entry, found by walking down the flat tape. |
| Navigation.PathOf | crates/babelfix-core/src/message/view.rs:465-498 | The path of an entry. |
| Navigation.Resolve | crates/babelfix-core/src/message/view.rs:618-631 | Resolving a path finds the entry that the function on trees finds. |
| Canonical.Normalize | crates/babelfix-core/src/message/normalize.rs:19-47 | Sorting runs of flat entries, group by group, gives the tape of the normalised trees; the message stays well formed and no byte is touched. |
| Canonical.Reorder | crates/babelfix-core/src/message/normalize.rs:51-101 | One block, at any depth. |
| Normalizing.NormalRearranges | crates/babelfix-core/src/message/normalize.rs:51-101 | The pieces of a block are those there were, sorted by the definition's order. |
| Normalizing.NormalTwice | crates/babelfix-core/src/message/normalize.rs:11-47 | Normalising what is normal changes nothing. |
| NormalForms.BlockAlike | crates/babelfix-core/src/message/normalize.rs:51-101 | Two blocks, in any messages and at any depth, look alike once normalised if and only if, tag by tag, they have the same fields in the same order by value, and groups with as many instances, each alike in turn. |
| NormalForms.NormalAlike | crates/babelfix-core/src/message/normalize.rs:11-47 | Two messages are equal once normalised if and only if their regions have the same content in that sense. |
| NormalForms.SameContentNormal | crates/babelfix-core/src/message/normalize.rs:11-47 | Messages with the same content are equal once normalised, whatever the dictionary says of their regions. |
| NormalForms.InstancesAlike | crates/babelfix-core/src/message/normalize.rs:82-99 | Groups with as many instances look alike once normalised if and only if each instance has the same content. |
| NormalForms.OrderUnseen | crates/babelfix-core/src/message/normalize.rs:11-47 | Blocks without repeated tags that have the same fields in any order, by value and wherever their bytes are, have the same content. |
| NormalForms.OrderOfTagsUnseen | crates/babelfix-core/src/message/normalize.rs:11-47 | Two fields with different tags, in either order and wherever their bytes are, look alike once normalised. |
| NormalForms.RepeatsKeepOrder | crates/babelfix-core/src/message/normalize.rs:11-47 | With a repeated tag the documented claim fails: two fields with different values that trade places do not look alike once normalised. |
| NormalForms.NormalDocTwice | crates/babelfix-core/src/message/normalize.rs:11-47 | Normalising a message twice is normalising it once. |
| NormalOrder.NormalDocInPlace | crates/babelfix-core/src/message/normalize.rs:11-47 | A normalised message has, in every region and in every instance at any depth, the fields its definition places first, in its order, and the others by number. |
| NormalOrder.UnchangedWhenInPlace | crates/babelfix-core/src/message/normalize.rs:51-101 | A block is left as it is by normalising if and only if it is in that order already, at every depth. |
| Numerals.WriteUint | crates/babelfix-core/src/message/types.rs:305-312 | The digits of a number fill the start of a buffer. |
| Numerals.ParseUint | crates/babelfix-core/src/message/types.rs:521-537 | Digits only, empty text and overflow told apart. |
| Numerals.ReadBack | crates/babelfix-core/src/message/types.rs:305-537 | What is written is read back; a number too large is seen to be. |
| Numerals.WrittenAsRead | crates/babelfix-core/src/message/types.rs:521-537 | Text that is a number is how it would be written if and only if it has no leading zero. |
| Parser.Parser.Settle | crates/babelfix-core/src/message/parse.rs:430-449 | The loop over open groups: closed until the field belongs, or its delimiter starts an instance. |
| Parser.Parser.EnterRegion | crates/babelfix-core/src/message/parse.rs:615-651 | Header, body, trailer, and what is out of order. |
| Parser.Parser.Push | crates/babelfix-core/src/message/parse.rs:425-529 | One field placed on the tape, or the reason it cannot be. |
| Parser.ParseTag | crates/babelfix-core/src/message/parse.rs:668-709 | A tag without leading zero that fits its type, up to its equals sign. |
| Parser.Parser.CheckFraming | crates/babelfix-core/src/message/parse.rs:341-418 | The rules for BeginString, BodyLength, MsgType and CheckSum. |
| Parser.Parser.Field | crates/babelfix-core/src/message/parse.rs:192-258 | One field off the bytes: up to its delimiter, or as long as its Length said. |
| Parser.Parser.Run | crates/babelfix-core/src/message/parse.rs:182-331 | The whole loop: the machine it ends in, or its reason to stop, and where each field ends. |
| Parser.ParseMessage | crates/babelfix-core/src/message/parse.rs:87-155 | Parsing under any delimiter: refused with the parser's reason, or a valid, well-formed message over the bytes with SOH put back. |
| Lexing.TagReads | crates/babelfix-core/src/message/parse.rs:668-709 | A tag as it is written is read back. |
| Legible.AcceptedIsMessage | crates/babelfix-core/src/message/parse.rs:182-418 | Bytes that are accepted are fields laid end to end with no byte over, data as long as announced, framed in order, BodyLength and CheckSum right. |
| Legible.MessageIsAccepted | crates/babelfix-core/src/message/parse.rs:182-418 | And all such bytes are accepted, if the stack machine accepts their fields. |
| Legible.ReadOneWay | crates/babelfix-core/src/message/parse.rs:182-284 | There is only one way to read a message. |
| Machines.ParsedSame | crates/babelfix-core/src/message/parse.rs:425-664 | Fields that parse, parse alike wherever their bytes are; the tape is the same, value for value. |
| Machines.HeaderKept | crates/babelfix-core/src/message/parse.rs:333-338 | A field the header starts with is in it still when parsing ends. |
| RoundTrip.ParsedBack | crates/babelfix-core/src/message/parse.rs:425-664 | A conforming message's fields, with groups nested to any depth, parse to the tape of the same trees. |
| Lossless.ParsedIsLossless | crates/babelfix-core/src/message/parse.rs:425-664 | Whatever is accepted is the layout of trees whose fields are the fields that came, in order, each group with as many instances as it declared; and the trees conform, so that their fields can only be read as them. |
| Lossless.ParsedIsWellFormed | crates/babelfix-core/src/message/parse.rs:425-664 | And those trees are well formed. |
| Forwarding.AcceptedConforms | crates/babelfix-core/src/message/parse.rs:182-664 | Bytes that are accepted are a well-formed message that conforms to the dictionary, field for field. |
| Forwarding.ForwardedReadsBack | crates/babelfix-core/src/message/encode.rs:34-305 | A message that was accepted can be sent on: unless a group in it has no instances, what is encoded of it, under the delimiter it came with, is accepted and equals it. |
| Encoding.Visit | crates/babelfix-core/src/message/encode.rs:128-157 | The walk over the flat tape writes what the function on trees says, MsgType first. |
| Encoding.Emits | crates/babelfix-core/src/message/encode.rs:128-189 | Each written count is the number of instances that write something, and what is written is the fields of the tree without the rest. |
| Encoding.WrittenIsReadBack | crates/babelfix-core/src/message/encode.rs:128-157 | What is visited, framed, parses to the tape of the same trees without what is not written. |
| Output.Pieces | crates/babelfix-core/src/message/encode.rs:93-123 | Adjacent fields are copied as one run; the runs together are the body, and no two could be joined. |
| Output.BodyLength | crates/babelfix-core/src/message/encode.rs:35-39 | BodyLength from the pieces is the length of the body. |
| Output.EncodeDelimited | crates/babelfix-core/src/message/encode.rs:34-82 | The bytes appended are the encoding, whichever of the two copying loops wrote them. |
| Output.BodyLengthIsRight | crates/babelfix-core/src/message/encode.rs:34-82 | BodyLength counts the bytes between its own delimiter and CheckSum, which takes seven, under any delimiter. |
| Output.ChecksumIsTheWires | crates/babelfix-core/src/message/encode.rs:193-197 | The checksum under any delimiter is that of the SOH form, even when data holds the delimiter. |
| Equality.Equal | crates/babelfix-core/src/message/encode.rs:276-305 | The loop over two walks decides whether two messages have the same BeginString and see the same. |
| Equality.WalkIsSights | crates/babelfix-core/src/message/view.rs:595-611 | The walk over a tape sees what there is to see of the trees. |
| Equality.SameReadBack | crates/babelfix-core/src/message/encode.rs:276-305 | A message without empty instances equals the message it is read back as. |
| Equality.SameReadBackWhen | crates/babelfix-core/src/message/encode.rs:128-305 | And only then: if and only if no instance, at any depth, has nothing to write. |
| Equality.RoundTrips | crates/babelfix-core/src/message/encode.rs:128-305 | The fields of a conforming message, written and parsed, come back as a message equal to it. |
| Faithful.TreesTold | crates/babelfix-core/src/message/encode.rs:276-305 | What is compared of trees tells the trees: forests that look alike have the same shape, to any depth. |
| Faithful.ReadBackWhen | crates/babelfix-core/src/message/encode.rs:128-305 | Exactly which messages survive: what is written of a message without empty instances parses to a message equal to it if and only if what is written conforms, that is, if no field is taken into a group before it. |
| Faithful.ZeroCountLost | crates/babelfix-core/src/message/encode.rs:128-189 | A message that is accepted and does not survive: the count of zero that closed a group is not written, and the field behind it is taken into the group. |
| WireTrip.EncodedIsMessage | crates/babelfix-core/src/message/encode.rs:34-82 | What the encoder writes is a message by the parser's rules, under any delimiter its plain fields do not hold. |
| MessageTrip.RewiredKeeps | crates/babelfix-core/src/message/parse.rs:127-155 | Putting SOH back where fields end changes no value. |
| MessageTrip.BytesRoundTrip | crates/babelfix-core/src/message/encode.rs:34-305 | Byte for byte: a message that is encoded is accepted by the parser, and what is parsed equals it. |
| Framing.FrameMore | crates/babelfix-core/src/codec.rs:162-200 | A frame that is found stays, and so does what is wrong, however many bytes follow; only a buffer that was too long may be found wrong for another reason. |
| Framing.ChunkingUnseen | crates/babelfix-core/src/codec.rs:113-149 | However the bytes are cut into reads, the decoder gives the messages it would give if they came at once, and fails if and only if it would. |
| Framing.WaitingBounded | crates/babelfix-core/src/codec.rs:157-175 | A decoder that waits holds no more bytes than a frame may have. |
| Framing.VersionLatched | crates/babelfix-core/src/codec.rs:121-137 | Once a version has been latched, every later message is parsed by it. |
| Frames.FrameWhen | crates/babelfix-core/src/codec.rs:162-200 | A frame is found if and only if the bytes begin with a BeginString and a BodyLength, each up to the next delimiter, and the frame that length makes is not too long. |
| Frames.LengthWhen | crates/babelfix-core/src/codec.rs:183-190 | A length is decimal digits, leading zeros and a plus sign allowed, and not too large; nothing else is one. |
| Frames.WaitsWhen | crates/babelfix-core/src/codec.rs:162-182 | More bytes are waited for if and only if there are not too many already and what has come may still begin a frame. |
| Frames.FrameTaken | crates/babelfix-core/src/codec.rs:113-149 | A frame that has come is taken off the bytes whether or not it parses, and its version is latched. |
| Frames.NothingTaken | crates/babelfix-core/src/codec.rs:113-149 | And otherwise nothing is taken and no message given. |
| Decoder.FixDecoder.Next | crates/babelfix-core/src/codec.rs:113-149 | One call: the buffer, the latched version and the message, or why there is none. |
| Streams.EncodedFrames | crates/babelfix-core/src/codec.rs:162-200 | What was encoded is the first frame of any bytes it comes first in. |
| Streams.SentIsReceived | crates/babelfix-core/src/codec.rs:113-238 | Any messages that can be read back, encoded one after the other and cut into any chunks, are given back one by one, each equal to what was sent, with nothing left over. |
| StreamCases.NewIsSendable | crates/babelfix-core/src/message/tape.rs:160-195 | Every new message, of any type, is one of those. |
| StreamCases.AcceptedIsSendable | crates/babelfix-core/src/message/parse.rs:87-155 | And so is every message that was accepted, if no group in it is without instances and it is short enough. |

## Left out

- Widths of stored integers: depth (8 bits), offsets, lengths and spans (32 bits) and sequence numbers (64 bits) do not wrap or saturate in the model.
- Errors from the application's own callbacks in the middle of a call (`SessionOutput`, `SeqSink`): outputs are collected, and only the reorder window's outlet can stop a call.
- Message contents in the session model: a message is its type, number, flags and the fields the protocol reads; CompIDs, free texts, and the stamping of times and CompIDs are not part of it.
- Logon checks of CompIDs and versions, the handshake, the session driver and `next_deadline`.
- Fragments (`parse_fragment`): the rules that let a person's input leave out framing fields and put header fields late.
- Typed access to fields (prices, times, multiple values, code sets), `copy_value` and `validate_strict`.
- Loading of the FIX repository, and how the dictionary's tables and the orders of `normalize` are built from it: they are parameters, assumed to place each Length with its data (`PairsTogether`), the framing fields in header and trailer (`Sane`), and CheckSum in no group (`CheckSumPlain`).
- Pretty printing, hashing of messages, and the text form of field paths.
- The tokio, Kafka and command-line crates around the core.
- Sequencing.PassOn: a session call runs to its end before its events are passed on, where the code ends it at the first event the sequencer refuses; what is passed on stops there in both.
- OrderedRuns.EditsKeepOrder: assumes definitions that list each Length right in front of its data, and that an edit goes by the definition of the group it is in; `PutKeepsOrder` has the exact condition for one edit.
- WindowMoves.OfferLeaves: assumes a `release` that always continues, as `RunAccounted` does.
- NormalForms.NormalAlike: assumes that BodyLength and CheckSum are plain fields and that a tag tells its region, as `Told` has it; `SameContentNormal` needs only the first.
- Forwarding.ForwardedReadsBack: leaves out a delimiter that is a digit, which a written count could hold.
- Faithful.ReadBackWhen: assumes the framing fields stand only where they belong; `ForwardedReadsBack` shows that of every message accepted.
- Copying.Copy: the source and the target are different messages, as the borrow checker has it.
- Canonical.Normalize: a group's own order is found on the way down, where the code walks up from the group.
