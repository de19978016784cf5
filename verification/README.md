# Espejismo in Dafny

A model of the stateful cores of Espejismo, a multiplexed tunnel, with proofs of what they keep over
whole runs. `dafny verify dfyconfig.toml` checks all of it.

## What is modelled

**The yamux multiplexer** (`crates/tokio-yamux`), in layers:

- `Frames`: the frame codec with its retained header, against a stateless parser. `FrameForms` has the byte
  layout.
- `Streams`: the substream state machine as functions on values: state, both windows, chunked read
  buffer, two waker slots and the frame channel. `StreamHandles` has the same machine as a class whose
  methods and loops are proved equal to those functions.
- `Accounting`, `WakeUps`, `Starvation`, `Lifecycle`, `Delivery`: what polls of one stream keep, and where
  they leave a parked writer. `Answers`: what each poll answers, told from the queue it finds.
- `Duplex`: one stream between two ends with a pipe in each direction.
- `Sessions`, `Wires`, `Links`: the session's routing and queues (`SessionObjects` is the class), a wire
  of bytes cut anywhere, and two sessions with any number of streams under arbitrary interleaving.
  `Yamux` states the results for every run, by projecting the link onto one `Duplex` pair per stream id;
  `Lives` follows what each handle emits over a run, `Progress` which polls it owes, `Releases` whether its
  session hears of its end. `SessionLaws`: what a session answers, told from its fields.

**The WebSocket carrier** (`WebSocket`, `WebSocketForms`, `Pumps`, `Carriers`): parser and printer, masking, reassembly, and
the two byte streams that the reader and writer pumps of two sides carry together.

**The lane pool** (`Lanes`, `LanePools`, `Boards`, `LaneAccounts`, `LaneRecords`): scoring, selection, reservation and
pruning, and the agreement of lane counters, metered streams and published snapshot over runs.

**The limiter** (`Limits`, `Quotas`), **HTTP dates** (`Calendar`) and **the DNS cache** (`Dns`).

Operations that the source performs by updating fields are class methods whose postcondition ties the
new state to a function of the old one; the properties are proved about those functions.

## Hypotheses

- The link runs up to the first GoAway: the application does not shut a session down and the transport
  does not fail. `NoProtocolError` proves that no GoAway arises otherwise. Queued frames are dropped at
  session.rs:214, 272 and 592, and the rest of a batch at session.rs:480 and 493.
- `NoLostWakeUp` is about a stream that flows; `WriterIsLostIff` takes a writer beyond FIN and RST, in runs
  that meet no protocol error, which `NoProtocolError` excludes between two sessions. A locally closed stream
  still drains, so its reader stays covered; its writer is done.
- A woken reader or writer polls again. `NoLostWakeUp` says who owes the poll.
- Losing the frame channel moves even `LocalClosing` to `RemoteClosing` (`LostChannelSendsSecondFin`);
  `EveryStreamIsOrderly` proves that between two sessions this never leads to a second FIN.
- The link's keepalive steps leave out the tick that ends a session because a ping timed out.
- `LocalClosing` plus a FIN from the peer reaches `Closed` without a `Closed` event; `SessionHearsIff` says
  exactly which handles notify their session.
- `TerminalDelivery` excludes a poll that meets a protocol error, and a close of a stream that is already
  locally closed or reset where that cuts the read side short: `SecondCloseIsHarmlessIff` has the exact
  condition, and harmless second closes are included.
- Configured windows are at least the initial window, as session.rs:145 asserts.
- Lane accounting treats each poll and each record as one step and assumes that no counter reaches
  u64::MAX; reservations balance below the bound of `LowerLoadWins`, and lanes may be locked while another
  open selects.
- Limiter time and delays are real numbers.

## Findings

| what | member | source |
|---|---|---|
| a second close of a locally closed stream loses bytes the peer sent before its FIN | `Delivery.SecondCloseTruncates`, exact condition `Delivery.SecondCloseIsHarmlessIff` | crates/tokio-yamux/src/stream.rs:115-119 |
| closing a stream that was reset reports end of file in place of the reset | `Delivery.CloseHidesReset`, exact condition `Delivery.SecondCloseIsHarmlessIff` | crates/tokio-yamux/src/stream.rs:109-113 |
| behind the peer's FIN no window update is applied any more: a writer that has used up its window sleeps for good, and the credit a reading peer sends stays in the channel | `Starvation.FinStarvesTheWriter`, exact condition `Starvation.WriterIsLostIff`, whole runs `Starvation.NoCreditAfterFin` | crates/tokio-yamux/src/stream.rs:288-291 |
| a stream closed here first and then by the peer is dropped without a notice: its session keeps the table entry until another frame of the stream arrives | `Releases.SecondFinIsSilent`, exact condition `Releases.SessionHearsIff`, whole runs `Releases.UnheardStays` | crates/tokio-yamux/src/stream.rs:195-198 |
| a DATA frame with RST wakes the reader only: a parked writer is never told that the stream is gone | `Starvation.ResetStrandsTheWriter`, exact condition `Starvation.ResetLosesWriterIff` | crates/tokio-yamux/src/stream.rs:263-282 |
| an application that ends its output first loses what the peer writes after replying to the close | `Carriers.HalfCloseLosesBytes`, exact condition `Carriers.CarriersDeliver` | crates/espejismo-core/src/underlay.rs:268-273 |
| a lane whose health is locked at selection is passed over, and the loads drift apart | `Lanes.LockedLaneTipsTheBalance`, exact condition `Lanes.ReservationsStayWithinOneIff` | crates/espejismo-client/src/tunnel.rs:734-739 |
| lane scores that reach the top of u64 stop balancing | `Lanes.SaturatedScoresPileUp`, exact condition `Lanes.LowerLoadWins` | crates/espejismo-client/src/tunnel.rs:759-764 |
| a quota of u64::MAX is never enforced, because the running sum saturates at it | `Limits.MaxQuotaLeaks`, exact condition `Limits.QuotaHoldsIffBelowMax` | crates/espejismo-server/src/limits.rs:71-77 |
| an insertion with a zero time to live into a full cache evicts a live entry | `Dns.ZeroTtlEvictsLiveEntry`, exact condition `Dns.AgreesThroughoutIff` | crates/espejismo-core/src/dns.rs:61-74 |
| dates outside the 32-bit years wrap | `Calendar.CivilIsExactIff`, `Calendar.HttpDateReadsBackIff` | crates/espejismo-server/src/fallback.rs:217-217 |

## Model

| member | source | states |
|---|---|---|
| `Yamux.CreditConservation` | crates/tokio-yamux/src/stream.rs:149-169 | in every run of two sessions with any number of streams, for each stream both sides know and for each direction: send window + DATA bytes in flight anywhere + credit in flight anywhere is at most the receiver's receive window, and equals it while both sessions still route the stream |
| `Yamux.ByteStreamFidelity` | crates/tokio-yamux/src/session.rs:387-562 | in every run, bytes read on one side are a prefix of bytes written on the other, through event queue, write queue, codec, distribution, channel and read buffer; while the reading session routes the stream, the remainder is exactly what is buffered or in flight, in order |
| `Yamux.NoProtocolError` | crates/tokio-yamux/src/stream.rs:249-282 | between two conforming sessions no poll reports `InvalidData` or asks for a GoAway (so `RecvWindowExceeded`, send-window overflow and unexpected flags are unreachable), no session sends or receives a GoAway, no distribution returns early, no frame is rejected by the codec |
| `Yamux.WriterCanProceed` | crates/tokio-yamux/src/stream.rs:505-519 | no window deadlock in any run: with nothing buffered and nothing in flight in either direction, the writer's send window exceeds half of the peer's maximum |
| `Yamux.StreamIdsNeverCollide` | crates/tokio-yamux/src/session.rs:353-370 | in every run an id issued by a session has its role's parity, exceeds every id it issued before and is unknown to both sides, so `DuplicateStream` is unreachable; opening succeeds exactly while the next id fits in u32 |
| `Yamux.InvalidDataMeansGoAway` | crates/tokio-yamux/src/stream.rs:534-541 | a poll that fails with `InvalidData` has asked its session for a GoAway |
| `Yamux.DropIsTold` | crates/tokio-yamux/src/stream.rs:717-747 | in every run and on both sides: once a handle was dropped in `Init`, `SynSent`, `SynReceived`, `Established` or `RemoteClosing`, the last frame of its stream on the way to the peer is a reset, or the peer has had the stream and no longer routes it |
| `Yamux.BacklogIsBounded` | crates/tokio-yamux/src/session.rs:482-505 | in every run each side holds at most its configured number of streams waiting to be accepted |
| `Releases.SessionHearsIff` | crates/tokio-yamux/src/stream.rs:94-121 | over every life of a handle: its session is told that it is gone, except exactly when it was dropped in state `Closed` and never closed again by the application |
| `Releases.SecondFinIsSilent` | crates/tokio-yamux/src/stream.rs:195-198 | the exception: close, read the FIN of the peer, drop; no notice is sent |
| `Releases.DropReachesTheSession` | crates/tokio-yamux/src/stream.rs:717-747 | in every run and on both sides: a session that still routes a stream whose handle was dropped has the notice in its queue, unless the handle was dropped in state `Closed` |
| `Releases.NoticeReleases` | crates/tokio-yamux/src/session.rs:634-648 | handling the notice takes that stream, and nothing else, out of the table |
| `Releases.UnheardStays` | crates/tokio-yamux/src/session.rs:449-555 | a routed stream whose handle went without notice stays in the table through every step of its side except the arrival of another of its frames |
| `Links.MoveInv` | crates/tokio-yamux/src/session.rs:634-649 | every step of a session or its application (open, poll, drop, accept, event, transmit, feed, decode, sort one frame, keepalive) keeps the link invariant: for every stream id the projected pair satisfies the one-stream invariant |
| `Links.RunInv` | crates/tokio-yamux/src/session.rs:702-760 | the link invariant holds after every interleaving of moves of both sides |
| `Links.NewLinkInv` | crates/tokio-yamux/src/session.rs:144-195 | a new client and a new server satisfy the link invariant |
| `Wires.SendAppends` | crates/tokio-yamux/src/session.rs:425-431 | encoding a frame onto the wire appends it to the frames in flight |
| `Wires.FeedMovesNothing` | crates/tokio-yamux/src/frame.rs:265-334 | moving any number of bytes into the codec's buffer leaves the frames in flight unchanged |
| `Wires.DecodePops` | crates/tokio-yamux/src/frame.rs:265-334 | a decode step on a wire of well-formed frames never fails and takes exactly the first frame in flight, or nothing if it is not there in full |
| `Duplex.StepInv` | crates/tokio-yamux/src/stream.rs:597-747 | one stream, two ends, two pipes: every step (open, accept, reject, any poll, drop, deliver, discard, detach) keeps credit conservation, byte order, SYN discipline, well-kept windows and the reset owed by a dropped handle |
| `Duplex.NoWindowDeadlock` | crates/tokio-yamux/src/stream.rs:149-169 | in every state within the invariant, an empty receive buffer and empty pipes imply that the peer's send window is more than half of the maximum |
| `Duplex.InvHealthy` | crates/tokio-yamux/src/stream.rs:505-519 | within the invariant unadvertised credit c satisfies 0 <= 2c < max while the stream accepts data, so the credit computation never errors |
| `Accounting.PollBalanced` | crates/tokio-yamux/src/stream.rs:526-747 | every poll by an application keeps the books of a stream: what it takes from the read side, gives to the write side, emits and credits adds up against both windows and the buffered bytes |
| `Accounting.PollReadBalanced` | crates/tokio-yamux/src/stream.rs:526-594 | a read consumes exactly the bytes it returns from the unread bytes and advertises exactly the credit it emits |
| `Accounting.PollWriteBalanced` | crates/tokio-yamux/src/stream.rs:598-702 | a write takes exactly the accepted bytes off the send window and emits exactly them |
| `Accounting.ShutdownBalanced` | crates/tokio-yamux/src/stream.rs:94-121 | closing moves no credit and no payload |
| `Accounting.CreatedBalanced` | crates/tokio-yamux/src/session.rs:371-382 | a session-created stream announces the difference between its maximum and the initial window at once, with SYN or ACK |
| `Accounting.CopyOutIsTake` | crates/tokio-yamux/src/stream.rs:552-572 | the copy loop returns the first `room` bytes of the flattened buffer, leaves exactly the others and no empty chunk |
| `Accounting.PeekIsReadWithoutConsuming` | crates/tokio-yamux/src/stream.rs:446-492 | peek returns exactly the bytes the read would return, from the same outcome, and consumes none of them |
| `Accounting.DropBalanced` | crates/tokio-yamux/src/stream.rs:717-747 | dropping a handle emits no payload and no credit |
| `WakeUps.NoLostWakeUp` | crates/tokio-yamux/src/stream.rs:284-421 | in every run of polls by arbitrary tasks, while the stream flows and a writer is parked: credit means the writer was woken, an unprocessed frame means a poll is owed by the writer or the recorded reader, and an empty queue means the next frame or disconnection makes one owed; `WriterIsLostIff` goes on behind FIN and RST |
| `WakeUps.OwedReadServesWriter` | crates/tokio-yamux/src/stream.rs:526-551 | the owed read processes every queued frame, hands arrived credit to the parked writer and leaves its own task in the channel's waker slot |
| `Starvation.WriterIsLostIff` | crates/tokio-yamux/src/stream.rs:284-421 | in every run of a new stream that meets no protocol error, behind FIN and RST too: a writer parked on an ended stream has been woken, at every moment, if and only if no poll of the run is a stranding one; and a recorded reader of a locally closed stream owes a poll or is in the waker slot |
| `Starvation.LostIff` | crates/tokio-yamux/src/stream.rs:284-421 | the same for one step, on what the poll finds: a reader that drains the end of the stream past a sleeping writer with no window update before it, or a writer that parks on a zero window behind a FIN |
| `Starvation.ResetLosesWriterIff` | crates/tokio-yamux/src/stream.rs:263-282 | a reader's poll leaves a sleeping writer asleep on a reset stream if and only if the first frame that ends the stream is DATA with RST and no window update stands before it |
| `Starvation.ResetStrandsTheWriter` | crates/tokio-yamux/src/stream.rs:263-282 | a run of four steps that ends so: reset, writer parked, queue empty, nobody owing a poll |
| `Starvation.LostForGood` | crates/tokio-yamux/src/stream.rs:284-349 | no frame, read or disconnection ever wakes a lost writer |
| `Starvation.NoCreditAfterFin` | crates/tokio-yamux/src/stream.rs:288-291 | in every run behind a FIN without a local close: the stream stays half-closed, the bytes accepted from writers come off the window held at the FIN to the byte, and every arriving frame stays in the channel |
| `Starvation.WriteAfterFin` | crates/tokio-yamux/src/stream.rs:598-702 | a write behind a FIN is pending if and only if the window is zero, and otherwise takes what fits off the window |
| `Starvation.FinStarvesTheWriter` | crates/tokio-yamux/src/stream.rs:288-291 | a peer that half-closes and keeps reading: its credit stays in the channel, the writer stays parked and nobody owes a poll, also after the loss of the channel |
| `Starvation.ConformingResetsAreHeard` | crates/tokio-yamux/src/stream.rs:717-747 | a peer that sends its resets on window updates, as this code does, leaves no writer asleep on a reset stream |
| `Progress.WritersProgress` | crates/tokio-yamux/src/session.rs:449-555 | in every run of two sessions and on both sides, every live handle is watched with its debts; a writer parked on a reset stream has been woken; and on a flowing stream whose peer has read everything, with nothing under way, a parked writer has been woken, so with no debts outstanding none is parked |
| `Lifecycle.StreamLifecycle` | crates/tokio-yamux/src/stream.rs:94-121 | over every run with a session that drops its sender only behind a delivered reset or once the stream is done, including the final drop: only the first frame carries SYN (opener) or ACK (acceptor), at most one FIN is sent, only flagless window updates follow it, and an RST only comes last |
| `Lives.EveryStreamIsOrderly` | crates/tokio-yamux/src/session.rs:449-555 | the same for every stream on both sides of every run of two sessions, with no hypothesis on when a sender is dropped |
| `Lives.MoveLife` | crates/tokio-yamux/src/session.rs:545-551 | every move of a session or application keeps it: a sender is dropped only for a stream that has closed, for a dropped handle, or behind a delivered reset |
| `Lifecycle.LostChannelSendsSecondFin` | crates/tokio-yamux/src/stream.rs:298-311 | what that order protects from: a handle in `LocalClosing` whose channel were lost without a reset would send a second FIN; `EveryStreamIsOrderly` shows that no run gets there |
| `Lifecycle.HeldStreamIsOrderly` | crates/tokio-yamux/src/stream.rs:94-121 | while the session keeps its sender the same order holds against any frames a peer may send, protocol errors included |
| `Delivery.TerminalDelivery` | crates/tokio-yamux/src/stream.rs:184-212 | for every frame sequence and every series of reads: the reader holds a prefix of the payload before an RST, or up to and including a FIN frame; its next read returns the rest of it up to its room, or, once it has all, ConnectionReset exactly after RST, end of file exactly after FIN or loss of the channel, Pending exactly while open |
| `Answers.WriteAnswers` | crates/tokio-yamux/src/stream.rs:598-702 | every write on a live stream, by the state and the window its queued frames lead to: broken pipe exactly in `LocalClosing`, `Closed` and `Reset`; pending exactly on a zero window otherwise; else the bytes up to the window are accepted, one DATA frame with exactly these bytes and the opening flag is sent, and the window shrinks by them |
| `Answers.DrainLandsThere` | crates/tokio-yamux/src/stream.rs:284-349 | handling the queue leads to the state told by its first FIN or RST, by an acknowledgement and by the loss of the channel, and adds exactly the credit up to that frame |
| `Answers.ReadAnswersOpen` | crates/tokio-yamux/src/stream.rs:526-595 | every read of a live stream that stays open returns all unread bytes up to its room, is pending exactly when there are none, and announces the freed credit exactly when it is half a window or the stream has not announced itself |
| `Answers.EndedReadsAreSilent` | crates/tokio-yamux/src/stream.rs:583-590 | a read of a stream that has ended, or that its queued frames end, sends nothing |
| `Answers.WriteTellsReader` | crates/tokio-yamux/src/stream.rs:351-422 | a write that drains the channel wakes the parked reader exactly when the stream has ended for it or new payload is buffered, clears its registration then, and wakes nobody else but the parked writer |
| `Answers.ProtocolErrorsEndTheSession` | crates/tokio-yamux/src/stream.rs:534-541 | for arbitrary frames: a read, peek or write asks for a GoAway exactly when the queue breaks the protocol; then the read side reports `InvalidData`, the write side a broken pipe, and the stream is closed for writing |
| `Answers.DrainFailsIff` | crates/tokio-yamux/src/stream.rs:249-282 | the queue breaks the protocol exactly when a frame before the end of the stream carries more data than the window has left, more credit than a window holds, or is not a stream frame |
| `Streams.ShutdownShape` | crates/tokio-yamux/src/stream.rs:94-121 | one close: a zero update with FIN and no opening flag while the stream is open for writing or half-closed by the peer, the closing notice behind it or alone otherwise, and where the state goes |
| `Answers.DropTells` | crates/tokio-yamux/src/stream.rs:717-747 | one drop: a zero update with RST and the opening flag in five states, none in `LocalClosing`, `Reset` and `Closed`; the closing notice last, except in `Closed` |
| `Delivery.SecondCloseTruncates` | crates/tokio-yamux/src/stream.rs:115-119 | closing twice cuts the read side: queued bytes stay unread and the next read reports end of file |
| `Delivery.CloseHidesReset` | crates/tokio-yamux/src/stream.rs:109-113 | closing a reset stream turns ConnectionReset into end of file |
| `Delivery.SecondCloseIsHarmlessIff` | crates/tokio-yamux/src/stream.rs:106-119 | closing again keeps the reader's books exactly when the queue holds no more payload and already ends in FIN or a lost channel |
| `Sessions.DistributionKeepsOrder` | crates/tokio-yamux/src/session.rs:449-555 | for every batch and every pattern of channel answers, without early return or removed stream: frames delivered to a stream followed by frames queued back for it equal the frames that waited for it, in order |
| `Sessions.LiveStreamIsKept` | crates/tokio-yamux/src/session.rs:470-540 | the condition on the inputs alone under which nothing of a stream is lost: SYNs name new streams, its channel is not disconnected, a reset comes last |
| `Sessions.DistributePreservesStreams` | crates/tokio-yamux/src/session.rs:449-555 | one whole call keeps content and order of every live stream, whatever happens to the others |
| `Sessions.OnePingOutstanding` | crates/tokio-yamux/src/session.rs:324-350 | a keepalive tick never leaves more than one ping outstanding, and its acknowledgement leaves none |
| `SessionLaws.SynAdmission` | crates/tokio-yamux/src/session.rs:482-505 | an unblocked SYN for a new stream, without a local goodbye, creates one exactly while the table is below `max_stream_count` and the backlog below `accept_backlog`; otherwise table and backlog stay and exactly one zero update with ACK and RST is queued |
| `SessionLaws.SynRefusedOtherwise` | crates/tokio-yamux/src/session.rs:470-496 | after a local goodbye a SYN is answered with RST, and a SYN for a known stream within the limits with a protocol-error GoAway; only these end the batch |
| `SessionLaws.BirthIsAcknowledged` | crates/tokio-yamux/src/session.rs:353-384 | a stream created by a SYN announces its whole window with ACK |
| `SessionLaws.FrameRouting` | crates/tokio-yamux/src/session.rs:506-552 | any other frame is delivered, kept back or lost exactly by the answer of its channel; a delivered reset and a vanished receiver end the routing, nothing else changes |
| `SessionLaws.DistributeReaches` | crates/tokio-yamux/src/session.rs:449-555 | a stream whose channel takes its frames has received, after one call, all that waited for it, whatever happens to the other streams |
| `SessionLaws.OpenAnswers` | crates/tokio-yamux/src/session.rs:286-300 | a stream is opened exactly while the session lives, the peer has not said goodbye and identifiers are left; it takes the next identifier and announces itself with SYN |
| `SessionLaws.ProbeIsEchoed` | crates/tokio-yamux/src/session.rs:242-254 | a keepalive tick queues one ping, the peer echoes its number, and the echo leaves no ping outstanding |
| `SessionLaws.SilenceEndsTheSession` | crates/tokio-yamux/src/session.rs:324-350 | an unanswered ping ends the session at the first tick more than thirty seconds later and not before |
| `SessionLaws.GoAwayHandshake` | crates/tokio-yamux/src/session.rs:589-612 | a goodbye replaces what is queued, is answered by one goodbye, and finishes both sides without a third |
| `SessionLaws.OneGoodbyeFromTheStart` | crates/tokio-yamux/src/session.rs:260-275 | over every sequence of session steps at most one GoAway is handed to the transport |
| `Frames.DecodeIsChunkingIndependent` | crates/tokio-yamux/src/frame.rs:265-352 | for every list of frames within the limit and every split of their encoding into chunks, repeated decoding with the retained header yields exactly the list and leaves no bytes |
| `Frames.ChunkingInvariance` | crates/tokio-yamux/src/frame.rs:265-334 | for arbitrary bytes, malformed ones included, decoding chunk by chunk gives the frames, the error and the leftover of decoding the concatenation at once |
| `Frames.DecodeAllIsParse` | crates/tokio-yamux/src/frame.rs:265-334 | the decoder with its retained header refines a parser that has no state |
| `Frames.HeaderRoundTrip` | crates/tokio-yamux/src/frame.rs:338-352 | a written header is read back |
| `Frames.HeaderCanonical` | crates/tokio-yamux/src/frame.rs:265-300 | an accepted header re-encodes to exactly the bytes it was read from |
| `FrameForms.HeaderOnTheWire` | crates/tokio-yamux/src/frame.rs:338-352 | a header is twelve bytes: version, type code, flags with SYN, ACK, FIN and RST as bits 0 to 3, stream and length in network order |
| `FrameForms.HeaderTaken` | crates/tokio-yamux/src/frame.rs:265-300 | twelve bytes are accepted exactly when they hold version 0, a type up to 3 and, for DATA, a length within the limit; the fields are those of the layout, and the first failed check names the error |
| `FrameForms.ConstructorsOnTheWire` | crates/tokio-yamux/src/frame.rs:22-76 | the bytes of DATA, opening, closing and refusing window updates, pings and GoAway |
| `Frames.ParseEncodeAll` | crates/tokio-yamux/src/frame.rs:338-352 | parsing the encoding of a list of frames gives the list and no rest |
| `Frames.FrameCodec.Decode` | crates/tokio-yamux/src/frame.rs:265-334 | the imperative decoder performs exactly one step of the specified decoder on the buffer it is given |
| `Frames.FrameCodec.EncodeFrame` | crates/tokio-yamux/src/frame.rs:338-352 | the imperative encoder appends exactly the encoding of the frame |
| `StreamHandles.StreamHandle.GetFlags` | crates/tokio-yamux/src/stream.rs:214-226 | returns the opening flag once and moves the state accordingly |
| `StreamHandles.StreamHandle.ReceiveCreditDelta` | crates/tokio-yamux/src/stream.rs:505-519 | the summing loop yields the credit, or none exactly when a sum overflows u32 or exceeds the maximum |
| `StreamHandles.StreamHandle.SendWindowUpdate` | crates/tokio-yamux/src/stream.rs:149-169 | refines the value model, including the half-window threshold and the failed send |
| `StreamHandles.StreamHandle.ProcessFlags` | crates/tokio-yamux/src/stream.rs:184-212 | refines the flag transition, unexpected FIN included |
| `StreamHandles.StreamHandle.HandleWindowUpdate` | crates/tokio-yamux/src/stream.rs:249-261 | adds credit with overflow check and wakes the parked writer |
| `StreamHandles.StreamHandle.HandleData` | crates/tokio-yamux/src/stream.rs:263-282 | checks the receive window, drops the payload of a reset, takes the window down |
| `StreamHandles.StreamHandle.DrainFrames` | crates/tokio-yamux/src/stream.rs:284-349 | the drain loop refines the recursive drain, with the waker slot |
| `StreamHandles.StreamHandle.DrainForWriter` | crates/tokio-yamux/src/stream.rs:351-421 | wakes the parked reader exactly when the buffer changed or the peer closed |
| `StreamHandles.StreamHandle.CheckSelfState` | crates/tokio-yamux/src/stream.rs:424-442 | end of file and reset are reported only on an empty buffer |
| `StreamHandles.StreamHandle.AwaitBytes` | crates/tokio-yamux/src/stream.rs:531-551 | the common part of read and peek |
| `StreamHandles.StreamHandle.CopyOut` | crates/tokio-yamux/src/stream.rs:552-572 | the copy loop over the chunks, in place, refines the take on values |
| `StreamHandles.StreamHandle.PeekOut` | crates/tokio-yamux/src/stream.rs:471-481 | the peek loop returns the same bytes and changes nothing |
| `StreamHandles.StreamHandle.PollRead` | crates/tokio-yamux/src/stream.rs:526-594 | new state, events, wake-ups, bytes and outcome are those of the value model |
| `StreamHandles.StreamHandle.PollPeek` | crates/tokio-yamux/src/stream.rs:446-492 | new state, wake-ups, bytes and outcome are those of the value model |
| `StreamHandles.StreamHandle.ParkAndRedrain` | crates/tokio-yamux/src/stream.rs:646-682 | parking on a zero window with the second drain refines the value model |
| `StreamHandles.StreamHandle.PollWrite` | crates/tokio-yamux/src/stream.rs:598-702 | new state, events, wake-ups, accepted bytes and outcome are those of the value model, which `Answers.WriteAnswers` gives in terms of the queue |
| `StreamHandles.StreamHandle.PollShutdown` | crates/tokio-yamux/src/stream.rs:94-121 | closing in each of the eight states refines the value model |
| `StreamHandles.StreamHandle.Drop` | crates/tokio-yamux/src/stream.rs:717-747 | the events sent on drop are those of the value model, which `Answers.DropTells` lists |
| `SessionObjects.SessionObject.OpenStream` | crates/tokio-yamux/src/session.rs:286-295 | id allocation, error cases and the announced window are those of the value model |
| `SessionObjects.SessionObject.CreateStream` | crates/tokio-yamux/src/session.rs:353-382 | registers the stream unless its id exists |
| `SessionObjects.SessionObject.SendAll` | crates/tokio-yamux/src/session.rs:387-414 | frames leave in order while the transport takes them; sent followed by pending is what was pending; a dead session drops one frame |
| `SessionObjects.SessionObject.SendGoAwayWithCode` | crates/tokio-yamux/src/session.rs:260-283 | at most one GoAway, which replaces everything queued |
| `SessionObjects.SessionObject.DistributeToSubstream` | crates/tokio-yamux/src/session.rs:449-555 | the loop over the pending frames with its set of blocked streams refines the value model, early returns included |
| `SessionObjects.SessionObject.SortFrame` | crates/tokio-yamux/src/session.rs:459-550 | one frame: SYN handling, backlog and stream limits, then the offer to its channel, with the outcomes of `SessionLaws.SynAdmission`, `SynRefusedOtherwise` and `FrameRouting` |
| `SessionObjects.SessionObject.Offer` | crates/tokio-yamux/src/session.rs:506-551 | delivery, requeue or removal by the answer of the channel |
| `SessionObjects.SessionObject.HandlePing` | crates/tokio-yamux/src/session.rs:564-587 | answers a probe; an acknowledgement discards all ids up to it |
| `SessionObjects.SessionObject.KeepAlive` | crates/tokio-yamux/src/session.rs:324-350 | times out on an old ping, sends none while one is outstanding |
| `SessionObjects.SessionObject.HandleGoAway` | crates/tokio-yamux/src/session.rs:589-610 | drops queued frames and answers with a GoAway unless one was sent |
| `SessionObjects.SessionObject.HandleEvent` | crates/tokio-yamux/src/session.rs:634-649 | queues a frame, removes a stream or starts a GoAway |
| `WebSocket.WriteThenRead` | crates/espejismo-core/src/underlay.rs:415-558 | for every role, mask and payload within the limit, reading a written data, ping or close frame gives the same kind and payload and leaves exactly the bytes behind it |
| `WebSocket.ReadThenWrite` | crates/espejismo-core/src/underlay.rs:415-558 | every accepted unfragmented data, ping or close frame, written again with the mask it carried, is exactly the bytes consumed |
| `WebSocket.RawRoundTrip` | crates/espejismo-core/src/underlay.rs:415-465 | a printed frame of any opcode, fragmented or not, is parsed back |
| `WebSocket.RawCanonical` | crates/espejismo-core/src/underlay.rs:415-465 | every frame the parser accepts is the one printing of its contents: minimal length, right mask bit, no reserved bits |
| `WebSocket.MaskTwice` | crates/espejismo-core/src/underlay.rs:509-513 | masking twice is the identity |
| `WebSocket.ApplyMask` | crates/espejismo-core/src/underlay.rs:509-513 | the in-place loop masks byte i with key byte i mod 4 |
| `WebSocketForms.XorIsExclusiveOr` | crates/espejismo-core/src/underlay.rs:509-513 | a bit of the masked byte is set exactly where the bits of byte and key differ |
| `WebSocketForms.MaskedBits` | crates/espejismo-core/src/underlay.rs:509-513 | byte i of a masked payload differs from the payload in exactly the bits of key byte i mod 4 |
| `WebSocketForms.ZeroKeyChangesNothing` | crates/espejismo-core/src/underlay.rs:509-513 | a zero key masks nothing |
| `WebSocketForms.PrintForm` | crates/espejismo-core/src/underlay.rs:519-566 | a written frame has the layout of section 5.2 of RFC 6455: FIN and opcode, mask bit and length in 7, 16 or 64 bits in network order, key, payload with the bits of the key turned over |
| `WebSocketForms.ReadsExactly` | crates/espejismo-core/src/underlay.rs:415-480 | the parser returns a frame and a rest exactly when the input is the printing of that frame followed by that rest and the frame passes the length, control and mask rules |
| `WebSocketForms.FramesUnderstood` | crates/espejismo-core/src/underlay.rs:480-507 | of well-formed frames exactly continuation, binary, ping, pong and valid closes are taken, with opcode and payload kept; a close is valid when it is empty or carries a permitted code and a valid reason |
| `WebSocket.WriteWsFrame` | crates/espejismo-core/src/underlay.rs:519-558 | building the header and masking a copy in place gives the specified bytes |
| `WebSocket.WsReader.ReadWsFrame` | crates/espejismo-core/src/underlay.rs:415-503 | the reader accepts, refuses for the same reason, and consumes exactly what the specification says |
| `Pumps.ReassemblyDeliversMessages` | crates/espejismo-core/src/underlay.rs:229-288 | over every frame sequence the application gets exactly the complete messages before the first illegal frame, in order; interleaved pings and pongs change nothing and a partial message never leaks |
| `Pumps.PartialStaysBounded` | crates/espejismo-core/src/underlay.rs:239-257 | the partial message never exceeds the limit |
| `Pumps.PingsAreInvisible` | crates/espejismo-core/src/underlay.rs:229-274 | a run with interleaved pings and pongs ends with the data, the partial message and the end state of the run without them |
| `Pumps.PingsAreAnsweredInOrder` | crates/espejismo-core/src/underlay.rs:258-273 | every ping is answered once, with its payload, in order, until the pump ends |
| `Pumps.PumpsCompose` | crates/espejismo-core/src/underlay.rs:229-314 | what one role writes and the other reads arrives in order up to the first close, for all masks, chunks and interleaved pongs |
| `Pumps.ByteStreamIdentityIff` | crates/espejismo-core/src/underlay.rs:217-314 | for everything one side can put on the wire, chunks, pongs and closes in any order, the other application gets a prefix of what was written, and all of it if and only if nothing non-empty is written behind a close |
| `Pumps.ChunkBehindCloseIsLost` | crates/espejismo-core/src/underlay.rs:268-273 | a chunk behind a close reply never arrives |
| `Pumps.WriterPump` | crates/espejismo-core/src/underlay.rs:289-314 | the writer loop cuts its input into non-empty chunks within buffer and frame limit and ends with a close |
| `Pumps.ReaderPump.Handle` | crates/espejismo-core/src/underlay.rs:231-283 | one frame updates partial message, application bytes, replies and end as specified |
| `Pumps.ReaderPump.Run` | crates/espejismo-core/src/underlay.rs:228-288 | the reader loop ends, in the state the specification gives |
| `Carriers.CarriersDeliver` | crates/espejismo-core/src/underlay.rs:217-314 | two sides, each with a reader pump whose replies share the wire of its writer pump, in every run and both directions: an application has read a prefix of what the other wrote; once read up, all of it if and only if the other wrote nothing behind a close; and only a side that ended its own output can miss anything |
| `Carriers.HalfCloseLosesBytes` | crates/espejismo-core/src/underlay.rs:268-273 | a run of four steps in which the side that closed first loses what the other wrote after replying |
| `Carriers.ReaderIsNeverStuck` | crates/espejismo-core/src/underlay.rs:229-231 | a reader pump that has not ended can take whatever is on its wire |
| `Carriers.StepInv` | crates/espejismo-core/src/underlay.rs:217-314 | every step of either pump keeps the books of both directions |
| `Lanes.ScoreIsTotal` | crates/espejismo-client/src/tunnel.rs:741-764 | the chain of saturating operations is one sum, saturated at the top, less the credit, saturated at zero; the credit is at most half a unit of load |
| `LaneRecords.RoundTripIsMean` | crates/espejismo-client/src/tunnel.rs:766-780 | the round trip in a score is the mean of the samples, rounded down |
| `LaneRecords.FailuresWeighAsShare` | crates/espejismo-client/src/tunnel.rs:741-764 | failures weigh as the share of failed opens |
| `LaneRecords.ThroughputIsCredited` | crates/espejismo-client/src/tunnel.rs:741-764 | one point per kilobit per second in both directions together, up to half a unit of load |
| `LaneRecords.DelaysWeigh` | crates/espejismo-client/src/tunnel.rs:741-764 | a second of round trip and ten seconds of open latency each weigh one stream, a standing error five hundred |
| `LaneRecords.OneChoice` | crates/espejismo-client/src/tunnel.rs:709-732 | with lanes there is exactly one selection, of the wanted kind if any lane is |
| `LaneRecords.HealthIsHistory` | crates/espejismo-client/src/tunnel.rs:586-690 | over every run of a new pool the health of a lane holds the number of its opens and failures, its last sixteen round trips, the latency of its last open, whether an error is the last news of it, and when it was last heard of |
| `LaneRecords.PrunedAfterFiveMinutes` | crates/espejismo-client/src/tunnel.rs:691-707 | over every run a lane qualifies for pruning exactly above the minimum, without streams and reservations, and five minutes after the last step on it |
| `LaneRecords.RateIsBitsOverTime` | crates/espejismo-client/src/tunnel.rs:793-799 | the rate of a finished stream is its bits over its seconds, rounded down |
| `LaneRecords.RateFollowsSamples` | crates/espejismo-client/src/tunnel.rs:801-808 | the running rate takes a quarter of each new sample, stays between the two and is at rest on a steady one |
| `Lanes.LowerLoadWins` | crates/espejismo-client/src/tunnel.rs:741-764 | a less loaded lane beats a more loaded one for all throughput credits if and only if its unsaturated score is more than half a unit of load below u64::MAX |
| `Lanes.ErrorCostsFiveHundredStreams` | crates/espejismo-client/src/tunnel.rs:741-764 | between lanes alike except for a standing error, the healthy one is preferred for all throughput credits if and only if it carries at most 499 streams more |
| `Lanes.FailuresCostTwoHundredStreams` | crates/espejismo-client/src/tunnel.rs:745-749 | past failures weigh at most two hundred streams, that much exactly when no open ever succeeded, and nothing without failures |
| `Lanes.ReservationsStayWithinOneIff` | crates/espejismo-client/src/tunnel.rs:709-739 | any number of reservations of either kind, with any lanes locked at each selection: the loads of otherwise equal lanes of one kind stay within one after every reservation if and only if every selection is even: while an idle lane is taken some least loaded lane is idle, otherwise the first locked lane is least loaded |
| `Lanes.OneReservation` | crates/espejismo-client/src/tunnel.rs:709-739 | the same for one reservation: the exact condition on the lanes, the locked set and the wanted kind |
| `Lanes.UnlockedRunsAreEven` | crates/espejismo-client/src/tunnel.rs:709-739 | when no selection meets a locked lane of the kind, every selection is even, so the loads stay within one |
| `Lanes.LockedLaneTipsTheBalance` | crates/espejismo-client/src/tunnel.rs:734-739 | the input that breaks the balance: loads 0 and 1, the first lane locked, the second taken, loads two apart |
| `Lanes.PendingWithinOneIff` | crates/espejismo-client/src/tunnel.rs:709-739 | in particular the pending counts of lanes with nothing pending and equal active counts stay within one throughout if and only if every selection is even |
| `Lanes.ChoiceIsLeastLoadedIff` | crates/espejismo-client/src/tunnel.rs:709-739 | selection among otherwise equal lanes, any of them locked, returns a least loaded one if and only if its inputs are even |
| `Lanes.EvenChoiceBelowHalf` | crates/espejismo-client/src/tunnel.rs:734-739 | while scores are below half of u64, even means that a least loaded lane is idle, or that all lanes of the kind are locked and the first is least loaded |
| `Lanes.SaturatedScoresPileUp` | crates/espejismo-client/src/tunnel.rs:759-764 | beyond the bound the balance fails: every reservation goes to the same lane |
| `LanePools.LaneKinds` | crates/espejismo-client/src/tunnel.rs:668-676 | length and kind of every lane in closed form; the first lane is interactive |
| `LanePools.MinByScore` | crates/espejismo-client/src/tunnel.rs:716-728 | the first lane with the least score among those that pass the filter |
| `LanePools.LanePool.constructor` | crates/espejismo-client/src/tunnel.rs:270-327 | a new pool: ids in order, nothing connected or counted, minimum between one and the number of lanes |
| `LanePools.LanePool.SelectAndReserve` | crates/espejismo-client/src/tunnel.rs:709-732 | reserves the first lane of least score among the wanted kind, or among all when there is none of the kind; fails only without lanes |
| `LanePools.LanePool.PruneIdle` | crates/espejismo-client/src/tunnel.rs:354-389 | disconnects only connected lanes without active or pending streams that were idle for 300 seconds when looked at, never goes below the minimum, and if it ends above the minimum leaves no such lane connected |
| `LanePools.LanePool.RecordOpenSuccess` | crates/espejismo-client/src/tunnel.rs:586-596 | one reservation becomes one stream, in the lane and in the snapshot |
| `LanePools.LanePool.ReleaseReservation` | crates/espejismo-client/src/tunnel.rs:608-613 | one reservation ends, in the lane and in the snapshot |
| `LanePools.LanePool.RecordStreamBytes` | crates/espejismo-client/src/tunnel.rs:391-413 | a stream's bytes move from in flight to recorded and its lane loses one active stream; an unknown lane changes nothing |
| `LanePools.LanePool.PublishLane` | crates/espejismo-client/src/tunnel.rs:615-646 | publishes the row of the lane |
| `LanePools.MeteredStream.Meter` | crates/espejismo-client/src/tunnel.rs:209-255 | a poll counts its bytes in the stream, the lane and the snapshot |
| `LaneAccounts.LaneAccountsAgree` | crates/espejismo-client/src/tunnel.rs:209-255 | in every run without u64 overflow: recorded plus in-flight bytes of a lane are the bytes metered by the polls of the run and the bytes of its snapshot row; pending and active counts are the unresolved reservations and unrecorded streams |
| `LaneAccounts.NoSubtractionSaturates` | crates/espejismo-client/src/tunnel.rs:391-413 | in every such run each saturating subtraction takes off what is there |
| `LaneAccounts.PruningSparesLiveLanes` | crates/espejismo-client/src/tunnel.rs:354-389 | in every such run pruning disconnects no lane that has an unresolved reservation or an unrecorded stream |
| `Boards.PublishedLookup` | crates/espejismo-core/src/runtime_state.rs:98-110 | publishing a lane changes its row and no other |
| `Boards.AddedLookup` | crates/espejismo-core/src/runtime_state.rs:112-132 | adding bytes changes the row of a known lane only |
| `Boards.RuntimeState.UpdateTunnelLane` | crates/espejismo-core/src/runtime_state.rs:98-110 | overwrites the row of a known lane or inserts it, keeping the rows sorted by id |
| `Boards.RuntimeState.AddTunnelLaneBytes` | crates/espejismo-core/src/runtime_state.rs:112-132 | adds to the row of the lane, ignores unknown lanes |
| `Limits.BandwidthBound` | crates/espejismo-server/src/limits.rs:80-90 | for accepted chunks i <= j of any run: bytes of chunks i to j-1 are at most the rate times the time between their wake instants |
| `Limits.WorkConserving` | crates/espejismo-server/src/limits.rs:80-90 | no chunk waits longer than needed: its wake is its own arrival, an earlier arrival or the initial backlog, followed without a gap by the bytes accepted since |
| `Limits.QuotaPerWindowAndInterval` | crates/espejismo-server/src/limits.rs:68-78 | for a quota below u64::MAX and a positive window: accepted bytes are at most the quota in each window and at most twice the quota in each half-open interval of one window length |
| `Limits.QuotaHoldsIffBelowMax` | crates/espejismo-server/src/limits.rs:71-77 | the per-window quota holds over all runs if and only if the quota is below u64::MAX |
| `Limits.MaxQuotaLeaks` | crates/espejismo-server/src/limits.rs:71-77 | the counterexample: a quota of u64::MAX accepts twice as much |
| `Limits.QuotaForever` | crates/espejismo-server/src/limits.rs:117-127 | with a zero window the quota bounds the whole run |
| `Quotas.QuotaAnswers` | crates/espejismo-server/src/limits.rs:51-100 | over every run of a fresh account with a quota per window: an open at t is refused exactly when the bytes let through in the window t falls in reach the quota; a transfer exactly when they and its own exceed it and the quota is below u64::MAX; otherwise it panics exactly for a zero rate |
| `Quotas.CounterIsLedger` | crates/espejismo-server/src/limits.rs:117-127 | the counter is the sum, up to saturation, of what was let through since the window began, where windows are told from the times of the calls alone |
| `Quotas.QuotaAnswersForever` | crates/espejismo-server/src/limits.rs:51-100 | with a zero window the same with everything ever let through |
| `Quotas.NoQuotaNeverRefuses` | crates/espejismo-server/src/limits.rs:51-100 | without a quota nothing is refused |
| `Quotas.RegistryQuota` | crates/espejismo-server/src/limits.rs:51-100 | the same for a configured user of a registry with any other users: an open is refused exactly when the log of that user holds the quota for the window of t, and a transfer accepted exactly when that and its bytes fit |
| `Limits.UsersAreIndependent` | crates/espejismo-server/src/limits.rs:103-115 | in a mixed run the account of any user, configured or created on demand, is the one its own calls alone lead to; an unknown user starts without limits at the first call that is not a transfer of zero bytes |
| `Limits.AccountsStartEmpty` | crates/espejismo-server/src/limits.rs:30-49 | a configured user starts with nothing used; the last configuration of a name wins |
| `Limits.UserLimitRegistry.constructor` | crates/espejismo-server/src/limits.rs:30-49 | the map of fresh accounts |
| `Limits.UserLimitRegistry.EnsureOpenFor` | crates/espejismo-server/src/limits.rs:51-61 | refreshes the window and refuses as `Quotas.RegistryQuota` says over whole runs |
| `Limits.UserLimitRegistry.AccountAndThrottle` | crates/espejismo-server/src/limits.rs:63-100 | charges, refuses, plans or panics as specified, and touches only this user |
| `Calendar.CivilSuccessor` | crates/espejismo-server/src/fallback.rs:206-218 | every day number, negative ones included, has a valid Gregorian date, and the next day number the calendar successor under the 4/100/400 rule |
| `Calendar.Epoch` | crates/espejismo-server/src/fallback.rs:206-218 | day 0 is 1 January 1970 |
| `Calendar.DaysOfCivil` | crates/espejismo-server/src/fallback.rs:206-218 | days-from-civil, defined by summing year and month lengths, gives back every day number |
| `Calendar.CivilOfDays` | crates/espejismo-server/src/fallback.rs:206-218 | and every valid date is the date of its day number |
| `Calendar.CivilIsExactIff` | crates/espejismo-server/src/fallback.rs:217-217 | the result with its 32-bit year is right exactly from day -784353015833 to day 784351576776 |
| `Calendar.HttpDateTicks` | crates/espejismo-server/src/fallback.rs:189-204 | HTTP dates run like a clock: day 0 is a Thursday, each second is the tick of the one before, every field is in range |
| `Calendar.HttpDateReadsBackIff` | crates/espejismo-server/src/fallback.rs:189-204 | the printed fields determine the second they were made from exactly while the year fits 32 bits |
| `Dns.HitsAreLatest` | crates/espejismo-core/src/dns.rs:35-75 | over every run and any clock: at most 256 entries, and a hit gives the addresses of the last insertion of its key in the run, within its time to live and one minute of it |
| `Dns.OnlyEarliestEvicted` | crates/espejismo-core/src/dns.rs:61-69 | an insertion drops a live entry only at capacity and for a new key, and then only one that expires earliest |
| `Dns.InsertAgreesIff` | crates/espejismo-core/src/dns.rs:50-75 | an insertion keeps the cache in agreement with the unbounded map if and only if the key is live or fewer than 256 keys are |
| `Dns.CacheIsUnboundedMap` | crates/espejismo-core/src/dns.rs:35-75 | in every run with monotone time in which insertions find room, the cache answers exactly like the unbounded map |
| `Dns.AgreesThroughoutIff` | crates/espejismo-core/src/dns.rs:35-75 | over a whole run with monotone time the cache and the unbounded map agree on every key after every operation if and only if every insertion finds room |
| `Dns.RoomIsAtMostCapacity` | crates/espejismo-core/src/dns.rs:50-75 | for a positive time to live, finding room is the same as at most 256 live keys afterwards |
| `Dns.RoomyIsAtMostCapacity` | crates/espejismo-core/src/dns.rs:50-75 | over a whole monotone run with positive times to live, every insertion finds room if and only if at most 256 keys are live after every operation |
| `Dns.AtMostCapacityIsUnboundedMap` | crates/espejismo-core/src/dns.rs:35-75 | in every monotone run with positive times to live and at most 256 live keys at once the cache answers exactly like the unbounded map |
| `Dns.CacheAnswers` | crates/espejismo-core/src/dns.rs:35-75 | in every such run a lookup gives the addresses last inserted for the key exactly until its time to live or sixty seconds are over, and nothing otherwise |
| `Dns.InsertIsServed` | crates/espejismo-core/src/dns.rs:50-75 | an insertion is served exactly that long, with room or without |
| `Dns.ZeroTtlEvictsLiveEntry` | crates/espejismo-core/src/dns.rs:61-74 | the edge case: with a zero time to live a live entry is lost although at most 256 keys are ever live |
| `Dns.DnsCache.Lookup` | crates/espejismo-core/src/dns.rs:35-44 | answers like the map and removes an expired entry |
| `Dns.DnsCache.Earliest` | crates/espejismo-core/src/dns.rs:62-66 | an earliest-expiring entry |
| `Dns.DnsCache.InsertWithTtl` | crates/espejismo-core/src/dns.rs:50-75 | drops expired entries, evicts when it must, and caps the time to live at 60 seconds |
| `Dns.DistinctKeepsFirsts` | crates/espejismo-core/src/dns.rs:108-120 | the same addresses, each once, ordered by first occurrence |
| `Dns.CollectAddresses` | crates/espejismo-core/src/dns.rs:108-120 | keeps first occurrences in order; an error exactly when there are none |

## Left out

- Delivery.TerminalDelivery: does not cover a poll that meets a protocol error (`Answers.ProtocolErrorsEndTheSession` does), nor a second close outside the harmless case of `SecondCloseIsHarmlessIff`.
- WakeUps.NoLostWakeUp: stops where the stream ends, because there the code can lose the writer; `Starvation.WriterIsLostIff` gives the exact condition.
- Starvation.WriterIsLostIff: does not cover a parked writer after a protocol error, which moves the stream to a local close and starts a GoAway.
- LaneAccounts.LaneAccountsAgree: assumes no counter reaches u64::MAX.
- Executor, timers, mpsc and transport internals: channel answers, sink readiness, chunk sizes and clock readings are arbitrary inputs.
- Session shutdown, GoAway races after it, ping timeouts, end of stream on the transport and write timeouts: outside the hypotheses.
- The order of steps inside `poll_next`: the link model allows every order, so its results hold for the source's.
- Channel capacity: a channel may refuse any frame at any time, except the frame that creates it.
- Wake-ups of the session task by its streams: only the wake-ups of one stream's reader and writer are modelled.
- The HTTP/2 half of underlay.rs, the upgrade handshake with its headers, SHA-1 and base64: library behaviour.
- UTF-8 validity of close reasons is a parameter; text frames are refused either way.
- Failing writes in the WebSocket pumps other than after the side's own end of output.
- Reconnect, backoff, connection age, port hopping and adaptive tuning of lanes: dialling and I/O.
- Manager reload and open futures dropped midway: lane accounting does not cover them.
- Lane fields that are only copied for display (error text, Unix times, reconnect count, session age).
- Rounding of f64 delays and nanosecond instants in the limiter, and its panic for delays beyond the range of a duration.
- Formatting of HTTP dates as text, and seconds beyond the range of i64.
- DNS retries, the resolver call and the process-wide lock.
- Crypto handshake, encrypted framing, SOCKS5, TUN, metrics, admin and command-line code: I/O or easier members.
- Buffer shrinking and logging: no effect on the modelled state.
