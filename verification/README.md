# Verified model of ShellSync

A terminal runs on a user's machine under the ShellSync daemon. Its output is cut into numbered chunks and kept
in a table, and viewers join it at any time: they are sent the history page by page and then the live output.
Phones outside the local network reach the daemon through a relay, which pairs them by one-time codes and carries
any number of byte streams between them over two WebSocket connections. This project models the parts of that
system where concurrency, in-place state or incremental parsing make mistakes easy, and proves what they keep.

| file | models |
|---|---|
| Basics | an option type, counting, regrouping of lists |
| LogRepo | the table of one terminal's rows: insert, range, tail, maximum |
| Replay | the paging loop over the table |
| Handover | joining a running terminal: flushers and a subscriber, step by step |
| HandoverOrder | the order of what the viewer gets, read off the events |
| Subscription | the subscriber's own code against Handover |
| Logstore, Aggregator | aggregation of bytes into chunks with resize markers: the machine, and the code against it |
| Numbering | sequence numbers across registrations of a terminal |
| Limiter | the sliding-window limiter on pairing-code claims |
| Hub, RelayHub | the relay hub's tables and critical sections: runs of them, and the code against them |
| Diary | what the hub was seen to do; its codes, claims and registrations are what stands of that |
| Flow | one tunnel stream on its own |
| Tunnel, TunnelProof | the relay with sockets as queues and its goroutines; every stream of it behaves as Flow |
| TunnelClose, TunnelOpen | how the end of a stream, and its beginning, reach the hub's tables and both ends |
| RelayClient | the daemon's end of the tunnel as code, against Tunnel |
| WsFrames, WsChannel | the mobile client's WebSocket frames: reference decoding and encoding, and the code against them |
| HttpResponse | the mobile client's incremental HTTP response parser |
| WireFrame | the relay's data frame, written and read by three programs |
| Callbacks | callbacks on the end of a session |

Each concurrent protocol is a state type, an `Event` type, `Enabled`, `Next` and `Run`; its theorems hold over all
runs. Code that updates state in place is a class or an array method whose contract ties the new state to the same
functions the theorems are about.

## What turned out otherwise than promised

- The comment at daemon/internal/transport/ws/conn.go:170-173 promises a viewer that nothing is lost or duplicated.
  `Handover.SentExactly` gives the exact count, 0, 1 or 2, for every chunk of every run. A chunk is sent twice when
  its row was read in a page and its notification either was held back and its number lies above the number the
  replay returns (which stops short of the final page), or came after the release, whatever page it was in. A chunk
  is lost when its row was persisted behind the reading position, which needs rows persisting out of number order,
  and its notification was held back. Comparing both live paths with the highest number actually replayed, no chunk
  would ever be sent twice, and with rows persisting in number order and no failed read each would be sent exactly
  once (`Handover.IntendedExactly`, which has the exact count for the other runs too).
- The chunks held back during the replay are sent outside the lock that guards the switch to live output, so a chunk
  handed over meanwhile can go out before them, even when everything was flushed in order
  (`HandoverOrder.SecondOvertakes`). The viewer gets them in the order of their notifications if and only if none does
  (`HandoverOrder.InOrderIff`).
- A stream that has been asked to end leaves the hub's tables and its daemon end does not stay open, but its client end
  can: when the hub writes the close before the answer to the open, the client makes nothing of the close and opens at
  the answer (`TunnelOpen.AnswerOvertaken`). That is the only way: `TunnelClose.CloseReaches` has the client end open
  if and only if the last word written to it was the answer. It closes once it sends (`TunnelOpen.StrayAnswered`). A
  daemon whose answer comes too late is disconnected, because the hub takes it for a breach of the protocol
  (`TunnelClose.AcceptServed`).
- The relay leaves the ids of a dead peer's streams on the lists of the surviving ends. A session's list is its live
  streams and exactly the streams it lost to a peer that closed, so the two match if and only if there are none of
  those (`Hub.ListExact`, step by step `Hub.StaleStep`), and an open is refused for too many streams if and only if
  live streams and left-behind ids together reach a limit (`Hub.LimitIff`). As every refusal disconnects the client,
  it then also loses the streams it still has to other daemons (`Hub.RefusalEndsSession`; `Hub.RefusedWithOneLive`
  is a run in which a client with a single live stream is disconnected for having too many).
- A sequence number is used twice when the row with the highest number failed to insert and the terminal is
  registered again (`Numbering.RepeatsIff` says exactly when; over whole runs the numbers rise as long as every
  registration finds the highest number drawn in the table, `Numbering.DrawsRise`). A marker flush that comes while a
  terminal is being closed makes two rows compete for one number, so that one is refused
  (`Numbering.MarkerDuringClose`); no insert can be refused after a registration if and only if the close before it
  was complete (`Numbering.CompleteCloseIff`).
- The WebSocket parser holds a complete message back exactly when a non-final frame has a complete final frame
  somewhere behind it in the bytes at hand, and loses what a feed found when that feed meets an unreadable length
  (`WsFrames.FeedLagsIff`, `WsFrames.AnySplit`; `WsFrames.FragmentLags` is the smallest case).
- The rate bound needs a blackout at least as long as the window, because a refusal forgets the calls it counted
  (`Limiter.RateBoundIff`); the constants in use meet it.

## Model

| member | source | states |
|---|---|---|
| Handover.SentExactly | daemon/internal/transport/ws/conn.go:170-233 | for every interleaving of flushers (allocate, persist, notify) and subscriber (register, read pages, release, go through the held chunks), each settled chunk was sent 0, 1 or 2 times, and exactly when which |
| Handover.NothingLost | daemon/internal/transport/ws/conn.go:170-233 | rows persisting in number order, a settled chunk is unsent if and only if a page read failed before reaching it and it was notified before the subscriber registered |
| Handover.IntendedExactly | daemon/internal/transport/ws/conn.go:170-173 | filtering both live paths on the highest number replayed, in every run each settled chunk is sent at most once, and not at all exactly when it was persisted behind the reading position and notified to the subscriber, or notified before registration and out of reach of a failed read; so exactly once when rows persist in number order and no read fails |
| Handover.NextKeeps | daemon/internal/transport/ws/conn.go:177-233 | every step keeps, for every number at once, how often it is in the pages, among the live output and among the held chunks |
| Handover.PageMembers | daemon/internal/transport/ws/conn.go:376-408 | a page holds exactly the rows between the reading position and the number it covers up to, and a last page leaves none above it |
| Handover.HeldChunkSentTwice | daemon/internal/transport/ws/conn.go:404-406 | a run in which rows persist in order and a chunk of the final page is sent twice |
| Handover.DirectChunkSentTwice | daemon/internal/transport/ws/conn.go:187-194 | a run in which a chunk of a page before the final one is sent twice, notified after the release |
| Handover.OutOfOrderChunkLost | daemon/internal/logstore/aggregator.go:74-75 | a run in which rows persist out of order and a notified chunk is never sent |
| Handover.HeardIff | daemon/internal/terminal/session.go:113-126 | over every run after a subscriber has registered, the notifications that pass it by are exactly those whose handlers were collected before it registered, and no later chunk joins them |
| HandoverOrder.ArrivalOrder | daemon/internal/transport/ws/conn.go:176-233 | in every run the viewer was sent the displayed rows its pages read, strictly ascending, and after them the live output in event order: the held chunks as their turn comes in the order of their notifications, the direct ones at once; what is still held is in that order too |
| HandoverOrder.InOrderIff | daemon/internal/transport/ws/conn.go:217-233 | the live output is the held chunks above the replay's number and then the direct ones, all in the order of their notifications, if and only if no direct one goes out before a held one has had its turn |
| HandoverOrder.SecondOvertakes | daemon/internal/transport/ws/conn.go:187-222 | a run in which two chunks are flushed and notified in order and reach the viewer reversed |
| HandoverOrder.ReportedLast | daemon/internal/transport/ws/conn.go:371-410 | in every run each page starts just above the one before, and the number the replay returns is the last of the page before the final one, or one below the start |
| Subscription.TerminalSub.OnOutput | daemon/internal/transport/ws/conn.go:177-195 | the live handler does what the machine's delivery step does |
| Subscription.TerminalSub.ReplayPage | daemon/internal/transport/ws/conn.go:376-408 | one turn of the paging loop sends the page's displayed rows and moves on as the machine's read step does |
| Subscription.TerminalSub.ReleaseHeld | daemon/internal/transport/ws/conn.go:217-233 | release and the loop over the held chunks equal the release step followed by all drain steps |
| Subscription.DrainedSends | daemon/internal/transport/ws/conn.go:222-233 | gone through undisturbed, the held chunks above the replay's number are sent, each once, in arrival order |
| Replay.ReplayHistory | daemon/internal/transport/ws/conn.go:371-410 | on a log that no longer grows: the pages put together are one scan, they start one after the other, only the last says there is no more, their number is exact, and the returned number stops short of the last page |
| Replay.RenderPage | daemon/internal/transport/ws/conn.go:382-396 | a page shows its stdout and resize rows in order, and its toSeq is its last row's number |
| Replay.OneScan | daemon/internal/transport/ws/conn.go:366-410 | the pages together are, in ascending order and each once, exactly the displayed rows numbered from the start on |
| LogRepo.LogTable.AppendChunk | daemon/internal/repository/log_repo.go:22-28 | an insert is refused exactly when the number is taken, and otherwise adds the one row |
| LogRepo.LogTable.ReadRange | daemon/internal/repository/log_repo.go:30-60 | the first rows from a number on, up to the limit, and whether there are more |
| LogRepo.LogTable.Tail | daemon/internal/repository/log_repo.go:62-92 | the last rows up to the limit, oldest first |
| LogRepo.LogTable.MaxSeq | daemon/internal/repository/log_repo.go:94-100 | the highest number, 0 when there is none |
| LogRepo.FromExact | daemon/internal/repository/log_repo.go:36-38 | a range query yields, ascending, exactly the rows from the number on |
| LogRepo.InsertedExact | daemon/internal/repository/log_repo.go:22-28 | inserting a fresh number keeps the order and adds exactly that row |
| Logstore.BytesConserved | daemon/internal/logstore/aggregator.go:56-124 | at every point of every run flushed bytes and buffer are the bytes received, per direction and in order; after stop all of them are flushed; the timer is armed exactly when an idle buffer is not empty |
| Logstore.ChunksNumbered | daemon/internal/logstore/aggregator.go:66-76 | chunks and markers are numbered without a gap from the seed on, and every chunk has 1 to maxChunk bytes |
| Logstore.ChunkCut | daemon/internal/logstore/aggregator.go:62-124 | every chunk of every run is a full slice of maxChunk bytes off its buffer's front, or all of the buffer on a timer or at the end, and every marker came with an output chunk or a marker flush |
| Logstore.GridAtOutput | daemon/internal/logstore/store.go:122-164 | at every output chunk the nearest earlier marker carries the last valid grid set before the flush that wrote it |
| Logstore.PendingExact | daemon/internal/logstore/store.go:122-164 | at every point of every run the pending grid is the last valid one set since output or a marker was last written |
| Logstore.MarkersCoalesced | daemon/internal/logstore/store.go:144-164 | there are never more markers than grids set, and after a marker flush the last marker is the current grid |
| Logstore.NextKeeps | daemon/internal/logstore/aggregator.go:78-124 | every step of either aggregator or of a resize keeps numbering, sizes, balance of bytes, timer and grid record |
| Aggregator.AbsorbRuns | daemon/internal/logstore/aggregator.go:95-117 | a data message's turn of the loop is a run of the machine's receive, slice and settle steps |
| Aggregator.TermLog.constructor | daemon/internal/logstore/store.go:90-106 | registering seeds the counter with the table's highest number and no grid is pending |
| Aggregator.TermLog.FlushChunk | daemon/internal/logstore/store.go:235-253 | a row under a fresh number reaches the table and is notified, or, its insert failing, neither; no other row changes |
| Aggregator.TermLog.SetPendingResize | daemon/internal/logstore/store.go:122-133 | a grid without columns or rows is ignored, any other replaces the pending one |
| Aggregator.TermLog.TakePendingResize | daemon/internal/logstore/store.go:135-142 | taking the pending grid clears it |
| Aggregator.TermLog.FlushResizeMarker | daemon/internal/logstore/store.go:144-164 | a pending grid becomes the next row, and without one nothing happens |
| Aggregator.Aggregator.Flush | daemon/internal/logstore/aggregator.go:62-76 | one flush writes a pending marker first when the chunk is output, then the chunk |
| Aggregator.Aggregator.OnData | daemon/internal/logstore/aggregator.go:95-117 | the data message's loop cuts as many full slices as there are and leaves the timer armed for the rest |
| Aggregator.Aggregator.OnTimer | daemon/internal/logstore/aggregator.go:118-121 | the timer flushes the rest and disarms |
| Aggregator.Aggregator.OnClose | daemon/internal/logstore/aggregator.go:96-99 | closing flushes the rest |
| Numbering.SequenceGapless | daemon/internal/logstore/store.go:90-106 | from a gapless table, over any number of registrations each after a complete close, inserts succeeding: every number drawn is one above the last, no insert is refused, and the table stays gapless from 1 |
| Numbering.SequenceRises | daemon/internal/logstore/store.go:90-106 | from any table, gaps or not, over any number of registrations each after a complete close, inserts succeeding: the numbers drawn rise over the whole run, lie above the whole starting table, are never refused and all reach the table |
| Numbering.DrawsRise | daemon/internal/logstore/store.go:98-104 | the same rise with inserts failing, as long as every registration finds the highest number drawn so far in the table |
| Numbering.DrawnInOrder | daemon/internal/logstore/aggregator.go:66-76 | in every run the numbers drawn from one registration are its base plus 1, 2, 3 and so on |
| Numbering.RepeatsIff | daemon/internal/logstore/store.go:98-104 | after a complete close the next registration can repeat no number if and only if its base is at least every number drawn so far |
| Numbering.FailedInsertRepeats | daemon/internal/logstore/store.go:239-242 | an orderly run in which a failed insert makes a number be drawn twice |
| Numbering.MarkerDuringClose | daemon/internal/logstore/store.go:147-164 | a run without database failures in which a marker flush during Close costs a row its place |
| Numbering.CompleteCloseIff | daemon/internal/logstore/store.go:90-106 | after a registration no continuation with inserts succeeding has one refused if and only if no older registration was still in use when it was made |
| Numbering.OverlapRefused | daemon/internal/logstore/store.go:147-164 | a registration made while an older one is in use has, whatever their counters, a continuation in which an insert is refused |
| Limiter.RateBound | server/relay/limiter.go:24-44 | in every run with non-decreasing times no half-open interval of one window holds more than max permitted calls, when the blackout is no shorter than the window |
| Limiter.RateBoundIff | server/relay/limiter.go:37-40 | that bound holds over all runs if and only if the blackout is no shorter than the window |
| Limiter.PermittedIff | server/relay/limiter.go:24-44 | a call is permitted if and only if it comes no sooner than blackFor after the last refusal that began a blackout and fewer than max of the calls permitted before lie in the window ending with it |
| Limiter.BlackoutHolds | server/relay/limiter.go:25-40 | from a refusal that blacklists nothing is permitted for blackFor |
| Limiter.ShortBlackoutExceeds | server/relay/limiter.go:37-40 | for any shorter blackout, a run that breaks the bound |
| Limiter.IpLimiter.Compact | server/relay/limiter.go:28-36 | the in-place compaction leaves exactly the events still in the window, in order |
| Limiter.IpLimiter.Append | server/relay/limiter.go:42 | the call's time joins the events, last |
| Limiter.IpLimiter.Allow | server/relay/limiter.go:24-44 | a call decides and updates as the decision function says |
| Hub.RunKeeps | server/relay/hub.go:233-394 | after every run each pipe is stored under its own id, joins a client and a daemon and is on both their lists, and every list is increasing, bounded by the last id and within its limit |
| Hub.StreamLimits | server/relay/hub.go:248-263 | in every reachable state live streams never exceed 16 at a client or 64 at a daemon |
| Hub.TeardownExact | server/relay/hub.go:360-384 | closing a session removes exactly its pipes, its list, its claim and its registration, and no other session's list changes |
| Hub.TeardownNotices | server/relay/hub.go:386-392 | every pipe taken along draws exactly one close, to its surviving end, and every close sent is for a pipe of the closing session |
| Hub.DropUndoesOpen | server/relay/hub.go:264-278 | dropping the stream just opened restores every table, the id counter excepted |
| Hub.ListExact | server/relay/hub.go:233-394 | after every run a session's list names exactly its live streams and the streams it lost to a peer that closed, each once; it matches its live streams if and only if it lost none that way |
| Hub.StaleStep | server/relay/hub.go:360-384 | how any one event changes the ids left behind on a session's list: all go when it closes itself, exactly the streams joining it to another session that closes are added, nothing else changes them |
| Hub.LimitIff | server/relay/hub.go:248-263 | an open naming a target is refused for too many streams if and only if live streams and left-behind ids together reach 16 at the client or 64 at the daemon |
| Hub.RefusalEndsSession | server/relay/hub.go:420-424 | a refused open ends the client's session and every stream it still had, and touches no other stream or list |
| Hub.RefusedWithOneLive | server/relay/hub.go:248-252 | a run in which a client with one live stream is refused for having too many and loses that stream |
| Hub.FullClient | server/relay/hub.go:264-268 | a run that brings a client to any number of streams up to its limit, all to one daemon |
| Diary.TablesFollow | server/relay/hub.go:140-228 | after every run the hub's codes, claims and registrations are exactly the advertisements, hits and registrations that no later entry of its diary has undone |
| Diary.ClaimIff | server/relay/hub.go:192-228 | what every claim is answered in every run: bound to a devId if and only if the limiter lets the client through and an advertisement of the code by that devId stands, taken by no claim, its owner not closed since and not expired; and which refusal otherwise |
| Diary.OpenIff | server/relay/hub.go:233-269 | in every run an open is granted if and only if its target, named or the one the client's last standing claim bound it to, has a standing registration and neither end its fill of streams, and the pipe joins exactly those two; offline if and only if no registration of the target stands |
| Diary.OneOwner | server/relay/hub.go:149-158 | at every point of every run at most one session that is not closed holds a devId, and opens for it go there |
| Diary.ClaimRate | server/relay/hub.go:197-208 | the limiter of an address has seen every claim from there: no minute holds more than five that were not refused for their rate |
| Diary.CodesOneShot | server/relay/hub.go:163-228 | in every run a hit takes a standing advertisement of its code by that devId, no later than its expiry, at most ten minutes after it; hits of a code never outnumber its advertisements |
| RelayHub.RelayHub.HandleReg | server/relay/hub.go:140-160 | registration checks, replaces a stale session of the same devId and enters the new one; a refused one is answered with the error and disconnected, with the closes that follow |
| RelayHub.RelayHub.HandleCode | server/relay/hub.go:163-188 | a code is entered with its bounded time to live and expired ones are purged; a refusal disconnects the sender |
| RelayHub.RelayHub.PurgeCodes | server/relay/hub.go:426-433 | exactly the codes past their expiry go |
| RelayHub.RelayHub.ClaimSection | server/relay/hub.go:196-225 | a claim passes the limiter, consumes its code and binds the client, or fails for the right reason |
| RelayHub.RelayHub.HandleClaim | server/relay/hub.go:192-228 | the claim's section, and after a refusal the end of the session and its closes |
| RelayHub.RelayHub.OpenSection | server/relay/hub.go:237-269 | an open is granted or refused, for the right reason, and enters the pipe on both lists |
| RelayHub.RelayHub.HandleOpen | server/relay/hub.go:233-262 | the open's section, and after a refusal the end of the session and its closes |
| RelayHub.RelayHub.RemoveSessionStream | server/relay/hub.go:435-443 | exactly the first occurrence of the id leaves the list |
| RelayHub.RelayHub.DropStream | server/relay/hub.go:343-357 | a present pipe goes from the table and both lists, and both its ends are told |
| RelayHub.RelayHub.ForgetOwner | server/relay/hub.go:363-374 | the closing session's claim, its registration if still its own, and its codes go |
| RelayHub.RelayHub.DropCodesOf | server/relay/hub.go:368-373 | exactly the codes of the closing daemon's devId go |
| RelayHub.RelayHub.TakePipes | server/relay/hub.go:377-383 | the pipes on a list leave the table, in the list's order |
| RelayHub.RelayHub.TellPeers | server/relay/hub.go:386-392 | one close per pipe, to the other end |
| RelayHub.RelayHub.OnSessionClose | server/relay/hub.go:360-394 | the whole teardown section and the closes that follow it |
| RelayHub.RelayHub.CloseSession | server/relay/session.go:116-130 | the first close runs the teardown, a second one does nothing |
| Flow.NextKeeps | server/relay/hub.go:283-341 | every move of a stream keeps: received and still to come is a prefix of sent, nothing missing while pipe, socket and end last; one Open, one Accept, and no data before either |
| TunnelProof.Fidelity | server/relay/hub.go:319-357 | in every run of the relay, with any number of interleaved streams, what an end of a stream received is a prefix of what its other end sent on it |
| TunnelProof.NoStrangers | server/relay/hub.go:319-341 | only the two sessions a pipe joins ever send or receive on its id |
| TunnelProof.DeliveredOnceDrained | server/relay/hub.go:319-341 | while pipe, receiving socket and receiving end last, an end has received everything sent once nothing of the stream is waiting |
| TunnelProof.NextWired | server/relay/hub.go:271-392 | every step keeps frames, handlers' pending writes and ends confined to the sessions of the pipe they name |
| TunnelProof.StreamKept | server/relay/hub.go:271-392 | whatever step the relay takes, every stream makes one enabled move of Flow or does not change |
| TunnelProof.StreamBegun | server/relay/hub.go:264-275 | a stream that a step allocates starts as Flow starts, with nothing but its Open to be written |
| TunnelProof.ReceiveFlow | daemon/internal/transport/relay/client.go:327-424 | taking the next frame off a socket is, for each stream, one enabled move of Flow or no change |
| TunnelClose.CloseReaches | server/relay/hub.go:300-394 | in every run, once a stream was asked to end - by either end's close, a failed dial or write, stray data at the daemon, or the end of a party's session - and nothing of it is waiting: it is off the hub's tables, its daemon end is not open, and its client end is open if and only if the last word written to it was the answer to its open, unless it ended the stream itself; an end whose connection is lost excepted |
| TunnelOpen.OpenReaches | server/relay/hub.go:264-297 | in every run a stream still on the tables with nothing of it waiting and both connections up has been opened at both ends, and its id was written to the client |
| TunnelOpen.StrayAnswered | server/relay/hub.go:324-329 | in every run a client that sends on a stream that is gone does not keep its end open |
| TunnelOpen.AnswerOvertaken | mobile/lib/api/relay_transport.dart:290-309 | a run in which a close overtakes the answer to an open and the client end stays open on a stream that is gone |
| RelayClient.Client.OpenStream | daemon/internal/transport/relay/client.go:349-377 | dial, enter, accept, with each failure's answer and error |
| RelayClient.Client.HandleData | daemon/internal/transport/relay/client.go:399-413 | payload to the right local connection, a close for an unknown stream, the end of the stream when the write fails part-way |
| RelayClient.Client.CloseStream | daemon/internal/transport/relay/client.go:415-424 | an open stream ends, others do not change |
| RelayClient.Client.CloseStreamsLocked | daemon/internal/transport/relay/client.go:426-431 | every open stream ends |
| WsFrames.AnySplit | mobile/lib/api/ws_channel.dart:192-259 | however the bytes are cut and whatever throws, the messages emitted start the reference decoding of all of them, followed by exactly those a throwing feed lost and those still held |
| WsFrames.FeedLagsIff | mobile/lib/api/ws_channel.dart:192-257 | a feed throws if and only if an unreadable length stands behind final frames only; otherwise it emits all the reference decodes if and only if no non-final frame has a complete final frame behind it |
| WsFrames.WholeNoLag | mobile/lib/api/ws_channel.dart:192-259 | for streams of unfragmented frames the messages emitted are the whole decoding, and no feed throws |
| WsFrames.FragmentLags | mobile/lib/api/ws_channel.dart:242-257 | two fragments in one chunk: nothing is emitted until the next feed, and then the message |
| WsFrames.RoundTrip | mobile/lib/api/ws_channel.dart:203-289 | a frame encoded with or without a mask, as a client or a server sends it, parses to itself with no residue, whatever follows it, in all three length forms, up to 63-bit frames |
| WsFrames.EncodedOnWire | mobile/lib/api/ws_channel.dart:262-289 | the encoding is that of section 5.2 of RFC 6455: every bit of the first two bytes, the length in its shortest form highest byte first, the mask, and each payload byte under its mask byte |
| WsFrames.ListRoundTrip | mobile/lib/api/ws_channel.dart:192-289 | a concatenation of encoded frames, masked or not, cut anywhere comes out as the list in order |
| WsFrames.FragmentsJoin | mobile/lib/api/ws_channel.dart:242-257 | a first fragment and its continuations, masked or not, decode to one message with the payloads joined |
| WsFrames.WholeBetween | mobile/lib/api/ws_channel.dart:242-259 | a whole frame between two fragments comes out at once and leaves the message under assembly as it was |
| WsFrames.ParseStable | mobile/lib/api/ws_channel.dart:203-240 | further bytes change nothing about a frame already complete |
| WsChannel.WsFrameParser.TryParseOne | mobile/lib/api/ws_channel.dart:203-259 | one attempt yields, keeps and consumes what the model's attempt does |
| WsChannel.WsFrameParser.Feed | mobile/lib/api/ws_channel.dart:192-201 | the loop yields every message up to the first null, or throws |
| WsChannel.ReadFrame | mobile/lib/api/ws_channel.dart:203-240 | reading the header field by field finds the same frame as the reference |
| WsChannel.ReadLength | mobile/lib/api/ws_channel.dart:210-224 | the length field, in its three forms, or not yet there |
| WsChannel.Unmask | mobile/lib/api/ws_channel.dart:233-239 | the index loop XORs each byte with its mask byte |
| WsChannel.LongLength | mobile/lib/api/ws_channel.dart:276-280 | the 64-bit length, highest byte first |
| WsChannel.EncodeHead | mobile/lib/api/ws_channel.dart:269-281 | first byte and length field, in the form the length calls for |
| WsChannel.EncodeClientFrame | mobile/lib/api/ws_channel.dart:262-289 | the buffer filled in a loop is the encoding |
| HttpResponse.SplitIndependent | mobile/lib/api/relay_http.dart:117-181 | completion and the result of finish are a function of the bytes alone, for every split and every Content-Length, a negative one included |
| HttpResponse.SameBytesSameResponse | mobile/lib/api/relay_http.dart:117-181 | two splits of the same bytes give the same completion and the same response |
| HttpResponse.CompleteStable | mobile/lib/api/relay_http.dart:117-135 | bytes after a complete body are ignored |
| HttpResponse.ResponseOf | mobile/lib/api/relay_http.dart:117-168 | for a readable head, the first blank line and what follows it: the response is complete with as many of those bytes as the length says once they are there, and otherwise open-ended with all of them; an unreadable head gives none |
| HttpResponse.HeadMissing | mobile/lib/api/relay_http.dart:137-153 | without a blank line there is no response |
| HttpResponse.Received | mobile/lib/api/relay_http.dart:117-181 | however such bytes are cut, the parser's answer is that response |
| HttpResponse.AddReflects | mobile/lib/api/relay_http.dart:117-135 | each add keeps the parser a function of all bytes so far, and throws exactly when a head with a negative length is complete |
| HttpResponse.TunnelHttpParser.TryParseHeaders | mobile/lib/api/relay_http.dart:137-168 | the search loop finds the first blank line, and an unreadable head changes nothing |
| HttpResponse.TunnelHttpParser.Add | mobile/lib/api/relay_http.dart:117-135 | adding a chunk updates the parser as the model does |
| HttpResponse.TunnelHttpParser.Finish | mobile/lib/api/relay_http.dart:170-181 | the complete response, what there is of an open-ended one, or the exception |
| WireFrame.ServerAccepts | server/relay/frame.go:119-133 | the server decodes a byte string to an id and payload if and only if it is their encoding, the id is 32-bit and the payload at most 32 KiB |
| WireFrame.DaemonAccepts | daemon/internal/transport/relay/client.go:75-85 | the daemon does so for every payload whose length is a 32-bit number |
| WireFrame.DecodersAgree | mobile/lib/api/relay_protocol.dart:55-66 | mobile and daemon decode every byte string alike, and so does the server up to its limit |
| WireFrame.EncodedReadsBack | server/relay/frame.go:107-133 | within the limits every decoder inverts the encoding |
| WireFrame.ServerEncode | server/relay/frame.go:107-117 | the wire bytes, or an error exactly above 32 KiB |
| WireFrame.DaemonEncode | daemon/internal/transport/relay/client.go:66-73 | the encoder that shifts 32-bit words writes the same bytes |
| WireFrame.MobileEncode | mobile/lib/api/relay_protocol.dart:40-47 | so does the mobile one |
| Callbacks.ExactlyOnce | server/relay/session.go:79-130 | over every interleaving a callback runs at most once and not before the end, and once the session has settled exactly once unless cancelled in time, whether registered before, during or after |
| Callbacks.CancelInTime | daemon/internal/terminal/session.go:142-146 | at every point of every run a cancel has an effect exactly while the handler is listed, which it is not once they are collected, and a listed one has not fired |
| Callbacks.EndedRuns | server/relay/session.go:116-130 | setting the flag, collecting in any order and running to the last is a run of the machine and fires every listed handler once |
| Callbacks.Session.OnClose | server/relay/session.go:81-89 | the code takes the machine's registration step: listed before the end, on its own afterwards |
| Callbacks.Session.Close | server/relay/session.go:116-130 | the first close is the machine's flag, collect and run-to-the-last in registration order, and a second one does nothing |
| Callbacks.Terminal.SubscribeStatus | daemon/internal/terminal/session.go:128-147 | the code takes the machine's registration step and gives out a key never used before, or none once the process has exited |
| Callbacks.Terminal.Cancel | daemon/internal/terminal/session.go:142-146 | cancelling by a key is the machine's cancel of the handler registered under it, late or repeated ones included |
| Callbacks.Terminal.Finalize | daemon/internal/terminal/session.go:194-227 | the first time only, it is the machine's flag, collect and run-to-the-last in some order of the handlers still subscribed |
| Callbacks.Terminal.Handlers | daemon/internal/terminal/session.go:212-216 | the copy out of the map holds every subscribed handler exactly once |

## Left out

Hypotheses of the model:

- Rows persist in number order: assumed for Handover.NothingLost and for the last clause of Handover.IntendedExactly, nowhere else; a number is drawn and its row inserted in separate steps.
- The viewer's send buffer has room: a message dropped on overflow (daemon/internal/transport/ws/conn.go:511-517) is not modelled.
- A tunnel end sends only on streams it has seen open; the hub itself does not check that the sender of a data frame is an end of the stream (server/relay/hub.go:320-333).
- Ids do not wrap round: a run of the hub opens fewer than 2^32 streams.
- A session registers under one devId.
- Diary.ClaimRate: claims from one address carry times that do not decrease.
- Tunnel: one connection cycle of the relay; ids start over with a new hub.
- Logstore: each flush is one step, and its rows are those handed to the table; which of them reach it is in Aggregator, and the finer steps are in Numbering.

What the models do not capture:

- Sockets, pings, TLS and the WebSocket library: a connection is a queue, writes to a broken one fail, and its reader may stop at any time.
- SQL: the table is an ordered list of rows; archive deletion is left out of replay and numbering.
- JSON, base64 and the text of an HTTP head: control frames are values, a grid is a pair, and the head reader is a parameter of the parser.
- Control frames the hub merely answers on the tunnel's sockets (reg, code, claim and their answers) change the hub's tables in Tunnel but take no place in its queues.
- A daemon whose local dial fails gives up its connection to the relay (daemon/internal/transport/relay/client.go:131-134); Tunnel lets it go on or break, which allows more.
- The mobile client's matching of opens to their ids, its reconnection and its stream objects: its end of a stream is unopened, opened or ended.
- Hub: a refusal and the disconnection after it are one step there; in Tunnel they are apart and other steps may come between.
- Hub: the per-address limiters are values in a map, metrics counters and Hub.Close are left out, and a session's closing callback is one step with the flag that makes it run once.
- WsFrames: a frame that would end at byte 2^63 or beyond throws in the mobile client's 64-bit integers and is modelled so; what a browser's numbers would do is not.
- WireFrame: the mobile encoder's stream id is a natural number.
- The mobile mirror, status table, PTY, screen, cryptography, configuration and user interfaces: input and output, or too simple to be worth a model.
