# A verified model of the mod_realtime_ws core

`mod_realtime_ws` joins the audio of a FreeSWITCH call to a peer that speaks a Twilio-style media protocol over a
WebSocket. This project models the portable core of that bridge in Dafny and proves what it keeps over whole runs:

- **Framing.** A text is masked and framed; the receive side is an incremental parser that unmasks in place inside a
  growing buffer. How the transport cuts the stream is invisible, what is sent is what is delivered, and the buffer is
  bounded.
- **Playout.** A byte ring with marks whose positions are kept as counters relative to the read position. It refines
  one ever-growing stream with marks pinned to absolute positions; barge-in forgets everything before it.
- **Outbound.** A queue that evicts its oldest entry, a session that numbers what it queues, and a flush that peeks,
  sends and drops while harvesting completed marks. One history of queued messages explains the queue, the wire, the
  evictions, the numbering and the acknowledgements of every run.
- **Media.** Callbacks of any size become 20 ms mu-law frames and playout bytes become call samples, over every
  interleaving of callbacks, messages, flushes, reconnects and stop.
- **Codecs and documents.** Base64, G.711 mu-law, decimal numbers and the protocol's JSON documents read back what was
  written.

| file | what it holds |
|---|---|
| `Sequences.dfy`, `Ring.dfy` | sequence facts; the circular layout shared by both rings |
| `OutboundQueue.dfy` | the drop-oldest queue, as an object and over runs |
| `Playout.dfy`, `Timeline.dfy`, `Refinement.dfy` | the playout ring; the absolute-position machine; the proof that one refines the other |
| `Mulaw.dfy`, `Base64.dfy`, `WebSocket.dfy`, `Protocol.dfy` | codecs, framing, documents |
| `Session.dfy`, `SessionRuns.dfy` | the session as steps and as an object; what every run of it keeps |
| `Bridge.dfy`, `BridgeRuns.dfy` | flush and media callbacks; what every run of the bridge keeps |
| `MediaRuns.dfy` | the audio of the bridge over every run, both ways, and barge-in |
| `Promises.dfy`, `Echoes.dfy` | which marks are echoed: acknowledged, queued, sent or evicted |
| `Greetings.dfy` | which message goes first on a socket, how often `start` comes, what follows `stop` |
| `WireFrames.dfy`, `Documents.dfy` | frames and documents as bytes and fields, whoever wrote them |
| `Effects.dfy`, `Tallies.dfy` | that events act when they should; counters and names over every run |
| `Readback.dfy` | every message ever queued or sent parses back to itself |

Each stateful component appears twice: as a class with the original's fields, loops and in-place updates, and as a
function on plain values which the class's methods are proved to compute. The statements about runs are about that
function. A run is any sequence of steps; each step is what one entry point does while it holds the lock. Entry points
that test the flags of pause and stop before they ask for the lock may find them changed: such a step is called late.

`dafny verify dfyconfig.toml` checks the whole project.

## Where properties fail, and exactly when

Where the documentation promises more than the code does, the code is followed. For each of the following there are
runs or inputs that break it and an equivalence or an exact count that says when it is kept.

- *A mark is echoed when its audio has been played or cleared* (`docs/PROTOCOL.md`), for marks that were accepted; the
  65th pending mark is refused (`Playout.PlayoutRing.QueueMark`). A harvest acknowledges at most eight completed marks
  and removes the rest (`Promises.OnlyEightAreEchoed`), and an acknowledgement may be evicted before it is sent
  (`Echoes.EchoIsEvicted`). `Echoes.EveryMarkEchoedIff` is the condition: no flush finds more than eight, and no event
  evicts an acknowledgement. A clear has room for all 64 (`SessionRuns.ClearAcknowledgesAll`).
- *`connected` is what a connection begins with.* After a reconnect it is queued behind the messages that wait
  (`Greetings.AudioBeforeConnected`), and a reconnect that a stop has overtaken does not queue it at all
  (`Greetings.OnlyStopOnNewSocket`). `Greetings.ConnectedFirstIff` and `Greetings.RacedFirstIff` are the conditions on
  the queue before the call, `Greetings.ConnectedFirstWithRoom` the simple form when ten slots are free.
- *`start` is sent once per stream* (`docs/PROTOCOL.md`). Every reconnect that no stop has overtaken queues one more
  (`Greetings.SecondStart`, `Greetings.StartsOverRuns`).
- *Nothing follows `stop`*, as one might expect. A mark completed since the last flush is acknowledged after it
  (`Greetings.MarkFollowsStop`); `Greetings.StopIsLastIff` is the condition.
- *No sample of a read callback that was taken is lost before the queue.* A callback tests pause and stop before it
  takes the lock and not again. `MediaRuns.LateReadLosesAFrame` gives a run, `MediaRuns.NothingLostIff` the condition.
  A callback that does not get the lock is not taken: all of it is dropped.
- The sample -32768 wraps when it is negated. It is the only sample that breaks the error bound or the order:
  `Mulaw.ErrorBound` and `Mulaw.OrderPreserved` are equivalences, and `Mulaw.MostNegativeBecomesSilence` shows the
  value. Code 0x7F is the only one that does not survive decode and encode (`Mulaw.CodeRoundTrip`).
- The base64 decoder's capacity test counts `3 - pad`. A quad with three padding characters therefore stores one byte
  that was not counted. `Base64.CapacityKeptIffPaddingSafe` says for which inputs every capacity is respected,
  `Base64.ThreePadsExceed` shows one where it is not, and `Session.PayloadStaysInBuffer` shows that texts short enough
  for the WebSocket reader cannot overrun the session's own buffer.
- Cutting a 16 kHz or stereo callback inside an output sample changes what is heard. `Bridge.CutIsInvisibleIff` says
  which cuts do not, `MediaRuns.CallbackSizesInvisible` what follows for whole runs.

`docs/PROTOCOL.md` also shows the first media message with timestamp 20; the code starts at 0.

## Model

| member | source | states |
|---|---|---|
| `BridgeRuns.OutboundOverRuns` | src/mod/rtw_bridge.c:24-155 | In every bridge run the history of all messages the session queued carries one label per departed message: the queue is the rest of the history, the sockets received exactly the messages labelled sent, in queueing order, the drop counter counts the others, and the history is in the protocol's language and numbered consecutively. |
| `BridgeRuns.WireGapsAreEvictions` | src/core/rtw_queue.c:46-62 | Until 2^32 messages are numbered, a number that has left the queue is missing from everything the sockets received if and only if its message was evicted. |
| `BridgeRuns.WireIsTaken` | src/mod/rtw_bridge.c:24-38 | What all flushes of a run handed to sockets is, in order, what was taken off the queue: nothing is sent twice and a refused frame is not lost. |
| `BridgeRuns.BridgeRunIsSessionRun` | src/mod/rtw_bridge.c:24-155 | Every interleaving of callbacks, texts, flushes, socket events, pause, close and stop is a run of session steps, so all statements about session runs hold of it. |
| `BridgeRuns.NextIsRun` | src/mod/rtw_bridge.c:427-513 | Each single event acts on the session as its list of session steps. |
| `BridgeRuns.AlwaysInStep` | src/mod/rtw_bridge.c:468-480 | In every reachable state the hold buffer has fewer than 160 samples, the session runs until a stop is carried out, and it is paused exactly when the bridge is. |
| `BridgeRuns.AlwaysNamed` | src/core/rtw_session.c:47-62 | In every reachable state the queue holds the given number of frames or 64 for zero, the playout the given number of bytes or 64000 for zero, and the stream has its name cut to 63 bytes. |
| `MediaRuns.UplinkOverRuns` | src/mod/rtw_bridge.c:515-564 | Over every run the k-th media message ever queued carries the encoding of the k-th block of 160 surviving samples and the hold buffer is exactly their remainder: callback sizes, flushes, evictions and reconnects lose, repeat and reorder nothing. |
| `MediaRuns.CallbackSizesInvisible` | src/mod/rtw_bridge.c:524-561 | If every callback taken is a whole number of output samples, the samples of a run are the folding of the concatenation of its callbacks: their sizes make no difference, at any rate and with any number of channels. |
| `MediaRuns.NothingLostIff` | src/mod/rtw_bridge.c:518-541 | The samples that do not survive are whole frames, and all survive if and only if no frame was completed while the session did not send. |
| `MediaRuns.OnlyLateReadsLose` | src/mod/rtw_bridge.c:518-523 | Without a read callback that was admitted before a pause or stop and got the lock after it, every sample taken survives. |
| `MediaRuns.LateReadLosesAFrame` | src/core/rtw_session.c:126-128 | Such a callback of one frame behind a pause: the frame is lost. |
| `MediaRuns.WireCarriesTheBlocks` | src/mod/rtw_bridge.c:24-38 | The media on the wire are the blocks of the surviving samples, each under its own chunk number and time, in order, minus exactly the evicted ones; the blocks behind them are queued, the rest is held. |
| `MediaRuns.DownlinkOverRuns` | src/mod/rtw_bridge.c:588-625 | Over every run, with frames of any sizes, the injected samples are the decoding of exactly the playout bytes read, in order: alone in replace mode, as saturated sums with the call's own samples in mix mode. |
| `MediaRuns.AgentIsHeard` | src/core/rtw_session.c:173-181 | What the call hears is the decoding of the payloads of all accepted media texts, in order, minus exactly the bytes clears discarded; the rest is buffered. |
| `MediaRuns.AudioOverRuns` | src/core/rtw_session.c:173-181 | The bytes the playout has accepted over a run are the payloads of the accepted media texts, in order. |
| `MediaRuns.PlayoutIsRingRun` | src/mod/rtw_bridge.c:24-55 | The playout of every bridge run is a ring run of the operations of its events, one harvest per flush. |
| `MediaRuns.BargeInIsClean` | src/core/rtw_session.c:185-198 | After a clear in any bridge run, what is heard and what is acknowledged is selected, in order, from the audio and marks accepted after it; the clear itself acknowledges all pending marks. |
| `Effects.WritePlays` | src/mod/rtw_bridge.c:588-613 | Until cleaning starts a write callback that gets the lock plays exactly min(samples, 640, buffered) bytes, from the front, whatever pause, close request and socket are. |
| `Effects.WritesPlay` | src/mod/rtw_bridge.c:588-625 | Write callbacks one after the other play the buffered bytes in order, each as much as it has room for. |
| `Effects.WritesDrain` | src/mod/rtw_bridge.c:588-625 | Enough of them empty the buffer. |
| `Effects.WriteNotes` | src/mod/rtw_bridge.c:604-609 | The first write that finds nothing takes the sample of an unsampled clear; no other does. |
| `Effects.PeerIsHeard` | src/mod/rtw_bridge.c:40-55 | A media document from the peer that is heeded and fits, followed by write callbacks with room for all of it, is heard behind what waited, byte for byte. |
| `Effects.MediaTextFills` | src/core/rtw_session.c:173-181 | Such a document, with whatever other fields, puts its audio behind what waits if it fits and changes none of it otherwise, paused or not, with or without a socket. |
| `Effects.ClearTextEmpties` | src/core/rtw_session.c:185-188 | A clear for the stream leaves no audio behind. |
| `Effects.TextActs` | src/mod/rtw_bridge.c:40-55 | Which texts are heeded, and that each acts on the session and then flushes exactly if there is a ready socket. |
| `Effects.ReadCaptures` | src/mod/rtw_bridge.c:515-564 | While the bridge is neither paused nor shutting down a read callback that gets the lock is taken whole, whatever socket and worker are: one message per completed frame, the rest held. |
| `Effects.FrameIs` | src/core/rtw_session.c:132-145 | Each media message has the stream's name, consecutive number, chunk and time, and the 160 codes of its block. |
| `Effects.WorkerFlushSendsAll` | src/mod/rtw_bridge.c:24-38 | A worker flush on a ready socket that takes enough sends everything that waits and then the acknowledgements of the first eight completed marks, whether paused or not. |
| `Effects.FlushTable` | src/mod/rtw_bridge.c:24-38 | Exactly when a worker flush, a reconnect and a stop flush. |
| `Effects.PauseActs` | src/mod/rtw_bridge.c:468-480 | Pause and resume reach bridge and session until cleaning starts. |
| `BridgeRuns.FailedReconnectIsFinal` | src/mod/rtw_bridge.c:80-141 | One reconnect attempt that closed the old socket and got no new one ends the worker: whatever events follow, stop included, the wire is unchanged, and every message that leaves the queue from then on is evicted. |
| `BridgeRuns.StopIsFinal` | src/mod/rtw_bridge.c:427-457 | Once a stop has been carried out no event changes the wire or the history of queued messages. |
| `BridgeRuns.FlushHistory` | src/mod/rtw_bridge.c:31-37 | A flush of any length queues exactly what one harvest acknowledges and does to the playout exactly what one harvest does. |
| `Promises.OnlyEightAreEchoed` | src/core/rtw_session.c:236-240 | For any list of up to 64 names: after their marks, queued behind one byte of audio, have been played and the worker has flushed, the names acknowledged are the first eight and no mark is pending. |
| `Promises.HarvestAcknowledgesAllIff` | src/core/rtw_session.c:228-241 | A harvest acknowledges all completed marks if and only if there are at most eight. |
| `Promises.NoMarkLostIff` | src/core/rtw_playout.c:98-110 | Over a session run no mark is lost if and only if every harvest finds at most eight completed ones. |
| `Promises.MarksLostOverRuns` | src/core/rtw_session.c:228-250 | Over a bridge run the marks neither acknowledged nor pending are, in number, exactly those that its flushes found completed beyond the eighth. |
| `Echoes.EveryMarkEchoedIff` | src/core/rtw_session.c:228-258 | Over a bridge run the echoes on the wire, the echoes queued and the marks pending are, in this order, exactly the accepted marks, if and only if no flush finds more than eight completed marks and no event evicts an acknowledgement, each told from the state before the event. |
| `Echoes.MarksOverRuns` | src/core/rtw_queue.c:46-62 | Accepted marks = echoes on the wire + echoes queued + pending + removed beyond the eighth by some flush + echoes evicted. |
| `Echoes.EvictedOverRuns` | src/core/rtw_queue.c:46-62 | The acknowledgements a run evicts are, in number, the sum over its events of those in the overflow of the queue, by what the event queues and by what its flush acknowledges. |
| `Echoes.EchoIsEvicted` | src/mod/rtw_bridge.c:482-496 | A run with small flushes only in which the one accepted mark is neither on the wire nor queued nor pending: its acknowledgement, queued by a clear while the socket is down, is evicted by captured audio. |
| `BridgeRuns.EventWire` | src/mod/rtw_bridge.c:24-38 | The wire of every flushing event in closed form: the waiting messages and those the event queues, without the oldest beyond the capacity, from the front as far as the socket takes them; the rest stays queued. |
| `Greetings.FlushHead` | src/core/rtw_queue.c:46-62 | The first message of any flush on any socket is the oldest waiting or newly queued message that is not evicted. |
| `Greetings.ConnectedFirstIff` | src/core/rtw_session.c:299-315 | A reconnect that no stop has overtaken puts `connected` first if and only if the oldest message that the handshake and the at most eight acknowledgements do not evict is a `connected`, told from the queue before the call; one that a stop has overtaken sends nothing and leaves the socket up. |
| `Greetings.ConnectedFirstWithRoom` | src/mod/rtw_bridge.c:113-124 | With ten free slots a reconnect puts `connected` first if and only if no stop has overtaken it and the queue was empty or headed by a `connected`. |
| `Greetings.RacedFirstIff` | src/mod/rtw_bridge.c:108-124 | A reconnect that a stop has overtaken, then the stop carried out: the new socket's first message comes with the final flush, and is a `connected` if and only if one from an earlier handshake is the oldest message that the stop and the acknowledgements do not evict. |
| `Greetings.LastFlushIff` | src/mod/rtw_bridge.c:444-452 | The same of the final flush on any socket. |
| `Greetings.OnlyStopOnNewSocket` | src/mod/rtw_bridge.c:427-457 | Socket lost, stop begun, reconnect, stop carried out: all the new socket receives is `stop`. |
| `Greetings.AudioBeforeConnected` | src/mod/rtw_bridge.c:113-124 | Socket lost, one frame captured, reconnect: the audio goes out before `connected`. |
| `Greetings.StartsOverRuns` | src/core/rtw_session.c:299-315 | Over a bridge run `start` is queued once plus once for every reconnect that no stop has overtaken. |
| `Greetings.SecondStart` | src/core/rtw_session.c:310-313 | Socket lost, reconnect: two. |
| `Greetings.StopIsLastIff` | src/mod/rtw_bridge.c:444-452 | Carrying out a stop leaves `stop` as the last message queued if and only if there is no socket or no completed mark. |
| `Greetings.MarkFollowsStop` | src/core/rtw_session.c:243-250 | A run whose history, and whose wire if the socket takes two frames, ends with `stop` and then the acknowledgement of a mark. |
| `Readback.HistoryReadsBack` | src/core/rtw_session.c:87-147 | In every run, every message ever queued is built, and its document parses back to the same kind, stream, number, chunk, timestamp, audio or mark name, nothing cut. |
| `Readback.HistoryDocumented` | src/core/rtw_session.c:87-147 | The document of every message ever queued has the fields of its kind, each with the message's value, and the message the names of its stream. |
| `Readback.WireReadsBack` | src/mod/rtw_bridge.c:24-38 | The same of every message any socket receives in any bridge run. |
| `Readback.ReadsBackIff` | src/core/rtw_protocol.c:22-260 | For every message: its document parses back to the same kind, stream, number and contents if and only if its identifiers and name fit the reader's fields and its audio is nonempty and fits the reader's buffer. Account, call and custom parameters are not read. |
| `Bridge.FlushEnds` | src/mod/rtw_bridge.c:24-38 | A flush ends drained exactly when the queue is empty; otherwise exactly `budget` frames went out and the refused one is still queued; in both cases no completed mark is left. |
| `Bridge.RefusedStaysHead` | src/mod/rtw_bridge.c:31-37 | When a send fails the refused frame is still the head: one more accepted frame would have carried exactly it. |
| `Bridge.FlushBounded` | src/mod/rtw_bridge.c:24-38 | Frames sent plus the backlog left (queued frames and pending marks) never exceed the backlog at the start, although each peek may queue acknowledgements and evict. |
| `Bridge.FlushWithRoomDrains` | src/mod/rtw_bridge.c:24-38 | A socket that takes as many frames as the backlog gets everything. |
| `Bridge.FlushIsRun` | src/mod/rtw_bridge.c:24-38 | A flush is a run of harvest and drop-head steps. |
| `Bridge.CutIsInvisibleIff` | src/mod/rtw_bridge.c:524-561 | Cutting a callback after `a` changes nothing, whatever follows, if and only if `a` is a whole number of output samples (1, 2 or 4 input samples each). |
| `Bridge.FoldAt` | src/mod/rtw_bridge.c:524-552 | Which input samples an output sample comes from: the left ones, and at 16 kHz the mean of two of them while there are two. |
| `Bridge.HoldIsTransparent` | src/mod/rtw_bridge.c:537-544 | Pushing two pieces with the remainder of the first held back queues the same frames and leaves the same remainder as pushing them together. |
| `Bridge.Average` | src/mod/rtw_bridge.c:548-552 | The mean of two samples rounded towards zero, never outside the two. |
| `Bridge.Clamp16` | src/mod/rtw_bridge.c:230-239 | The result is a 16-bit value nearest to the argument. |
| `Bridge.Inject` | src/mod/rtw_bridge.c:611-623 | Under the bytes read the frame holds the decoded samples, alone or as saturated sums with its own; behind them it is silent in replace mode after a nonempty read, and untouched otherwise. |
| `Bridge.Tech.FlushOutbound` | src/mod/rtw_bridge.c:24-38 | The object's session, readiness and wire after a flush are those of the flush function; nothing happens without a ready socket. |
| `Bridge.Tech.FlushLoop` | src/mod/rtw_bridge.c:31-37 | The peek, send, drop loop terminates by the backlog and computes the flush function. |
| `Bridge.Tech.OnReadPcm16` | src/mod/rtw_bridge.c:515-564 | Queues the whole frames of the held samples plus the folded callback and holds the remainder, or does nothing when shutting down, paused or not locked. |
| `Bridge.Tech.CaptureAll` | src/mod/rtw_bridge.c:524-561 | The part under the lock, whatever the flags have become: whole frames are handed to the session, the remainder is held. |
| `Bridge.Tech.Connect` | src/mod/rtw_bridge.c:403-422 | The first socket gets what the session has queued, then the worker runs. |
| `Bridge.Tech.TakeSample` | src/mod/rtw_bridge.c:526-552 | One turn of the sample loop yields the first sample of the folded rest and leaves exactly the fold of what follows. |
| `Bridge.Tech.ApplyWriteFrame` | src/mod/rtw_bridge.c:588-625 | Reads at most 640 bytes, replaces or mixes them into the frame (zeros after a short read in replace mode, untouched tail in mix mode, untouched frame on an empty read), and closes a pending latency sample on an empty read. |
| `Bridge.Tech.OnText` | src/mod/rtw_bridge.c:40-55 | A peer text is handled and flushed unless shutting down; the same path serves the module's own commands until cleaning starts; the wire grows by exactly what the flush sends. |
| `Bridge.Tech.OnReconnected` | src/mod/rtw_bridge.c:113-124 | The socket is up; unless shutting down, the handshake is queued behind what waits and the queue is flushed. |
| `Bridge.Tech.PauseAudio` | src/mod/rtw_bridge.c:468-480 | Pauses bridge and session together until cleaning starts. |
| `Bridge.Tech.BeginStop` | src/mod/rtw_bridge.c:437-438 | Sets both flags of the end and nothing else. |
| `Bridge.Tech.FinishStop` | src/mod/rtw_bridge.c:444-457 | Queues stop, tries one last flush if a socket exists even when it was marked unready, then gives up the socket. |
| `SessionRuns.DeliveryAccounted` | src/core/rtw_queue.c:40-100 | In every session run the queue is the enqueue history from index (drops + sent) on; every earlier message is labelled sent or evicted, once; what was sent is in enqueue order. |
| `SessionRuns.AudioAccounted` | src/core/rtw_playout.c:42-76 | In every session run the bytes heard are the accepted ones in order minus those discarded by clears; enqueued = dequeued + discarded + buffered. |
| `SessionRuns.HistoryInLanguage` | src/core/rtw_session.c:284-315 | The history of every run is: connected start, then any mix of media, mark and (connected start), then, exactly when the session is stopped, one stop followed only by marks. |
| `SessionRuns.HistoryNumbered` | src/core/rtw_session.c:107-145 | Numbers of start, media, mark and stop run 1, 2, 3, ... modulo 2^32 across reconnects; the k-th media message has chunk k and timestamp 20(k-1), modulo 2^32. |
| `SessionRuns.GapsAreEvictions` | src/core/rtw_queue.c:46-62 | Before wrap-around, a departed number is on the wire if and only if its message was not evicted. |
| `SessionRuns.AcksFollowReports` | src/core/rtw_session.c:228-241 | The names acknowledged over a run are exactly the names the playout reported, in order. |
| `SessionRuns.MarksAccounted` | src/core/rtw_session.c:182-241 | Acknowledgements are an in-order selection of the accepted marks without repetition; accepted = acknowledged + beyond the per-harvest limit + pending. |
| `SessionRuns.ClearAcknowledgesAll` | src/core/rtw_session.c:185-198 | A clear acknowledges every pending mark in order and leaves neither audio nor marks. |
| `SessionRuns.LatencyOverRuns` | src/core/rtw_session.c:18-45 | Over every run the buckets sum to the sample count, samples plus the armed one never exceed the clears, and the average that is reported never exceeds the maximum. |
| `Tallies.LatencyTallied` | src/core/rtw_session.c:18-45 | Over every run the latency fields are those of a list of samples, one for the first empty write behind a clear, in microseconds of a 64-bit clock: count, sum, maximum, last, and a histogram over eight ranges given in numbers. |
| `Tallies.AverageIs` | src/mod/rtw_bridge.c:647-650 | The average is the sum over the count, rounded down. |
| `Tallies.EventsCounted` | src/core/rtw_session.c:173-190 | Over every run clears and accepted media texts are counted one by one. |
| `Tallies.HistoryNamed` | src/core/rtw_session.c:87-121 | Every message of every run carries the stream, account and call it was started with and the custom parameters given, and the history opens with connected and start number 1. |
| `SessionRuns.RunSound` | src/core/rtw_session.c:123-315 | Histories of queue and playout stay those of the session, and the playout keeps following its timeline. |
| `Session.PayloadStaysInBuffer` | src/core/rtw_session.c:153-165 | Decoding a payload shorter than 2^16 characters never writes past the 64 KiB buffer, whatever its padding. |
| `Session.UnacceptedChangesNothing` | src/core/rtw_session.c:149-205 | Whenever a text is answered with anything but 0 (not running, malformed, foreign stream, audio that does not fit, a mark too many) the session is left exactly as it was. |
| `Session.MediaReachesItsStream` | src/core/rtw_session.c:165-181 | A built media document is taken as playable audio, byte for byte, exactly by a session of the stream it names (or when it names none), is foreign to any other, and is refused when its audio exceeds 64 KiB. |
| `Session.MarkReachesItsStream` | src/core/rtw_session.c:165-184 | The same of a built mark document and its name. |
| `Session.ClearReachesItsStream` | src/mod/rtw_bridge.c:482-496 | The clear the module writes for a stream is a barge-in for the session of that stream and foreign to any other. |
| `Documents.AnyMediaPlays` | src/core/rtw_protocol.c:219-249 | Any document of event media for the running session's stream or for none, whose media object holds a payload that encodes at most 65536 bytes, is audio, byte for byte, whatever other fields are present or missing; the answer is 0 if it fits and -2 if not. |
| `Documents.AnyMediaText` | src/core/rtw_protocol.c:219-249 | For any media document at all: refused without a decodable payload, foreign for another stream, audio otherwise. |
| `Documents.AnyMarkPins` | src/core/rtw_protocol.c:250-257 | Any mark document for the stream is queued under its name, cut to 127 bytes, or under none; the answer is 0 while fewer than 64 are pending and -1 then. |
| `Documents.AnyClearInterrupts` | src/core/rtw_session.c:185-190 | Any clear document for the stream is a barge-in. |
| `Documents.OtherEventsIgnored` | src/core/rtw_session.c:199-201 | Every other event name is answered 0 and changes nothing. |
| `Documents.OtherStreamsForeign` | src/core/rtw_session.c:169-172 | What names another stream is answered 1. |
| `Documents.NonsenseRefused` | src/core/rtw_protocol.c:199-207 | Text that is no document, documents without an event name, and anything while the session does not run are answered -1. |
| `Documents.EventTable` | src/core/rtw_protocol.c:171-182 | Which event name is which, and that all others are unknown. |
| `Documents.AnyMediaFields` | src/core/rtw_protocol.c:224-240 | Track, chunk and timestamp of any media document, each optional. |
| `Documents.AnyNumber` | src/core/rtw_protocol.c:213-218 | The number of any document, as a string or as a number. |
| `Documents.AnyDigit` | src/core/rtw_protocol.c:258-266 | The digit of any dtmf document, cut to 7 bytes. |
| `Session.PushFramesAppend` | src/core/rtw_session.c:132-146 | Pushing whole frames and then the rest equals pushing everything at once, counters included. |
| `Session.LiveSession.constructor` | src/core/rtw_session.c:47-62 | An idle session with room for the given number of frames, 64 for zero, and of playout bytes, 64000 for zero. |
| `Session.LiveSession.StartStream` | src/core/rtw_session.c:87-121 | Identifiers cut to 63 bytes, the call named like the stream and the account by a placeholder where they are not given, next number 2, chunk 1, timestamp 0, connected and the numbered start queued, running. |
| `Session.LiveSession.PushPcm16` | src/core/rtw_session.c:123-147 | Queues one media message per whole 160-sample block and returns what is left over, or -1 unless running and not paused. |
| `Session.LiveSession.HandlePeerJson` | src/core/rtw_session.c:149-205 | The state and result of every kind of text: refused, foreign stream, media accepted or too long, mark accepted or too many, clear, ignored. |
| `Session.LiveSession.ClearNow` | src/core/rtw_session.c:185-198 | Empties the playout, arms the latency sample and queues one numbered acknowledgement per pending mark. |
| `Session.LiveSession.PopOutbound` | src/core/rtw_session.c:207-226 | Harvests, then removes and returns the head. |
| `Session.LiveSession.Harvest` | src/core/rtw_session.c:228-241 | Removes completed marks and acknowledges the first eight. |
| `Session.LiveSession.PeekOutbound` | src/core/rtw_session.c:243-250 | Harvests in any state, then shows the head without removing it. |
| `Session.LiveSession.DropOutboundHead` | src/core/rtw_session.c:252-258 | Removes the head, if there is one. |
| `Session.LiveSession.ReadPlayoutBytes` | src/core/rtw_session.c:260-266 | Reads playout bytes and touches nothing else of the session. |
| `Session.LiveSession.RecordClearLatency` | src/core/rtw_session.c:18-45 | Last, maximum, sum, count and one bucket move together. |
| `Session.LiveSession.NoteWriteAfterClear` | src/core/rtw_session.c:268-282 | Records one sample per armed clear, on the first empty write. |
| `Session.LiveSession.StopNow` | src/core/rtw_session.c:284-297 | One numbered stop, once; refused when idle or stopped. |
| `Session.LiveSession.RehandshakeNow` | src/core/rtw_session.c:299-315 | Queues connected and the next numbered start while running; refused otherwise. |
| `OutboundQueue.FifoWithCountedEvictions` | src/core/rtw_queue.c:40-100 | Over every run from an empty queue: contents are the history minus a departed prefix, and labels split that prefix into taken, in order, and evicted, as counted. |
| `OutboundQueue.StepAccounted` | src/core/rtw_queue.c:40-100 | Every single operation keeps that accounting. |
| `OutboundQueue.BoundedQueue.Create` | src/core/rtw_queue.c:6-18 | An empty queue of the given capacity; no capacity is refused. |
| `OutboundQueue.BoundedQueue.Enqueue` | src/core/rtw_queue.c:40-64 | Appends, evicting and counting the oldest entry when full. |
| `OutboundQueue.BoundedQueue.Pop` | src/core/rtw_queue.c:66-77 | Removes and returns the oldest entry, or reports an empty queue. |
| `OutboundQueue.BoundedQueue.Peek` | src/core/rtw_queue.c:79-89 | Shows the oldest entry and changes nothing. |
| `OutboundQueue.BoundedQueue.Drop` | src/core/rtw_queue.c:91-100 | Removes the oldest entry, or reports an empty queue. |
| `Refinement.RingRefinesTimeline` | src/core/rtw_playout.c:30-131 | Every run of the ring is a run of the absolute-position machine: same bytes out, same reports, each counter equal to max(0, position - bytes passed), positions sorted, all bytes and marks accounted for. |
| `Refinement.HarvestCutsPrefix` | src/core/rtw_playout.c:90-112 | In every reachable state counters are sorted and at most the fill level, and a harvest removes exactly the prefix whose counters are zero, in insertion order. |
| `Refinement.BytesConserved` | src/core/rtw_playout.c:42-76 | Bytes read are the accepted ones in order minus those discarded by clears, the rest is buffered, and enqueued = dequeued + discarded + size. |
| `Refinement.MarksConserved` | src/core/rtw_playout.c:78-131 | Reports are an in-order selection of the accepted marks; those that left unreported are counted; the rest is pending in order. |
| `Refinement.ClearsCounted` | src/core/rtw_playout.c:129 | The clear counter counts the clears of a run. |
| `Refinement.ClearForgetsThePast` | src/core/rtw_playout.c:114-131 | After a clear the ring accepts, plays, marks, reports and stores what a fresh ring would: nothing from before it comes out later. |
| `Playout.PlayoutRing.Create` | src/core/rtw_playout.c:7-19 | An empty ring of the given capacity; no capacity is refused. |
| `Playout.PlayoutRing.AdvanceMarks` | src/core/rtw_playout.c:30-40 | Every counter goes down by the bytes read, stopping at zero. |
| `Playout.PlayoutRing.WriteBytes` | src/core/rtw_playout.c:42-58 | All bytes are appended or, when they do not fit, none and nothing changes. |
| `Playout.PlayoutRing.ReadBytes` | src/core/rtw_playout.c:60-76 | Copies the oldest bytes out in order, leaves the rest of the caller's buffer alone, and moves the marks. |
| `Playout.PlayoutRing.QueueMark` | src/core/rtw_playout.c:78-88 | Appends the truncated name behind all buffered bytes, or refuses the 65th mark. |
| `Playout.PlayoutRing.PopCompleted` | src/core/rtw_playout.c:90-112 | The in-place compaction leaves exactly the pending marks in order and reports the first `maxOut` completed ones. |
| `Playout.PlayoutRing.ClearAll` | src/core/rtw_playout.c:114-131 | Empties ring and marks and reports the first `maxOut` names. |
| `WebSocket.ChunkingIsInvisible` | src/core/rtw_ws_client.c:454-545 | For every stream and every way of cutting it into reads, the texts delivered and the outcome are those of one parse of the whole, and until a close frame the buffer is exactly the unparsed tail. |
| `WebSocket.SameStreamSameTexts` | src/core/rtw_ws_client.c:515-545 | Two cuttings of the same bytes deliver the same texts with the same outcome. |
| `WebSocket.FramesRoundTrip` | src/core/rtw_ws_client.c:400-437 | Any texts below 65536 bytes, framed with any keys and concatenated, parse back to exactly those texts and leave nothing over. |
| `WebSocket.DeliveredAsSent` | src/core/rtw_ws_client.c:400-545 | The same through the incremental reader, for every cutting of the bytes. |
| `WireFrames.EveryFrame` | src/core/rtw_ws_client.c:454-513 | For any first byte, any key or none, and either length form: the low four bits of the first byte decide whether the payload is delivered (1), the connection closes (8) or the frame is skipped. |
| `WireFrames.PartialFrame` | src/core/rtw_ws_client.c:464-482 | No proper beginning of a frame does anything. |
| `WireFrames.HugeFrame` | src/core/rtw_ws_client.c:468-470 | A length of 127 stops the reader, masked or not. |
| `WireFrames.ServerTextsDelivered` | src/core/rtw_ws_client.c:454-545 | Every list of texts below 65536 bytes in the unmasked frames a server writes is delivered exactly, for every cutting. |
| `WireFrames.StreamDelivered` | src/core/rtw_ws_client.c:454-545 | The same of any mixture of frames none of which closes. |
| `WireFrames.CloseEnds` | src/core/rtw_ws_client.c:499-504 | A close frame ends the connection behind the texts before it, for every cutting. |
| `WebSocket.SendText` | src/core/rtw_ws_client.c:400-437 | The frame byte by byte: 0x81, then 128 + length or 254 and two length bytes, high first, then the key, then each byte of the text combined with its key byte; 65536 bytes or more are refused. |
| `WebSocket.XorBits` | src/core/rtw_ws_client.c:431-433 | Combined bytes differ from the key bit for bit where the text has a one. |
| `WebSocket.WsClient.EnsureCap` | src/core/rtw_ws_client.c:439-452 | Grows to exactly what is needed and keeps the buffered bytes. |
| `WebSocket.WsClient.ProcessFrames` | src/core/rtw_ws_client.c:454-513 | The in-place loop delivers the texts of the pure parse, leaves its rest in front of the buffer and reports close and oversized headers; every text delivered takes at least two bytes out of the buffer. |
| `WebSocket.WsClient.TakeFrame` | src/core/rtw_ws_client.c:484-510 | A turn that goes on delivers the text, if it is one, and removes the frame, at least two bytes. |
| `WebSocket.WsClient.Poll` | src/core/rtw_ws_client.c:515-545 | The socket is offered at least 8192 bytes of room; what it returns acts as one step of the incremental reader; while polls succeed fewer than 65543 bytes stay buffered and the buffer stays within 73734 bytes; a closed client reads nothing. |
| `Protocol.DecimalRoundTrip` | src/core/rtw_protocol.c:213-216 | Every 32-bit number printed in decimal is read back by the full strtoul rule. |
| `Protocol.DecimalIs` | src/core/rtw_protocol.c:108-110 | Numbers are written in decimal digits, highest first. |
| `Protocol.StrToU32Is` | src/core/rtw_protocol.c:213-216 | How any number field is read: blanks, a sign, digits up to the first other character, saturation at 64 bits, the low 32 bits. |
| `Protocol.MediaRoundTrip` | src/core/rtw_protocol.c:87-125 | A built media document parses, exactly when its audio fits the reader's buffer, to the same number, chunk, timestamp and audio, with identifiers cut to the reader's bounds. |
| `Protocol.MarkRoundTrip` | src/core/rtw_protocol.c:127-146 | A built mark document parses to the same number and the truncated identifiers. |
| `Protocol.StartRoundTrip` | src/core/rtw_protocol.c:43-85 | A built start document parses as start with its stream and number. |
| `Protocol.StopRoundTrip` | src/core/rtw_protocol.c:148-169 | A built stop document parses as stop with its stream and number. |
| `Protocol.ConnectedRoundTrip` | src/core/rtw_protocol.c:22-41 | A built connected document parses as connected, without stream or number. |
| `Documents.StartDocument` | src/core/rtw_protocol.c:43-85 | Every field of a start document, by name and value. |
| `Documents.MediaDocument` | src/core/rtw_protocol.c:87-125 | Every field of a media document. |
| `Documents.MarkDocument` | src/core/rtw_protocol.c:127-146 | Every field of a mark document. |
| `Documents.StopDocument` | src/core/rtw_protocol.c:148-169 | Every field of a stop document. |
| `Base64.RoundTrip` | src/core/rtw_base64.c:21-99 | Decoding an encoding succeeds if and only if the bytes fit, and then gives them back. |
| `Base64.EncodeIs` | src/core/rtw_base64.c:28-50 | Every encoding character by character: three bytes as four letters of the alphabet of RFC 4648, highest bits first, the last one or two bytes extended by zeros and padded. |
| `Base64.QuadIs` | src/core/rtw_base64.c:84-95 | Which three bytes four values are, and how many of them padding leaves. |
| `Base64.ValueIff` | src/core/rtw_base64.c:3-14 | A character has a value exactly if it stands in the alphabet, and the value is its place. |
| `Base64.DecodeOkIff` | src/core/rtw_base64.c:54-99 | With room for everything, exactly the texts of letters, padding and white space decode whose significant characters come in fours and do not begin with four padding characters. |
| `Base64.WhiteSpaceIgnored` | src/core/rtw_base64.c:54-99 | Decoding any string, failures included, equals decoding it without blanks, tabs, CR and LF. |
| `Base64.CapacityKeptIffPaddingSafe` | src/core/rtw_base64.c:62-95 | The decoder keeps within every capacity if and only if no quad it reaches has three or four padding characters, four at the very start excepted. |
| `Base64.ThreePadsExceed` | src/core/rtw_base64.c:84-90 | `A===` stores a byte into no room. |
| `Base64.RoomSuffices` | src/core/rtw_base64.c:54-99 | Room for three bytes per four characters is enough for any input at all. |
| `Base64.EncodeBuffer` | src/core/rtw_base64.c:21-52 | Fills the buffer with the encoding and a terminator, or refuses a short buffer and leaves it alone. |
| `Base64.DecodeBuffer` | src/core/rtw_base64.c:54-99 | For every input and buffer: succeeds, fails and fills the buffer as the decoding function says, unless that stores more than the buffer holds, which is reported and cannot happen with safe padding or room for three bytes per four characters. |
| `Base64.ScanQuad` | src/core/rtw_base64.c:62-80 | The inner loop reads the next four significant characters, or all that are left, or finds a bad one. |
| `Mulaw.ExponentIsFloorLog2` | src/core/rtw_mulaw.c:8-25 | The 256-entry table is the floor of the binary logarithm. |
| `Mulaw.EncodeIs` | src/core/rtw_mulaw.c:27-38 | For every sample but -32768: the code is sign, segment and step of the clipped and biased magnitude, complemented, with the segments given in numbers. |
| `Mulaw.DecodeIs` | src/core/rtw_mulaw.c:41-50 | Every code stands for (132 + 8 step) times the segment's step size, less 132, with its sign. |
| `Mulaw.ErrorBound` | src/core/rtw_mulaw.c:27-50 | 32 times the error of one encode and decode is at most the magnitude plus 132, if and only if the sample is not -32768. |
| `Mulaw.OrderPreserved` | src/core/rtw_mulaw.c:27-50 | A sample's image stays below the image of every larger sample if and only if the sample is not -32768. |
| `Mulaw.SecondPassIsIdentity` | src/core/rtw_mulaw.c:27-50 | A second encode and decode changes nothing, for every sample. |
| `Mulaw.CodeRoundTrip` | src/core/rtw_mulaw.c:27-50 | Decode then encode gives the code back if and only if it is not 0x7F. |
| `Mulaw.MostNegativeBecomesSilence` | src/core/rtw_mulaw.c:28-34 | -32768 is encoded as 0x7F, which decodes to 0. |
| `Mulaw.BufferError` | src/core/rtw_mulaw.c:52-66 | A whole buffer stays within the error bound if and only if it does not contain -32768. |
| `Mulaw.EncodeBuffer` | src/core/rtw_mulaw.c:52-58 | Encodes every sample in place order and leaves the rest of the output alone. |
| `Mulaw.DecodeBuffer` | src/core/rtw_mulaw.c:60-66 | Decodes every byte in order and leaves the rest of the output alone. |

## Left out

- Sockets, DNS, TLS, the HTTP upgrade and random numbers: a read is an arbitrary chunk, a mask key four arbitrary bytes,
  and a flush is given the number of frames the socket takes before it refuses one.
- JSON text: documents are trees, so printing, escaping and parsing of text are not modelled. The queue holds message
  values, which `Readback.Build` turns into documents, instead of finished texts. The size limit of the frame writer
  on finished texts counts as a refused frame.
- Threads and locks: what an entry point does under the lock is one atomic step, a failed trylock is a flag of the
  step. Socket loss and renewal, which the worker performs without the lock, are steps of their own; a flush in progress
  is not interrupted. Callbacks that run after the stop has freed the bridge are not modelled as memory errors.
- Allocation failure, null arguments, and freeing. With memory available, building and queueing a message always
  succeeds, so the failure paths behind them do not appear.
- Counters of 64 bits and sizes are natural numbers; `seq`, `chunk` and `timestamp_ms` wrap at 2^32 and elapsed time at
  2^64.
- Strings contain no NUL character.
- Session.LiveSession.StartStream: states a second start too, but runs begin with exactly one, as the bridge does; a
  restart would reset the numbering.
- Base64.DecodeBuffer: where the original would write outside its buffer it stops and says so, because what follows such
  a write is undefined.
- Protocol.SequenceField: a JSON number outside the 32-bit range, whose conversion C leaves undefined, reads as zero.
- The in-place latency histogram is a sequence field; the bucket boundaries are exact.
- Reconnect attempts, backoff and sleeping: only the outcome of an attempt is a step.
- `rtw_bridge_on_write_pcm16`, statistics other than the latency average, URI checks, identifiers made from the channel
  UUID, mark-name checks and metadata splitting: they would add only easy members.
- `src/mod/mod_realtime_ws.c`, the harness, the simulator and the mock server are not part of this model.
