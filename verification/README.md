# Verification of ts-pf's message transport and stream codecs

A Dafny model of the parts of ts-pf whose correctness rests on hand-written
state, and proofs about every run of them:

- **The message transport** (`packages/message`, `message-server`,
  `message-client`): the frame codec, the bounded receive queue, the drain
  waiter, the hello handshake and lifecycle of a session, the in-memory duplex,
  the server's calls and router, the client's calls and link, and all of these
  composed into one connection.
- **Server-sent events and JSON lines** (`packages/sse`, `packages/stream`):
  line splitting, event parsing, the encoder with its keep-alive timer, and the
  reader of outputs. The parser follows sections 9.2.5 and 9.2.6 of the WHATWG
  HTML Standard, with the repository's own `close` event.
- **Three small cores**: the client's dedupe plugin, `inlineRefs` of the MCP
  schemas, and the extraction and injection of files.

## How it is built

JavaScript runs each stretch of code between two awaits to completion. Every
such stretch is one function from state to state, and what comes after an await
is a separate event: promises, timers, microtasks, iterators and the outcome of
a send are picked by an adversary, in any order and number. A theorem about
"every run" is about every list of such events.

Each stateful part comes twice. The state as a value carries the theorems over
all runs; the class with the source's fields carries the code, and each of its
methods is proved to move the object exactly as the value moves, so the theorems
hold of the objects. The pairs are `PushQueues` (both in one file), `Drains`,
`Sessions` and `MessageSessions`, `MemoryDuplexes` and `MemoryDuplexObjects`,
`ServerCalls` with `ServerMux` and `ServerCallObjects` with `RouterObjects`,
`ClientCalls` with `ClientMux` and `ClientCallObjects` with `DuplexLinkObjects`,
`SseEvents`, `SseStreams`, `Deduping` and `DedupePlugins`, `InlineRefs` with
`SchemaMeanings`, `Files`.
A few fields are observations that the source does not have: what was pushed,
pulled, sent or received, how a handler ended, and how often a promise settled.

What a part does is also said without its own functions, so that a wrong branch
would not go unnoticed: what every event comes to in terms of what is seen, and
for whole runs by definitions that read only the list of events, such as
`Drains.Decided`, `PushQueues.Accepted`, `MemoryDuplexes.Accepted`,
`SseStreams.Expected`, `Deduping.Reported`, or the grammar in `SseFields`.

`Connection` joins client, sessions, duplex and server into one `World` whose
texts are encoded and decoded on the way. `Wire`, `Streams`, `Ends` and
`Linkage` relate the two ends to what crosses the duplex, `EndToEnd` proves the
invariant of every run, and `Integrity` says what callers and handlers get.
`Composed` shows that sessions and duplex keep their own rules inside the whole,
`Waits` ties every waiting call to its drain promise, and `SampleRun` is one run
from the hello to the answer of a call. `JsonPointers` reads references as
RFC 6901 does; `SchemaMeanings` says with it what a schema means.

`dafny verify dfyconfig.toml` checks the project.

## Where the code does not do what one would expect

Each of these is proved, with a concrete run or input and the exact condition:

- A duplex that calls its close handlers from inside `send` leaves a session
  ready after it was closed, if that send is the hello-ok of an accept, or holding
  a drain promise after it was closed, if that send is answered with one
  (`Sessions.ReentrancyExactly`, `Sessions.StartExactly`,
  `Sessions.ClosedConnectionReopens`, `Sessions.ClosedConnectionHoldsDrain`). The
  lifecycle theorems are about the runs in which this does not happen; on the
  in-memory duplex it never does.
- The in-memory duplex settles all drain promises when its close is told, also
  of an end that is still above its mark (`MemoryDuplexes.StepStaysBounded`,
  `MemoryDuplexes.CloseAboveTheMark`).
- A server call that finishes does not release its input queue. Reads stay
  paused behind it exactly if it sends its last frame, neither cancelled nor
  closed, while its input is over the mark (`ServerMux.ReleasedExactly`,
  `ServerMux.ReadsStayPaused`), and then only its handler's own pulls resume them
  (`ServerMux.OnlyPullsResume`). On the client this cannot happen
  (`ClientMux.PausingIsExact`).
- The dedupe plugin leaves work running that nobody waits for when the first
  caller's signal aborts while `next()` is being called
  (`Deduping.AttendedExactly`, `Deduping.OrphanedWork`).
- A recursive schema with `definitions` keeps references into `definitions` but
  gets its definitions back under `$defs` only (`InlineRefs.KeptReferences`,
  `InlineRefs.DefinitionsDangle`).
- Inlining takes no notice of where it is: it drops properties that are called
  `$schema`, `$defs` or `definitions`, resolves constants that look like
  references, turns a reference to `false` beside containers into a schema that
  accepts everything, and drops the definition of a reference that it does not
  know, as one with an escaped name or a longer path
  (`SchemaMeanings.InliningKeepsMeaning`, `SchemaMeanings.PropertyIsLost`,
  `SchemaMeanings.ConstantIsReplaced`, `SchemaMeanings.NothingBecomesEverything`,
  `SchemaMeanings.EscapedIsLost`).
- A definition that is a string can come to stand as a `$ref` that was none
  (`InlineRefs.NoReferenceLeft`, `SchemaMeanings.StringBecomesReference`,
  `SchemaMeanings.ReferenceReplacesItself`).
- Objects that look like file placeholders do not survive the round trip
  (`Files.RoundTrip`, `Files.LookAlikeIsRefused`), and an object that occurs twice
  is refused as circular even when it is only shared (`Files.ExtractsExactly`,
  `Files.SharedIsRefused`).
- A JSON lines stream that is cut off is not noticed, and its last line may be
  damaged (`Jsonl.DamagedExactly`, `Jsonl.CutNumberIsRead`).

## Model

| member | source | states |
|---|---|---|
| Integrity.OutputIntegrity | packages/message-server/src/call.ts:195-229 | Over every run of client, duplex and server: what a caller's iterator has yielded is a prefix, in order, of what that id's handler produced; a clean end means the consumer called `return`, or the handler's iterator ended by itself and everything it produced was yielded |
| Integrity.InputIntegrity | packages/message-client/src/call.ts:259-307 | Over every run: what a handler's input iterator has yielded is a prefix of what the caller's iterator yielded; if it ends and the call was not cancelled, the caller's iterator had ended and all of it arrived |
| Integrity.ResultIntegrity | packages/message-client/src/call.ts:130-136 | Over every run: a call promise that resolves to a value resolves to exactly what the handler of its id returned, which that instance sent in one `result` and nothing else |
| Integrity.RequestIntegrity | packages/message-server/src/call.ts:79-108 | Over every run: the handler that serves a call is called with the path the caller gave, with an input stream exactly if the caller streams its input, and otherwise with exactly the input the caller gave, `null` becoming `undefined` |
| Integrity.ErrorIntegrity | packages/message-client/src/call.ts:159-176 | Over every run: a promise or iterator that fails with a server's error, and not because a frame of its own could not be sent, fails with the one error `result` its own handler's instance sent as its last frame; that error is the one for how that handler ended or for what became of its last frame, and the iterator has then yielded every item that instance sent |
| Integrity.NoInstanceNoOutput | packages/message-server/src/shared.ts:139-197 | Over every run: a call that never reached the server yields no item, ends cleanly only by the consumer's own `return`, and never resolves to a value |
| Integrity.InstancesMatchCalls | packages/message-server/src/shared.ts:199-221 | Over every run: every instance the server accepted belongs to a call the client made, and no call has two instances |
| Integrity.FlowControl | packages/message-client/src/duplex.ts:31-50 | Over every run with texts of at most `longest`: at most one client stream is over its mark and paused, and every open stream holds at most its mark and one text, because delivery stops as soon as a queue pauses |
| EndToEnd.BeginIsSound | packages/message/src/session.ts:109-112 | The connection invariant (both ends and the duplex keep their own rules, logs agree with the wire, each end has made of what it received exactly what was sent) holds once the client has said hello |
| EndToEnd.StepSound | packages/message/src/duplex.ts:94-110 | Any single step of any party, whatever its outcome, keeps the connection invariant |
| EndToEnd.EveryRunIsSound | packages/message/src/duplex.ts:94-156 | The connection invariant holds after any list of events chosen by an adversary |
| EndToEnd.ToClientSound | packages/message/src/session.ts:346-368 | Delivering the next text to the client keeps the invariant: the text decodes to the frame sent, and it reaches the call whose id it bears |
| EndToEnd.ToServerSound | packages/message/src/session.ts:346-368 | Delivering the next text to the server keeps the invariant, whether it is a hello, a call frame or a frame the router answers itself |
| EndToEnd.CloseToldSound | packages/message/src/duplex.ts:140-156 | Telling both sessions of the close keeps the invariant: both ends close their calls |
| EndToEnd.ReceivedWasSent | packages/message/src/duplex.ts:94-138 | What either end has received for an id is a prefix of the frames the other end has logged for that id |
| Composed.SessionsAreLawful | packages/message/src/session.ts:44-447 | Over every run of a connection both of its sessions, with all the frames their owners send, keep the lifecycle, have been given exactly the drain promises that the duplex issued, and remember every pending one until they are closed |
| Composed.StepByRun | packages/message/src/duplex.ts:86-172 | Whatever a step of the connection does to the duplex is a run of the duplex's own events, with texts no longer than those of the step |
| Composed.PipeIsBounded | packages/message/src/duplex.ts:94-138 | Over every run of a connection the duplex keeps its rules, and until a close is told each end holds at most the mark and one longest text per pending drain promise |
| Waits.WaitsEndWithTheirReason | packages/message/src/session.ts:154-166 | Over every run of a connection, a call of either end that waits for the duplex to drain waits for a promise it was given, and that promise is settled unless the peer's end is over its mark or in a flush and the close has not been told |
| Waits.ServerBeginsToWait | packages/message-server/src/call.ts:213-223 | A server's call begins to wait only when its iterator has yielded, and exactly that item went out with the newest drain promise of its session |
| Waits.ClientBeginsToWait | packages/message-client/src/call.ts:275-289 | A client's call begins to wait only when its input iterator has yielded, and exactly that item went out with the newest drain promise of its session |
| SampleRun.ACallIsServed | packages/message-server/src/call.ts:174-193 | For every path, input and output, a run of a whole connection: hello, hello-ok, a unary call, an instance that is called with that path and input, its one result with what it returned, and the caller's promise resolved to it |
| Linkage.InboundMoves | packages/message/src/session.ts:217-236 | Whatever a session makes of an inbound text, it puts at most one handshake frame on the wire itself and never goes back, and it hands a frame up only if it was ready and stays ready |
| Streams.CallStepSameOut | packages/message-client/src/call.ts:164-252 | No event of the client's own (abort, pump, drain, consumer) adds, drops or reorders an item its output iterator was given |
| Streams.FrameOut | packages/message-client/src/call.ts:122-157 | After any frame a call's output holds exactly the items of the frames received for its id while it is live, and a prefix of them afterwards; `done` came last |
| Streams.InputFrameIn | packages/message-server/src/call.ts:153-162 | After any input frame a server call's input queue was given exactly the items received for its id, and it is closed by `in-done` |
| FrameCodec.RoundTrip | packages/message/src/frame.ts:122-206 | A frame's encoding is accepted exactly when the frame is well formed, and then decodes to the frame itself, a `null` call input becoming absent |
| FrameCodec.AcceptedIsEncoding | packages/message/src/frame.ts:179-314 | Every accepted object is the encoding of the frame it decodes to, up to a `null` call input: nothing is invented or lost |
| FrameCodec.RejectionCarriesId | packages/message/src/frame.ts:190-192 | A rejection carries an id exactly when the value is an object whose `id` is a non-empty string, and then that id |
| FrameCodec.CallReencode | packages/message/src/frame.ts:236-256 | An accepted `call` re-encodes to its object, but for a `null` input |
| FrameCodec.ResultReencode | packages/message/src/frame.ts:257-285 | An accepted `result`, successful or not, re-encodes to exactly its object |
| FrameCodec.ErrorRoundTrip | packages/message/src/frame.ts:92-120 | A wire error comes back from its JSON exactly when its code is not empty; otherwise it is refused |
| FrameCodec.HandshakeIsSpelled | packages/message/src/frame.ts:5-11 | The texts of hello, hello-ok and hello-error, key by key |
| FrameCodec.CallIsSpelled | packages/message/src/frame.ts:13-19 | The text of a call, key by key: its path, its input if there is one, and `stream` only when true |
| FrameCodec.FailureIsSpelled | packages/message/src/frame.ts:27-31 | The text of an error result, key by key, with the error's data only if there is any |
| Reads.FollowKeepsExact | packages/message-client/src/duplex.ts:38-49 | Counting one queue's pause or resume keeps the gate exact: the duplex is paused while and only while the count is positive |
| Reads.ResumeManyKeepsExact | packages/message-server/src/shared.ts:125-136 | Any number of paused queues resuming lowers the count by that number and keeps the gate exact |
| Reads.ReadGate.PauseReads | packages/message-server/src/shared.ts:125-130 | The count goes up, and the duplex is paused by the first |
| Reads.ReadGate.ResumeReads | packages/message-server/src/shared.ts:131-136 | The count goes down, and the duplex is resumed by the last |
| PushQueues.EveryRunIsGood | packages/message/src/push-queue.ts:31-136 | Over every run: pulled values are the pushed ones in order, nothing is dropped, the end is seen only after every buffered value and stays, the size is that of the entries, a consumer waits only at an empty open queue, a paused queue is open and above half its mark, an open unpaused one is at most at its mark, and pause and resume strictly alternate |
| PushQueues.EveryPullIsAccountedFor | packages/message/src/push-queue.ts:117-133 | Every `next()` ever made has settled, or is the one pending, or was overwritten by a second concurrent `next()` |
| PushQueues.AListWithAReader | packages/message/src/push-queue.ts:31-136 | Over every run from a new queue: the pulls are answered in order with exactly the values pushed before the first end or failure, every later one with that end or failure, and a pull hangs only while there is nothing to answer it with |
| PushQueues.PausesExactly | packages/message/src/push-queue.ts:46-116 | A queue pauses exactly by a push that takes what it holds above the mark while it is open, stays paused while more than half the mark is held, and resumes by a pull that leaves half or less or by a close |
| PushQueues.OverwrittenExactly | packages/message/src/push-queue.ts:117-133 | A pull is lost exactly if another is made while it waits |
| PushQueues.PushKeeps | packages/message/src/push-queue.ts:89-100 | A push keeps all of these, with and without a waiting consumer |
| PushQueues.HandedOver | packages/message/src/push-queue.ts:64-72 | A push to a queue where a consumer waits settles that consumer with the pushed value and leaves the buffer empty |
| PushQueues.ClosedIs | packages/message/src/push-queue.ts:101-116 | Ending or failing answers the waiting consumer and resumes a paused queue; the first close wins |
| PushQueues.CloseKeeps | packages/message/src/push-queue.ts:101-116 | Ending or failing keeps every rule of the queue |
| PushQueues.NextKeeps | packages/message/src/push-queue.ts:119-132 | `next()` keeps every rule of the queue |
| PushQueues.PushQueue.constructor | packages/message/src/push-queue.ts:34-44 | A new queue is empty, open and unpaused |
| PushQueues.PushQueue.Take | packages/message/src/push-queue.ts:46-54 | The oldest value is handed out; the gate hears of a resume exactly when the buffer falls to half the mark |
| PushQueues.PushQueue.Release | packages/message/src/push-queue.ts:56-62 | A paused queue resumes and tells the gate, any other is left alone |
| PushQueues.PushQueue.SettleWaiter | packages/message/src/push-queue.ts:64-86 | A waiting consumer gets the oldest value, or else the end or the failure, or else goes on waiting |
| PushQueues.PushQueue.Push | packages/message/src/push-queue.ts:89-100 | The object moves as the queue proved above, and the gate follows its pausing |
| PushQueues.PushQueue.Finish | packages/message/src/push-queue.ts:101-116 | `end` and `fail` move the object as the queue proved above, once |
| PushQueues.PushQueue.Next | packages/message/src/push-queue.ts:119-132 | The answer is there at once exactly when the queue has a value or is closed, and it is the newest settled pull |
| Drains.EveryRunIsGood | packages/message/src/backpressure.ts:108-179 | Over every run: one wait at a time, each settled at most once and all but the last settled, a timer only for the pending wait, no timeout without one, and the hook hears of the first wait once and of every timeout |
| Drains.FirstOutcomeStays | packages/message/src/backpressure.ts:124-136 | The first outcome of a wait is its only one, whatever still fires afterwards |
| Drains.FirstComesFirst | packages/message/src/backpressure.ts:108-162 | Over every run: a wait comes out as the first, after it began, of its drain promise (drained), its timer if there is a timeout (timed out) and a cancel (cancelled), once; it hangs if there is none of them; the hook hears of the first wait and of exactly the waits that timed out |
| Drains.WaitBegins | packages/message/src/backpressure.ts:117-157 | A wait begins exactly if every earlier one has settled, pending and with its timer; otherwise it is refused and nothing changes |
| Drains.DrainWaiter.Wait | packages/message/src/backpressure.ts:117-157 | A wait beside a pending one is refused and changes nothing; another arms its timer and tells the hook of the first stall |
| Drains.DrainWaiter.SettleWait | packages/message/src/backpressure.ts:124-136 | Only the pending wait settles, which stops its timer; a timeout is told to the hook |
| Drains.DrainWaiter.OnTimerFired | packages/message/src/backpressure.ts:138-142 | A timer that fires settles its own wait, if still pending, as timed out |
| Drains.DrainWaiter.CancelWait | packages/message/src/backpressure.ts:160-162 | A pending wait settles as cancelled; without one nothing happens |
| Sessions.Lifecycle | packages/message/src/session.ts:44-447 | Over every run in which no send breaks, so over every run of a duplex that never closes from inside `send`: frames are handed up only after ready, `ready` settles once and resolves exactly if ready was reached, `onClose` comes once and only after closing, nothing is transmitted after closing, at most one hello-ok; a closed session has no drain promise pending and has settled `ready` |
| Sessions.EveryRunIsGood | packages/message/src/session.ts:44-447 | The session invariant holds over every such run, drain promises included |
| Sessions.CalmIsUnbroken | packages/message/src/session.ts:127-147 | A duplex that never runs its close handlers from inside `send` breaks no send of any run |
| Sessions.StepMovesForward | packages/message/src/session.ts:173-447 | The state never goes back and never leaves `closed`, unless a send breaks |
| Sessions.EventIsSeen | packages/message/src/session.ts:109-447 | From every good session, what the outside sees of any event, in order and nothing else: for each text of the handshake and after it, the timer, an `onHello` that settles, a send, a close from either side and a drain promise; a closed session lets nothing be seen any more |
| Sessions.HelloTimesOut | packages/message/src/session.ts:209-215 | From every good session that waits for hello with its timer armed, the timer closes it: `ready` is rejected, the duplex closed and the owner told, each once; in any other session the timer does nothing |
| Sessions.FatalTextsClose | packages/message/src/session.ts:217-368 | A text closes the session if and only if it is too long, not JSON, not an object, no hello-ok for a client or no first hello for a server that waits, or has no id afterwards; of the others each frame is handed up, each invalid one with an id reported, a hello accepted, a hello-ok makes ready |
| Sessions.SendIs | packages/message/src/session.ts:114-147 | What a send answers: closed, oversize, unserialisable, or sent with a drain promise that is then held exactly if the duplex gave one |
| Sessions.DrainIs | packages/message/src/session.ts:154-166 | A drain promise that settles is given up; one that fails closes, which settles all |
| Sessions.TimerIsCleared | packages/message/src/session.ts:425-431 | The timer stays armed exactly as long as the session waits for hello |
| Sessions.HelloIsSaid | packages/message/src/session.ts:197-207 | A new client says hello first, and closes if it cannot; a new server says nothing |
| Sessions.ComplaintIs | packages/message/src/session.ts:289-313 | A server's answer to a first text that it does not accept says which: no hello, a hello of another version, or a broken one |
| Sessions.ReentrancyExactly | packages/message/src/session.ts:127-166 | From any good session an event keeps it good if and only if the duplex does not close during one of its sends that is the hello-ok of an accept, or that is answered with a drain promise: a send of the owner's, the hello-error to an unwelcome hello, or the hello-error of a failed accept |
| Sessions.StartExactly | packages/message/src/session.ts:109-112 | A new session is good if and only if it is not a client whose hello is answered with a drain promise by a duplex that closes during that send |
| Sessions.ReentrantFailure | packages/message/src/session.ts:370-380 | A failed handshake during whose hello-error the duplex closes keeps the invariant if and only if that send is not answered with a drain promise |
| Sessions.ClosedConnectionReopens | packages/message/src/session.ts:334-341 | A concrete accept whose hello-ok makes the duplex close: the session is ready after it was closed |
| Sessions.ClosedConnectionHoldsDrain | packages/message/src/session.ts:370-380 | A concrete accept that fails while its hello-error makes the duplex close: the closed session holds that send's drain promise |
| Sessions.AcceptKeeps | packages/message/src/session.ts:315-344 | An accept that resumes after its `onHello`, whichever way that settled, keeps the invariant: it says hello-ok only if no close came in between |
| Sessions.InboundKeeps | packages/message/src/session.ts:217-236 | Any inbound text, in any state, keeps the invariant if the duplex does not close during the answer |
| Sessions.ReentrantInbound | packages/message/src/session.ts:217-313 | If it does, the text keeps the invariant if and only if it is not answered with a hello-error that gets a drain promise |
| Sessions.SendKeeps | packages/message/src/session.ts:114-147 | Any send but the hello-ok of an accept, whatever becomes of its text, keeps the invariant if the duplex does not close during it |
| Sessions.CloseKeeps | packages/message/src/session.ts:173-195 | Both ways of closing keep the invariant and end closed |
| MessageSessions.MessageSession.constructor | packages/message/src/session.ts:70-112 | A client says hello at once and closes if it cannot; a server waits |
| MessageSessions.MessageSession.Send | packages/message/src/session.ts:114-147 | Refused when closed, unencodable or oversize; a throwing duplex closes the session; otherwise transmitted |
| MessageSessions.MessageSession.UntilDrainedOrClosed | packages/message/src/session.ts:154-166 | A drain promise is remembered until it settles |
| MessageSessions.MessageSession.OnDrain | packages/message/src/session.ts:160-165 | A drain promise settles once; a rejection closes the session first |
| MessageSessions.MessageSession.Close | packages/message/src/session.ts:173-195 | Closes once: drains settled, `ready` failed if pending, duplex closed, owner told |
| MessageSessions.MessageSession.OnDuplexClose | packages/message/src/session.ts:382-396 | The same from the duplex's side, without closing it again; the owner is told once |
| MessageSessions.MessageSession.EnterClosed | packages/message/src/session.ts:398-407 | Closing starts a new generation and settles every pending drain |
| MessageSessions.MessageSession.SucceedReady | packages/message/src/session.ts:409-415 | `ready` resolves unless it has settled |
| MessageSessions.MessageSession.FailReady | packages/message/src/session.ts:417-423 | `ready` rejects unless it has settled |
| MessageSessions.MessageSession.NotifyOnClose | packages/message/src/session.ts:433-446 | The owner hears of the close once |
| MessageSessions.MessageSession.OnHelloTimeout | packages/message/src/session.ts:209-215 | The hello timer closes a session that still waits, and no other |
| MessageSessions.MessageSession.OnInbound | packages/message/src/session.ts:217-236 | Ignored when closed, closing when oversize, otherwise handshake or message; returns what is handed up |
| MessageSessions.MessageSession.Handshake | packages/message/src/session.ts:238-313 | A text that is no object closes; a server suspends on a valid first hello and refuses any other |
| MessageSessions.MessageSession.ClientHandshake | packages/message/src/session.ts:268-287 | Only a hello-ok makes a client ready; anything else fails `ready` and closes |
| MessageSessions.MessageSession.FailHandshake | packages/message/src/session.ts:370-380 | The peer is told a hello-error and the session closes, once |
| MessageSessions.MessageSession.OnHelloSettled | packages/message/src/session.ts:315-344 | The suspended accept goes on only in the generation it began in: hello-ok and ready, or a failed handshake |
| MessageSessions.MessageSession.ReadyMessage | packages/message/src/session.ts:346-368 | A frame is handed up, an invalid one with an id reported, anything else closes |
| MemoryDuplexes.EveryRunIsGood | packages/message/src/duplex.ts:78-174 | Over every run: received texts are a prefix of those sent, an idle open end with queued texts is paused or has exactly one flush scheduled, drain promises settle in order and none is pending at or below the mark or after the close is told, and nothing is scheduled behind the close |
| MemoryDuplexes.CloseComesLast | packages/message/src/duplex.ts:144-148 | When the close is about to be told, an unpaused end that was not resumed since the close has received every text sent to it; once told, every drain promise ever issued has settled |
| MemoryDuplexes.NothingIsDropped | packages/message/src/duplex.ts:122-138 | Over every run: what an end has received, and then what waits for it, are exactly the texts sent to it before the first close, in order |
| MemoryDuplexes.PromisedExactly | packages/message/src/duplex.ts:122-138 | A sender is given a drain promise exactly if its send to an open pipe leaves more characters undelivered than the mark |
| MemoryDuplexes.SettledExactly | packages/message/src/duplex.ts:86-110 | The drain promises of an end are settled exactly by the end of a flush that leaves no more than the mark, and by the close; all of them, in order |
| MemoryDuplexes.ReceivedExactly | packages/message/src/duplex.ts:94-104 | An end receives a text exactly by a turn of its own flush while it is not paused, the oldest first, and is paused from its `pause` to its `resume` |
| MemoryDuplexes.TasksRunInOrder | packages/message/src/duplex.ts:112-156 | Microtasks run one at a time in the order queued; a flush ends exactly when its end is paused or has nothing left |
| MemoryDuplexes.StepStaysBounded | packages/message/src/duplex.ts:94-138 | An event keeps the bound (mark plus one longest text per pending drain promise) if and only if it does not tell a close to an end above its mark |
| MemoryDuplexes.EveryRunIsBounded | packages/message/src/duplex.ts:94-138 | The bound holds over every run until a close is told |
| MemoryDuplexes.CloseAboveTheMark | packages/message/src/duplex.ts:146-148 | A concrete end that stays above its mark with no promise pending, because the close settled its promises |
| MemoryDuplexes.FlushIsRun | packages/message/src/duplex.ts:94-110 | A whole flush is a run of single turns, so it keeps every rule, whatever its handlers do for each text: pause, resume, close and send through their own end, any number of times |
| MemoryDuplexes.EagerFlushWakesSenders | packages/message/src/duplex.ts:94-110 | A flush whose handlers never pause their end, whatever else they do, delivers everything sent and leaves no sender waiting |
| MemoryDuplexes.SendKeeps | packages/message/src/duplex.ts:122-138 | A send keeps every rule, open or closed |
| MemoryDuplexes.ResumeKeeps | packages/message/src/duplex.ts:166-171 | A resume keeps every rule: an open end with texts gets its flush |
| MemoryDuplexes.RunCloseKeeps | packages/message/src/duplex.ts:146-155 | The close microtask keeps every rule and leaves no promise pending |
| MemoryDuplexObjects.MemoryDuplex.constructor | packages/message/src/duplex.ts:78-84 | Two empty open ends with nothing scheduled |
| MemoryDuplexObjects.MemoryDuplex.SendTo | packages/message/src/duplex.ts:122-138 | A closed pipe ignores the text; an open one queues it and returns a drain promise exactly when the end is then above the mark |
| MemoryDuplexObjects.MemoryDuplex.ScheduleFlush | packages/message/src/duplex.ts:112-120 | One flush is queued unless one is scheduled or the end is paused |
| MemoryDuplexObjects.MemoryDuplex.Pause | packages/message/src/duplex.ts:163-165 | The end stops receiving |
| MemoryDuplexObjects.MemoryDuplex.Resume | packages/message/src/duplex.ts:166-171 | The end receives again; an open pipe schedules its flush |
| MemoryDuplexObjects.MemoryDuplex.Close | packages/message/src/duplex.ts:140-156 | The close is queued behind everything scheduled, once |
| MemoryDuplexObjects.MemoryDuplex.Turn | packages/message/src/duplex.ts:97-103 | The oldest text leaves the queue before its handlers act on the pipe, and all they do happens in order |
| MemoryDuplexObjects.MemoryDuplex.Flush | packages/message/src/duplex.ts:94-110 | The loop ends, whatever handlers do for each text, as the flush proved above, and settles the promises only at or below the mark |
| MemoryDuplexObjects.MemoryDuplex.RunClose | packages/message/src/duplex.ts:146-155 | Every promise of both ends settles and the close is told |
| MemoryDuplexObjects.Inbox.SettleDrains | packages/message/src/duplex.ts:86-92 | Every pending promise of the end settles, in order |
| ServerMux.EveryRunIsGood | packages/message-server/src/shared.ts:66-236 | Over every run: the ids in flight are exactly those of the calls that may still send, each call keeps its language, each input queue its rules, and the read gate counts the paused queues of all calls ever accepted |
| ServerMux.EveryCallSpeaksItsLanguage | packages/message-server/src/call.ts:174-321 | Over every run every instance ever accepted has sent item* (result or done)?, a successful result only alone; its items are a prefix of what its iterator yielded, `done` only after all of it; a terminal frame has given the id up and says how the handler ended: a result carries exactly what it returned, an error is the one for what was thrown, offered as an item or not drained, or for why the right frame could not be sent |
| ServerMux.CallFrameStarts | packages/message-server/src/shared.ts:199-221 | A `call` frame whose id is free starts one instance, with its path, its input or an input stream with the connection's mark, and its id in flight; one whose id is in flight changes nothing |
| ServerMux.CancelFrameStops | packages/message-server/src/shared.ts:173-181 | A `cancel` frame stops exactly the call in flight under its id and frees the id; without one it changes nothing |
| ServerMux.InputFrameIsHeard | packages/message-server/src/call.ts:153-162 | An `in-item` is added to the open input stream of exactly the call in flight under its id, an `in-done` ends it; for a call without one, or without a call, both change nothing |
| ServerMux.StrayFrameIsRejected | packages/message-server/src/shared.ts:156-197 | A frame in the wrong direction or an invalid one with an id is answered with one BAD_REQUEST result if its id is free, or closes if that cannot be sent, and is ignored otherwise |
| ServerMux.CloseStopsEverything | packages/message-server/src/shared.ts:223-228 | A close cancels and aborts every call in flight, and no other, and sends nothing |
| ServerMux.ProceedingIsHeard | packages/message-server/src/shared.ts:102-137 | What a handler's step sends, settles or closes happens to its own instance's frames and id, and only that |
| ServerMux.ConsumingIsHeard | packages/message/src/push-queue.ts:117-133 | A handler that pulls its input asks its own queue once more, and changes nothing else |
| ServerMux.SilentOnceOver | packages/message-server/src/call.ts:165-171 | Once an instance has finished, was cancelled or closed, nothing is sent for it in any continuation, even if the peer reuses its id |
| ServerMux.OldInstanceIsHarmless | packages/message-server/src/call.ts:298-321 | A finished or cancelled instance that still runs sends nothing, removes no id (so not a newer owner of its id), and touches no other call, the gate or the session |
| ServerMux.IteratorsAreReturned | packages/message-server/src/call.ts:195-234 | Over every run the iterator of a streamed call has been returned exactly once if the call was cancelled, or no longer pulls or drains and the iterator has not ended by itself, and not at all otherwise; in particular once it has finished without its iterator having ended |
| ServerMux.StreamedExactly | packages/message-server/src/call.ts:176-183 | A call takes an iterator exactly when its handler streams before it is cancelled, and never forgets it |
| ServerMux.HandlersAreAborted | packages/message-server/src/call.ts:165-171 | Over every run a handler's signal is aborted exactly when its call was cancelled or stalled, and always when the id is gone before the call has finished; its input has then ended |
| ServerMux.ReleasedExactly | packages/message-server/src/call.ts:298-321 | From any good state in which every queue that pauses the reads belongs to a call in flight, an event keeps it so if and only if it is not a live call sending its last frame on an open session while its input is over the mark |
| ServerMux.EveryRunIsReleased | packages/message-server/src/call.ts:152-171 | Over every run without such an event, every paused queue belongs to a call in flight |
| ServerMux.PausingIsExact | packages/message-server/src/shared.ts:125-136 | Over every run without such an event reads are paused if and only if a call in flight is over its mark, and not at all when nothing is in flight |
| ServerMux.OnlyPullsResume | packages/message/src/push-queue.ts:46-62 | A queue left over its mark behind a call that is gone keeps the reads paused in every continuation without a pull by that call's handler; no other call, cancel or close resumes them |
| ServerMux.ReadsStayPaused | packages/message-server/src/call.ts:303-307 | A concrete run: a streamed call gets one item above its mark, its handler returns, and reads stay paused with nothing in flight |
| ServerMux.RouterNeverAnswersBusyIds | packages/message-server/src/shared.ts:156-197 | Over every run: whatever the router sends itself is an error result for an id not in flight at that moment |
| ServerMux.CallsAreIndependent | packages/message-server/src/call.ts:174-290 | A step of one call leaves every other call and its id as they were, unless it has to close the session |
| ServerMux.EveryFinishedCallIsAnswered | packages/message-server/src/call.ts:174-193 | Over every run: on an open session every finished call that was not cancelled has sent its terminal frame |
| ServerMux.CloseKeeps | packages/message-server/src/shared.ts:223-228 | Closing cancels every call in flight and keeps every rule |
| ServerMux.CancelKeeps | packages/message-server/src/shared.ts:173-181 | A cancel frame stops its call, frees the id and keeps every rule |
| ServerMux.StartKeeps | packages/message-server/src/shared.ts:199-221 | A call frame, duplicate or not, keeps every rule |
| ServerMux.FrameKeeps | packages/message-server/src/shared.ts:164-197 | Any frame, also in the wrong direction, keeps every rule |
| ServerMux.ApplyKeeps | packages/message-server/src/call.ts:298-321 | Whatever a step of one call asks of its connection keeps every rule, a failing substitute result included |
| ServerCalls.OutboundIs | packages/message-server/src/call.ts:298-321 | The one send site: nothing goes out exactly when the call is cancelled or the session closed, or else the session closes; what goes out is the frame, PAYLOAD_TOO_LARGE in place of one that is too large, or INTERNAL in place of one that cannot be serialised; the id is given up exactly with a terminal frame that went out, and the call is asked to wait exactly if the duplex asked for it |
| ServerCalls.ResultErrIs | packages/message-server/src/shared.ts:139-154 | An error result gives its id up exactly if it goes out; on an open session one that cannot go out closes it, and on a closed one nothing happens |
| ServerCalls.HandlerSettles | packages/message-server/src/call.ts:174-193 | A handler that returns is answered with a result of exactly what it returned, one that streams is pulled, one that throws is answered with its error; once cancelled, nothing is sent |
| ServerCalls.ThrowIsAnswered | packages/message-server/src/call.ts:265-290 | A protocol error is answered with itself at once; any other with INTERNAL, after it was reported if there is somebody to report to; once cancelled nothing is sent and only an error that is no abort is reported |
| ServerCalls.IteratorEnds | packages/message-server/src/call.ts:200-207 | An iterator that ends is followed by `done`, one that throws by its error, and by nothing once cancelled |
| ServerCalls.ItemIsEmitted | packages/message-server/src/call.ts:209-224 | A yielded value goes out as one item, and the iterator is pulled again at once, or after a drain exactly if the duplex asked for it; an item that cannot go out ends the call with the error for that |
| ServerCalls.NonItemIsRefused | packages/message-server/src/call.ts:60-74 | A nested stream or a file among the items ends the call with the error for that |
| ServerCalls.DrainIsOver | packages/message-server/src/call.ts:232-262 | After a drain the iterator is pulled again; after a timeout the handler is aborted, input and iterator are stopped and the peer is told once; after a cancel nothing is sent |
| ServerCalls.ReportIsOver | packages/message-server/src/call.ts:276-289 | A reported error is answered then, unless the call was cancelled meanwhile |
| ServerCalls.CancelStops | packages/message-server/src/call.ts:165-171 | A cancel aborts the handler, ends an open input, returns a held iterator once and cancels a pending drain, and changes nothing else |
| ServerCalls.FailOk | packages/message-server/src/call.ts:265-290 | A failure gives up the iterator it came from, reports at most once, answers with at most one error result, and with none if cancelled meanwhile |
| ServerCalls.NextOk | packages/message-server/src/call.ts:195-229 | One turn of the item loop keeps the call's language, whatever the iterator does |
| ServerCalls.StalledOk | packages/message-server/src/call.ts:250-262 | A stalled call stops, returns its iterator at most once and sends at most one error result |
| ServerCalls.CancelOk | packages/message-server/src/call.ts:165-171 | A cancelled call may send nothing more, its input has ended and is not paused |
| ServerCallObjects.ServerCall.constructor | packages/message-server/src/call.ts:128-146 | A new call waits for its handler; a streamed one has an empty bounded input queue reporting to the gate |
| ServerCallObjects.ServerCall.PushInput | packages/message-server/src/call.ts:153-162 | An item is queued, `in-done` ends the input, a call without input stream ignores both; the gate follows |
| ServerCallObjects.ServerCall.Cancel | packages/message-server/src/call.ts:165-171 | The call stops, the handler's signal is aborted, its input ends, a pending drain is cancelled and the iterator is returned, once |
| ServerCallObjects.ServerCall.OnDispatched | packages/message-server/src/call.ts:174-193 | What the handler returned goes out as a result, starts the item loop, or fails; nothing if cancelled |
| ServerCallObjects.ServerCall.OnNext | packages/message-server/src/call.ts:195-229 | The next item goes out, the end sends `done`, a nested stream or a throw fails the call; nothing if cancelled |
| ServerCallObjects.ServerCall.FailStream | packages/message-server/src/call.ts:225-228 | A throw in the item loop returns the iterator first and then fails the call |
| ServerCallObjects.ServerCall.EmitItem | packages/message-server/src/call.ts:209-223 | After an item the call pulls again, waits for the drain, or stops and returns the iterator |
| ServerCallObjects.ServerCall.OnDrainResumed | packages/message-server/src/call.ts:232-241 | Drained goes on, cancelled stops, timed out aborts the call |
| ServerCallObjects.ServerCall.AbortStalled | packages/message-server/src/call.ts:250-262 | The call stops, the handler's signal is aborted, its input ends, its iterator is returned, and an error result is tried |
| ServerCallObjects.ServerCall.Fail | packages/message-server/src/call.ts:265-290 | Errors that are not the protocol's own are reported first; the answer is sent only if not cancelled |
| ServerCallObjects.ServerCall.OnReported | packages/message-server/src/call.ts:276-289 | After the report the error result goes out unless the call was cancelled meanwhile |
| ServerCallObjects.ServerCall.CloseIterator | packages/message-server/src/call.ts:323-340 | The iterator is returned at most once |
| RouterObjects.Router.constructor | packages/message-server/src/shared.ts:69-72 | An open router with no calls and an unpaused gate |
| RouterObjects.Router.HandleFrame | packages/message-server/src/shared.ts:164-197 | The whole router moves as the multiplexer proved above, for every kind of frame |
| RouterObjects.Router.HandleInvalid | packages/message-server/src/shared.ts:157-162 | An invalid frame is answered unless its id is in flight |
| RouterObjects.Router.SendRouterErr | packages/message-server/src/shared.ts:139-154 | The router's own error result: recorded and the id freed, or the session closed; nothing when closed |
| RouterObjects.Router.StartCall | packages/message-server/src/shared.ts:200-221 | A new id gets a new instance with its own queue; a busy id is ignored |
| RouterObjects.Router.OnCancel | packages/message-server/src/shared.ts:173-181 | The present instance of the id is cancelled, the gate follows, the id is freed |
| RouterObjects.Router.OnInput | packages/message-server/src/shared.ts:169-172 | Input reaches the present instance of its id only |
| RouterObjects.Router.AbortAll | packages/message-server/src/shared.ts:223-228 | Every call in flight, and no other, is cancelled; the gate resumes for each paused queue; the map is empty |
| RouterObjects.Router.CancelEach | packages/message-server/src/shared.ts:224-226 | The loop over the map, in any order, cancels each mapped call exactly once |
| RouterObjects.Router.Close | packages/message-server/src/shared.ts:109-111 | Closing cancels everything in flight, once |
| RouterObjects.Router.Proceed | packages/message-server/src/call.ts:174-290 | Any continuation of a call, on the real objects, moves the router as the multiplexer proved above |
| RouterObjects.Router.Consume | packages/message/src/push-queue.ts:119-132 | A handler's pull from its input moves its own queue and the gate, nothing else |
| ClientMux.EveryRunIsGood | packages/message-client/src/duplex.ts:22-131 | Over every run: ids count up, the ids in flight are exactly those of live calls, every call keeps its language and its output its rules, and the gate counts the paused outputs |
| ClientMux.EveryCallSpeaksItsLanguage | packages/message-client/src/call.ts:82-119 | Over every run the frames sent for an id form a prefix of call in-item* in-done? cancel?; the `call` carries the path the caller gave, its input exactly if it is not streamed, and `stream` exactly if it is; in-items are a prefix of what the input iterator yielded, in-done only after all of it; no cancel after an end decided outside |
| ClientMux.OpenIsHeard | packages/message-client/src/duplex.ts:99-106 | A call on an open link takes the next number as its id and keeps what the caller asked for; its `call` frame, and a cancel if it was aborted already, are all that is sent; a closed link takes none |
| ClientMux.ArrivalIsRouted | packages/message-client/src/duplex.ts:109-119 | A frame reaches exactly the call in flight under its id, a handshake frame closes, any other is dropped, and a closed link takes no frame |
| ClientMux.ProceedingIsHeard | packages/message-client/src/duplex.ts:31-50 | What a caller's signal, input or consumer does reaches its own call: what that sends, settles or closes, and nothing else |
| ClientMux.CloseFailsEverything | packages/message-client/src/duplex.ts:121-130 | A close rejects every pending promise and fails every open iterator of a call in flight, with no error of the server's, sends nothing and touches no other call |
| ClientMux.EveryCallSettlesOnce | packages/message-client/src/call.ts:208-222 | Over every run: a promise is settled at most once and exactly when the first answer or end came; the id leaves the map exactly once and is never reused; the input iterator of a pump that started is returned exactly once, when the call ends |
| ClientMux.SilentOnceOver | packages/message-client/src/call.ts:207-222 | Once a call is over nothing more is sent for its id and nothing more settles, in any continuation |
| ClientMux.CloseSettlesEverything | packages/message-client/src/duplex.ts:121-130 | After a close nothing is in flight, every promise has settled exactly once, every output is closed with no consumer waiting, and reads are not paused |
| ClientMux.PausingIsExact | packages/message-client/src/duplex.ts:31-50 | Over every run: the count equals the paused outputs, each of a call in flight; reads are paused if and only if there is one; none is left when nothing is in flight |
| ClientMux.EveryRunIsTight | packages/message-client/src/duplex.ts:38-49 | With delivery stopping while paused: at most one output is ever paused, and an open one holds at most its mark and one text |
| ClientMux.CloseKeeps | packages/message-client/src/duplex.ts:121-130 | A close fails every call in flight and keeps every rule |
| ClientMux.RouteKeeps | packages/message-client/src/duplex.ts:109-119 | Any frame, known id or not, keeps every rule |
| ClientMux.OpenKeeps | packages/message-client/src/call.ts:82-119 | Opening, also with an aborted signal or an unsendable call, keeps every rule |
| ClientMux.OverStaysSettled | packages/message-client/src/call.ts:208-211 | No step of a call that is over settles its promise or gives its id up again |
| ClientCalls.OpenIsSent | packages/message-client/src/call.ts:82-119 | A call whose frame went out waits for its answer, with its signal armed and its input pulled exactly if it is streamed; one that is aborted already is rejected and cancelled |
| ClientCalls.OpenIsRefused | packages/message-client/src/call.ts:45-61 | A call whose frame could not go out sends nothing and is rejected with PAYLOAD_TOO_LARGE, INTERNAL or a local error, as the reason was its size, its value or the connection |
| ClientCalls.FirstFrameDecides | packages/message-client/src/call.ts:130-156 | A result resolves the promise with its output, an error result rejects it with its error, an item or `done` resolves it to an iterator with that item or already ended, and any other frame rejects it |
| ClientCalls.LaterFramesStream | packages/message-client/src/call.ts:190-205 | Every further item is added to the iterator, `done` ends it, an error result fails it with that error, and no other frame counts |
| ClientCalls.AbortCancels | packages/message-client/src/call.ts:96-107 | An abort fails a call whose signal is armed, with one cancel for the server, and does nothing to any other |
| ClientCalls.ConsumerCancels | packages/message-client/src/call.ts:231-249 | A consumer's `return` ends its iterator and `throw` fails it, and the server gets one cancel |
| ClientCalls.InputIsSent | packages/message-client/src/call.ts:267-288 | A yielded input goes out as one `in-item`, and the iterator is pulled again at once, or after a drain exactly if the duplex asked for it |
| ClientCalls.InputIsRefused | packages/message-client/src/call.ts:279-283 | An input that cannot go out fails the call with the error for that, with a cancel unless the connection is gone, and nothing more is pulled |
| ClientCalls.InputIsOver | packages/message-client/src/call.ts:270-274 | An input that ends is followed by `in-done` and leaves the call waiting; one that throws fails the call with a cancel |
| ClientCalls.PumpDrainIsOver | packages/message-client/src/call.ts:287-299 | After a drain the input is pulled again, after a timeout the call fails with a cancel, after a cancel the pump stops |
| ClientCalls.FrameOk | packages/message-client/src/call.ts:122-157 | A frame settles or streams a pending call, feeds or ends a streaming one, and sends nothing |
| ClientCalls.FailAndCancelOk | packages/message-client/src/call.ts:164-176 | A local failure sends at most one cancel, as the last frame of its id |
| ClientCalls.InputOk | packages/message-client/src/call.ts:259-307 | Whatever the input iterator does, the in-items sent stay a prefix of what it yielded, and in-done comes at most once |
| ClientCalls.ConsumerStopOk | packages/message-client/src/call.ts:231-249 | `return` and `throw` end the call once, with one cancel |
| ClientCalls.FrameOutputOk | packages/message-client/src/call.ts:190-205 | After any frame the output is open exactly while the call is live, and ends cleanly only by `done` or `return` |
| ClientCallObjects.ClientCall.constructor | packages/message-client/src/call.ts:74-79 | A new call is pending, with no output and no pump |
| ClientCallObjects.ClientCall.Open | packages/message-client/src/call.ts:82-119 | The call frame goes out, or the call fails; an aborted signal cancels at once; a streamed input starts its pump |
| ClientCallObjects.ClientCall.OnFrame | packages/message-client/src/call.ts:122-157 | A call that is over ignores the frame; a pending or streaming one takes it |
| ClientCallObjects.ClientCall.OnFirstFrame | packages/message-client/src/call.ts:130-156 | A result settles the promise, an item or done resolves it to an iterator, anything else fails it |
| ClientCallObjects.ClientCall.OnStreamFrame | packages/message-client/src/call.ts:190-205 | Items are queued, done ends, an error result fails, the rest is ignored |
| ClientCallObjects.ClientCall.Fail | packages/message-client/src/call.ts:164-176 | A pending promise rejects, a stream fails, a call that is over does nothing |
| ClientCallObjects.ClientCall.FailAndCancel | packages/message-client/src/call.ts:164-176 | The same, with one cancel for the server |
| ClientCallObjects.ClientCall.Finish | packages/message-client/src/call.ts:208-222 | The terminal transition: id given up, abort disarmed, drain cancelled, input iterator returned |
| ClientCallObjects.ClientCall.CreateOutput | packages/message-client/src/call.ts:178-188 | A fresh bounded queue that reports to the link's gate |
| ClientCallObjects.ClientCall.OnConsumerStop | packages/message-client/src/call.ts:231-249 | `return` ends the output and `throw` fails it, each with one cancel; nothing once over |
| ClientCallObjects.ClientCall.OnAbort | packages/message-client/src/call.ts:96-107 | An armed signal fails the call with a cancel; a disarmed one does nothing |
| ClientCallObjects.ClientCall.OnInput | packages/message-client/src/call.ts:259-307 | The pump sends what it pulled, or in-done at the end, or fails the call; nothing once over |
| ClientCallObjects.ClientCall.SendInput | packages/message-client/src/call.ts:275-286 | After an in-item the pump pulls again or waits for the drain; an unsendable one fails the call, with a cancel unless closed |
| ClientCallObjects.ClientCall.OnDrainResumed | packages/message-client/src/call.ts:287-299 | Drained goes on, cancelled stops, timed out fails the call with a cancel |
| DuplexLinkObjects.DuplexLink.constructor | packages/message-client/src/duplex.ts:22-50 | An open link with no calls, next id 1 and an unpaused gate |
| DuplexLinkObjects.DuplexLink.CallInner | packages/message-client/src/duplex.ts:87-106 | After the wait for `ready`: no id is taken and nothing changes exactly if the wait failed, the link has closed or the signal is aborted already; otherwise the next id is taken and its call opened as the link proved above |
| DuplexLinkObjects.DuplexLink.Call | packages/message-client/src/duplex.ts:99-105 | The next id is taken and its call opened, on the real objects, as the link proved above; a closed link takes none |
| DuplexLinkObjects.DuplexLink.OnFrame | packages/message-client/src/duplex.ts:109-119 | A frame goes to the call its id stands for, a handshake frame closes, any other is dropped |
| DuplexLinkObjects.DuplexLink.Proceed | packages/message-client/src/duplex.ts:31-50 | Any callback of a call moves the link as proved above; the gate follows its output |
| DuplexLinkObjects.DuplexLink.CloseEach | packages/message-client/src/duplex.ts:127-129 | The loop over the map fails each call in flight exactly once and takes its id out of the map in the same turn, in any order |
| DuplexLinkObjects.DuplexLink.Close | packages/message-client/src/duplex.ts:121-130 | Closing fails everything in flight, once, and empties the map |
| SseEvents.SplitLines | packages/sse/src/sse.ts:15-36 | The two-search loop cuts at the first CR or LF, takes CRLF as one end, and holds back a CR at the very end |
| SseEvents.SplitInTwo | packages/sse/src/sse.ts:99-101 | Splitting a text in two pieces loses and joins nothing wherever the cut falls, also inside a CRLF |
| SseEvents.ReadSseEvents | packages/sse/src/sse.ts:38-116 | For every chunking the reader yields exactly the events of the whole text parsed at once |
| SseEvents.EventsOnlyGrow | packages/sse/src/sse.ts:86-108 | More text only adds events: what was yielded is never taken back |
| SseFields.TextSaysItsEvents | packages/sse/src/sse.ts:48-84 | For every text of lines that end in CR, LF or both in any mixture: it reads as exactly its events, each with the values of its `data` lines joined by LF in order and its last `event` value or `message`; comments and other fields say nothing, at most one space after the colon is dropped and nothing but a space, and an event without data is not there unless it is `close` |
| SseFields.LinesAreFound | packages/sse/src/sse.ts:15-36 | However the lines of a text end, it is split into exactly those lines, and nothing is left over |
| SseFields.FieldIsRead | packages/sse/src/sse.ts:65-84 | Every field line is taken apart into its name and its value, with one optional space between |
| SseFields.EveryLineIsAField | packages/sse/src/sse.ts:65-84 | Every line that is not empty is such a field or a comment, so the grammar leaves no text out |
| SseFields.SeveralDataLines | packages/sse/src/sse.ts:65-84 | For any three values: three `data` lines and an empty one are one message with the three values joined by LF |
| SseEvents.SseReader.Dispatch | packages/sse/src/sse.ts:48-63 | An empty line yields the event gathered so far, if it is a close or has data, and starts afresh |
| SseEvents.SseReader.ProcessLine | packages/sse/src/sse.ts:65-84 | Fields, comments and empty lines act on the event being gathered as one parsing step |
| SseEvents.SseReader.ReadChunk | packages/sse/src/sse.ts:92-107 | One read yields the events its text completes and keeps the incomplete line |
| SseStreams.EveryRunIsOrderly | packages/sse/src/sse.ts:118-177 | However timer, iterator and consumer interleave: the stream starts with a comment, has every pulled item once and in order, at most one end and nothing after it |
| SseStreams.NothingIsLost | packages/sse/src/sse.ts:118-177 | Over every run: what the stream has been given is the opening comment, then every item its iterator yielded before the first end or cancel, and a comment for every tick if there is a timer, in order, then the end |
| SseStreams.RoundTrip | packages/sse/src/sse.ts:11-116 | Reading any written pieces gives exactly their events, comments left out, then close or the error |
| SseStreams.StreamRoundTrip | packages/sse/src/codec.ts:113-163 | For every interleaving at the encoder and every chunking at the reader: the items read are those pulled so far, and the reading ends as the encoder did |
| SseStreams.TruncationIsNoticed | packages/sse/src/codec.ts:157-162 | Every strict prefix of a complete stream reads as a prefix of its items, undamaged, and always ends as truncated |
| SseStreams.AllButTheEnd | packages/sse/src/sse.ts:65-84 | All but the last character of an event's text yields nothing of that event |
| SseStreams.ReadsToTheEnd | packages/sse/src/codec.ts:117-163 | For any events: the reader yields exactly the decoded messages before the first event it cannot go on after, passing over those it does not know, and ends as that event says: closed, the server's error, a bad error event, or truncated if there is none |
| SseStreams.ReadItems | packages/sse/src/codec.ts:117-156 | The loop yields decoded messages until a close, an error, a bad message or the end of the text |
| SseStreams.ReadOutputEvents | packages/sse/src/codec.ts:113-163 | Reading from chunks gives what reading the whole text gives |
| SseStreams.SseEncoder.constructor | packages/sse/src/sse.ts:124-154 | A stream starts with one comment, and with a timer only for a positive interval |
| SseStreams.SseEncoder.Tick | packages/sse/src/sse.ts:143-152 | A tick writes one comment; on a stream that is no longer open it stops the timer |
| SseStreams.SseEncoder.Pull | packages/sse/src/sse.ts:155-171 | A pull writes one message, or the close or error that ends the stream |
| SseStreams.SseEncoder.Cancel | packages/sse/src/sse.ts:172-175 | A cancelled stream writes nothing more and stops its timer |
| Jsonl.ReadJsonlLines | packages/stream/src/jsonl.ts:5-35 | For every chunking the reader yields the trimmed non-empty lines of the whole text, the unterminated last one included |
| Jsonl.ReadInTwo | packages/stream/src/jsonl.ts:21-30 | Cutting a text in two neither loses nor joins lines |
| Jsonl.TrimIs | packages/stream/src/jsonl.ts:14-30 | A line is what is left between the white space at both of its ends, which is exactly that of ECMAScript |
| Jsonl.SolidIs | packages/stream/src/jsonl.ts:14-30 | A line has nothing to trim if and only if it is not empty and neither begins nor ends with white space |
| Jsonl.RoundTrip | packages/stream/src/jsonl.ts:5-53 | Reading written lines gives them back if and only if each is non-empty and has nothing to trim |
| Jsonl.CutLineIsRead | packages/stream/src/jsonl.ts:14-19 | A stream cut inside a line reads the part as a line of its own: truncation goes unnoticed |
| Jsonl.DamagedExactly | packages/stream/src/jsonl.ts:14-19 | A stream cut inside a line yields no damaged line if and only if nothing or all of the line had arrived, but for white space |
| Jsonl.CutNumberIsRead | packages/stream/src/jsonl.ts:14-19 | A concrete damaged line: of 12 only 1 arrives, and 1 is read |
| Deduping.EveryRunIsGood | packages/client/src/dedupe-plugin.ts:32-126 | Over every interleaving of calls, aborts and settlements the plugin's invariant holds: maps, waiters and callers agree |
| Deduping.OneLiveWorkPerKey | packages/client/src/dedupe-plugin.ts:42-62 | Over every run a key has at most one running `next()` that is not aborted |
| Deduping.EveryCallerSettlesOnce | packages/client/src/dedupe-plugin.ts:83-125 | Over every run a caller has settled exactly once unless it waits, and a shared outcome is its entry's |
| Deduping.SharedIsReported | packages/client/src/dedupe-plugin.ts:52-62 | Over every run: a caller that is told an outcome is told exactly what the `next()` of the entry it joined settled with first |
| Deduping.WorkMovesOn | packages/client/src/dedupe-plugin.ts:55-62 | Shared work settles with the one answer of its `next()`, after its `finally`, and never changes it |
| Deduping.CallComesTo | packages/client/src/dedupe-plugin.ts:32-82 | A call whose key is in flight waits for that entry, any other starts `next()` under its key and waits for it; one whose signal is aborted is refused and starts nothing if it was aborted before |
| Deduping.AbortComesTo | packages/client/src/dedupe-plugin.ts:86-99 | A caller that aborts while it waits is rejected and leaves, and the last one to leave unmaps the entry and aborts its work; any other abort does nothing |
| Deduping.TellingComesTo | packages/client/src/dedupe-plugin.ts:107-124 | Once the shared promise has settled, a caller that still waits settles with its answer; before that, and after it left, nothing happens |
| Deduping.ToldIsSettled | packages/client/src/dedupe-plugin.ts:107-124 | Once the shared promise has settled, telling a caller leaves it settled exactly once |
| Deduping.AbortExactly | packages/client/src/dedupe-plugin.ts:86-99 | Shared work is aborted if and only if an abort takes its last waiter, and at most once |
| Deduping.NobodyJoinsAbortedWork | packages/client/src/dedupe-plugin.ts:42-45 | Whoever becomes a waiter joins work neither aborted nor settled |
| Deduping.AttendedExactly | packages/client/src/dedupe-plugin.ts:46-62 | An event leaves all mapped work with a waiter if and only if it is not a first call whose signal aborts while `next()` is being called |
| Deduping.EveryRunIsAttended | packages/client/src/dedupe-plugin.ts:32-126 | Over every run without such a call, mapped work always has a waiter |
| Deduping.OrphanedWork | packages/client/src/dedupe-plugin.ts:55-62 | A concrete call that leaves work running and mapped with nobody waiting, out of reach of every abort |
| DedupePlugins.DedupePlugin.constructor | packages/client/src/dedupe-plugin.ts:25-30 | A new plugin has nothing in flight |
| DedupePlugins.DedupePlugin.Intercept | packages/client/src/dedupe-plugin.ts:32-63 | The objects move as the plugin proved above: join, refuse, or start and join |
| DedupePlugins.DedupePlugin.Join | packages/client/src/dedupe-plugin.ts:75-105 | A caller that is not aborted becomes a waiter, an aborted one is refused |
| DedupePlugins.DedupePlugin.OnAbort | packages/client/src/dedupe-plugin.ts:86-99 | A waiter leaves and is refused; the last one unmaps and aborts the work; a caller that no longer waits does nothing |
| DedupePlugins.DedupePlugin.OnFinally | packages/client/src/dedupe-plugin.ts:55-59 | Settled work leaves the map only if the map still holds that entry |
| DedupePlugins.DedupePlugin.OnShared | packages/client/src/dedupe-plugin.ts:107-124 | A waiter settles with the shared outcome, a caller that left does nothing |
| InlineRefs.ReferenceIs | packages/mcp/src/schema.ts:39-46 | A node refers to the root if and only if its `$ref` is `#`, and to a definition if and only if its `$ref` is one of the two spellings followed by that definition's name, on one line and not empty |
| InlineRefs.RecursiveExactly | packages/mcp/src/schema.ts:42-45 | A schema is reported as recursive if and only if following its references, as the visitor reads them, never ends; otherwise one reference per definition is enough |
| SchemaMeanings.InliningKeepsMeaning | packages/mcp/src/schema.ts:36-63 | For every schema that is not recursive, whose local references lead to schemas in it and are resolved by the visitor, if at all, as the standard does: the result means what the original means, by the standard's reading of every keyword, if and only if nothing the visitor passes is mistaken (a reference into a container that it does not know, data or property names it would change, or a definition that is no object in place of a schema with containers); the result needs no reference followed |
| SchemaMeanings.MeaningKept | packages/mcp/src/schema.ts:36-61 | The same at every place, schema, names or data, and for every stack of definitions being resolved |
| SchemaMeanings.PlacesAreKept | packages/mcp/src/schema.ts:36-61 | A reference that the visitor leaves alone because it leads to another place of the schema leads, in a result that keeps the meaning, to the copy of that place |
| SchemaMeanings.EscapedIsLost | packages/mcp/src/schema.ts:44-58 | A concrete reference whose name is escaped: the standard finds the definition, the visitor leaves the reference and drops the definition, and the result means something else |
| SchemaMeanings.PropertyIsLost | packages/mcp/src/schema.ts:54-60 | A concrete schema whose property is called `definitions`: the property is gone from the result, which means something else |
| SchemaMeanings.ConstantIsReplaced | packages/mcp/src/schema.ts:39-53 | A concrete schema whose constant looks like a reference: the constant is replaced by the definition, and the result means something else |
| SchemaMeanings.NothingBecomesEverything | packages/mcp/src/schema.ts:49-50 | A concrete schema that refers to the definition `false` beside its containers: it means `false`, and its result means the empty schema |
| SchemaMeanings.StringBecomesReference | packages/mcp/src/schema.ts:46-51 | A concrete definition that is a string turns a `$ref` that was none into a reference to the root; it is the harm that the condition of `NoReferenceLeft` names |
| SchemaMeanings.ReferenceReplacesItself | packages/mcp/src/schema.ts:46-51 | Concrete definitions with which a reference is inlined to itself: it comes through unchanged and is not clean, because the copies are not harmless |
| SchemaMeanings.AnchorIsLost | packages/mcp/src/schema.ts:54-60 | A concrete schema whose definition is named by an `$anchor`: the result keeps the reference and drops the name; such identifiers are what the meaning theorem excludes |
| InlineRefs.NoReferenceLeft | packages/mcp/src/schema.ts:46-58 | Unless recursive, no object of the result refers to the root or a definition or has a reserved key, at any depth, if and only if no plain object that is copied and not overridden has a `$ref` whose chain of lone references ends in a string that is such a reference |
| InlineRefs.StringRefsAreHarmless | packages/mcp/src/schema.ts:44-46 | Where every `$ref` is a string, as in every schema, no copy becomes a reference |
| InlineRefs.UnchangedExactly | packages/mcp/src/schema.ts:36-61 | For a value that is not recursive: it comes through unchanged without making a reference if and only if nothing in it refers to the root or a definition and no object in it has a reserved key |
| InlineRefs.KeptReferences | packages/mcp/src/schema.ts:64-66 | A reference to a definition finds that definition in the result of a recursive schema if and only if it points into `$defs` and the definition is in the container that was kept, or it points into `definitions` and the root's own chain of references comes back on itself at a node that has that definition |
| InlineRefs.DefinitionsDangle | packages/mcp/src/schema.ts:65 | The usual exported shape, a root that refers into its own `definitions`: its result is given in full, and the reference left in it finds nothing |
| InlineRefs.UnwindsWithin | packages/mcp/src/schema.ts:36-61 | From any node where no cycle is met, following references ends within one reference per definition not on the stack |
| InlineRefs.CycleIsEndless | packages/mcp/src/schema.ts:42-45 | A reference to a definition that is being resolved leads back to itself, so following it never ends |
| InlineRefs.Inliner.Visit | packages/mcp/src/schema.ts:36-61 | The visitor ends on every schema, by definitions not yet on the stack and then by node, and returns the inlined value with the cycle flag |
| InlineRefs.Inliner.VisitFields | packages/mcp/src/schema.ts:54-60 | The loop over an object's entries, in any order, inlines each copied one and drops the reserved keys |
| InlineRefs.Inliner.VisitItems | packages/mcp/src/schema.ts:37 | The items of an array are inlined in place and in order |
| InlineRefs.Inline | packages/mcp/src/schema.ts:30-73 | The whole function returns the inlined schema, with definitions put back and the issue raised exactly when recursive |
| Files.RoundTrip | packages/file/src/files.ts:30-138 | Injecting the extracted files gives the value back without its skipped keys if and only if no object in it, plain or of another class, is taken for a placeholder; the unused-part check never rejects such output |
| Files.ExtractsExactly | packages/file/src/files.ts:37-70 | Extraction succeeds if and only if the blobs are few and small enough and no object occurs twice; the files are then the blobs in order |
| Files.PlaceholdersAreNumbered | packages/file/src/files.ts:45-47 | The placeholders of the extracted value are "0" to "n - 1" in order, n the blobs kept |
| Files.FirstProblemIsTold | packages/file/src/files.ts:37-70 | Extraction fails if and only if the walk meets an obstacle, and with the first: a file too many, a file too large, or an object met before |
| Files.InjectsExactly | packages/file/src/files.ts:102-138 | Injection fails with the first placeholder that there is no part for, else if any part is not named, and else succeeds |
| Files.OnlyUnsafeKeysGo | packages/file/src/files.ts:62-68 | What comes through has no object key `__proto__`, `constructor` or `prototype`, and a value without them comes through whole |
| Files.LookAlikeIsLost | packages/file/src/files.ts:106-113 | A value with a look-alike does not come back: it is refused or replaced by a file |
| Files.LookAlikeIsRefused | packages/file/src/files.ts:106-110 | A concrete look-alike: it is extracted as it is, and then refused for its missing part |
| Files.SharedIsRefused | packages/file/src/files.ts:52-55 | A concrete value in which one object occurs twice without a cycle is refused as circular |
| Files.InjectExtracted | packages/file/src/files.ts:105-131 | Injection undoes extraction from any starting count, and uses exactly the ids handed out in between |
| Files.Extractor.Walk | packages/file/src/files.ts:37-70 | The accumulating walk stops at the first problem, and otherwise has collected exactly the files and objects met |
| Files.Extractor.WalkEntries | packages/file/src/files.ts:56-69 | The loop over entries keeps their order and leaves out skipped keys of objects, not of arrays |
| Files.Injector.Walk | packages/file/src/files.ts:105-131 | The walk puts each part in place and records its id, or stops at the first missing one |
| Files.Injector.WalkEntries | packages/file/src/files.ts:117-130 | The loop over entries keeps their order and leaves out skipped keys of objects, not of arrays |
| Files.ExtractAll | packages/file/src/files.ts:30-73 | The whole function: the value with placeholders and the files, or the first problem |
| Files.InjectAll | packages/file/src/files.ts:102-138 | The whole function: the value with files in place, refused if a part is missing or unused |

## Left out

Contracts that say less than one might want:

- Sessions.Lifecycle: asks that no send of the run breaks, that is, that the duplex does not close during a hello-ok or a send answered with a drain promise; `Sessions.ReentrancyExactly` and `Sessions.StartExactly` say that this is exactly what is needed.
- Integrity.InputIntegrity: a cancelled call's input ends like a complete one, because the server closes it with `end()`; only the prefix is claimed then.
- Integrity.FlowControl: bounds the client's queues; a server queue can stay above its mark after its call has finished, as `ServerMux.ReleasedExactly` says.
- MemoryDuplexes.EveryRunIsBounded: holds until a close is told; `MemoryDuplexes.StepStaysBounded` gives the exact condition.
- SseStreams.StreamRoundTrip: asks for lines without CR and LF that are not empty, as JSON text is.
- SseStreams.TruncationIsNoticed: asks the same; a stream that lacks only its last character is truncated too, since its last event is not complete.
- SchemaMeanings.InliningKeepsMeaning: is for schemas in which every local reference leads to a schema, which have no other identifiers than places (`$id`, anchors and dynamic references: `SchemaMeanings.AnchorIsLost`), and whose references that are resolved stand alone in their objects, or beside containers only, and mean what the visitor takes them to; merging a reference with sibling keywords is left out.

What the model does not have:

- Marks are integers and no mark is an unlimited one; sizes are integers, so a fractional mark acts as its floor.
- Whether a text is over the size limit, cannot be serialised, or makes the duplex throw is an outcome chosen per send; byte counting is left out.
- Drain promises that settle and timers that fire are events; in the composed connection the outcome of a call's wait is picked by the adversary, also before its promise has settled (`Waits.WaitsEndWithTheirReason` says when that is), and a call's waiting phase stands for its `DrainWaiter`.
- A closed session hands up no frames, so the frame handlers of router and link are called on open ones only.
- An `onError` promise that rejects; reports of errors settle.
- User callbacks (`onError`, `onFrame` handlers, abort listeners, `iterator.return`) do not throw synchronously and do not call back into the connection.
- Local failures carry no text or `data`; the invalid-frame answer has one text, and the one for a peer that did not drain leaves out the number of milliseconds.
- The report to `onError` that a frame could not be serialised, and the one of an iterator whose `return` fails.
- The reason given to a close, `onStall`'s arguments, elapsed times, and the validation in `resolveBackpressure`.
- `runProcedure`, schema validation, interceptors and contexts: a handler returns, throws, or yields any sequence.
- `JSON.parse` and `JSON.stringify`: texts are JSON values; numbers are real numbers, without rounding.
- WebSocket, MessagePort and stdio adapters: the duplex is the in-memory one.
- SSE works on decoded characters without a byte order mark; the two `push` branches of `splitLines` are one step per line.
- The dedupe key is given; `next()` does not throw synchronously and does not call the plugin again, and the second `signal.aborted` test in `join`, which cannot be reached as true, is not there.
- Percent escapes in references stand for ASCII characters only; a property named `__proto__` is plain data. `SchemaMeanings` takes any choice of keywords that hold schemas; `STANDARD` is that of draft 2020-12 and draft 7.
- Files of other classes than `Blob`, and properties that an object of another class or an array has beside those of a placeholder; `fileFromPart`, `assertNoPlaceholders`, multipart parsing and file names.
- `inputKeys`, `withoutKeys`, `objectRoot` and the projections of the MCP schemas.
- HTTP handlers, Fetch link, CORS and header plugins, retry and cache plugins, events, search, code generation, OpenAPI printing and the command line.
