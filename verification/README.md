# Codex bridge: verified models

Dafny models of the stateful parts of the repository, each with proofs of what the part is for. Every object
that the program changes in place is a class whose methods are proved equal to functions on its state; the
properties are lemmas about those functions, over every input, every run and every interleaving.

**Session bridge.** `ResponseSegments` is the event stream builder of one HTTP response. `EventGrammar` is an
independent reader of such streams, `SegmentStream` shows the builder always in step with it, and `Transcripts`
compares the streamed text with the notes. `BridgeState` is the state machine of the session, its turn and its tool
calls, `CodexBridges` the object that implements it. `BridgeOperations`, `BridgeStreams`, `BridgeCalls`,
`BridgeUpstream` and `BridgeOrder` prove one promise each over all runs, `BridgeOrder` on top of what `BridgeDelivery`
says about draining a buffer; `BridgeLimits` holds runs in which a promise fails. `BridgeFilters` and `BridgeRequests`
tell what each event and each request does, case by case in every state. `BridgeProvenance` traces what either side
gets to what the other side said, and `BridgeDialogues` says so over all runs. Upstream events may carry any ids, or
none, or null.

**Encrypted capture.** `CaptureVaults` writes frames, `CaptureReaders` reads them and judges a session,
`CaptureAddons` and `CaptureAddonObjects` turn proxy callbacks into records. `CaptureSessions` joins the three:
what a run of callbacks leaves and what any file is judged to be. `CaptureTallies` is about the counters,
`CaptureStories` about the records of each single flow, `CaptureEndings` about how it ends, and `CaptureDamage` about
what the reader says of a damaged file.
Encryption is an ideal authenticated cipher: a ciphertext opens only under the nonce and associated data it was
sealed with, and is 16 bytes longer than its text. Record JSON is an invertible encoding.

**Stream codecs.** `WebSocketFrames`, `WebSocketMessages` and `Mailboxes` are the WebSocket client (RFC 6455,
sections 5.2 to 5.4), `RpcTransports` and `RpcRequests` the JSON-lines transport with its request table,
`ServerSentEvents` the event-stream writer and reader (section 9.2 of the WHATWG HTML standard), and
`EventStreamLines` the texts that standard allows.

**JSON.** `JsonTexts`, `CanonicalJson` and `CanonicalUniqueness` are the canonical text of tool lists,
`OrderedJson` and `JsonPaths` the field lists and differences of the analyzer. Numbers are their printed tokens and
hashes are injective.

**Editing and recovery.** `TomlLines`, `TomlEdits` and `TomlResults` set keys in a TOML file line by line.
`TomlGrammar`, `TomlTokens` and `TomlErrors` say independently which lines assign to a key, how lines, headers and
values read, and when an edit is refused. `PatchJournals` is the journal of patched files, `PatchRecovery` says when
it can be undone, and `Relays` is the two-pump WebSocket relay.

`Wrappers` and `ByteStrings` are shared. A suspended continuation, a timer, a disk that takes part of a write, a
callback, a crash and a chunk boundary are all steps or arguments chosen freely, so the results hold for each choice.

Some promises do not hold of the program on all inputs. Each has an input that breaks it. For six the condition under
which it holds is exact, proved in both directions:

- A tool list with a number too large for a double has the canonical text of one with null in its place
  (`CanonicalUniqueness.CanonicalExact`, `CanonicalUniqueness.OverflowPassesForNull`).
- A thread is forgotten when another one is attached to its live session (`BridgeUpstream.ThreadsExactly`). A
  notification with an explicit null thread id can bring that about (`BridgeLimits.NullThreadLeaks`).
- A turn can be left running when its session takes up another one in its place, passes its acknowledgement over, or
  hears of it before it has a thread (`BridgeUpstream.TurnsExactly`, `BridgeLimits.ReplacedTurnGoesOn`).
- Notes lose the order of arrival when one goes to a running segment over buffered ones, and they are dropped without
  notice when they stand in a drained buffer behind a completed turn (`BridgeOrder.OrderExactly`,
  `BridgeLimits.LateNoteOvertaken`, `BridgeLimits.BufferedNoteDropped`).
- A replaced TOML line that leaves a multiline string open changes the reading of the lines after it
  (`TomlResults.ClassesKeptExactly`, `TomlResults.OpenStringBreaks`).
- A crashed restore can be stuck for good when a file was given a third content (`PatchRecovery.RecoversExactly`,
  `PatchJournals.SameFileTwiceStuck`).

For one it is sufficient only: a Close crosses in one direction at most if a connection that has read a Close takes no
more messages (`Relays.OneCloseCrosses`, `Relays.ClosesCouldCross`).

Where the documentation of the frame format and the code could be read differently, the models follow the code: a
failed write burns its number and the reader stops there.

## Model

| member | source | states |
|---|---|---|
| ResponseSegments.ResponseSegment.Begin | src/protocol.mjs:142 | the object opens its stream: the new state is the one `Start` describes, and a sink that throws leaves the state of that moment |
| ResponseSegments.ResponseSegment.EnsureMessage | src/protocol.mjs:144-153 | the same for a new message: index, map entry, and the added and part events in this order |
| ResponseSegments.ResponseSegment.AppendText | src/protocol.mjs:155-161 | the same for a text delta, with the refusal of text after a completed item |
| ResponseSegments.ResponseSegment.Complete | src/protocol.mjs:163-172 | the same for a completed message, which streams the missing suffix or refuses a differing text |
| ResponseSegments.ResponseSegment.Call | src/protocol.mjs:183-192 | the same for a function call item |
| ResponseSegments.ResponseSegment.CloseMessage | src/protocol.mjs:174-181 | the same for the three events that end a message, once |
| ResponseSegments.ResponseSegment.Fail | src/protocol.mjs:204-210 | the same for a failure |
| ResponseSegments.ResponseSegment.End | src/protocol.mjs:194-202 | the same for the end of a segment, message by message in a loop |
| EventGrammar.PrefixWellFormed | src/protocol.mjs:127-211 | every prefix of a stream the reader automaton accepts is accepted: a client cut off at any point saw nothing wrong |
| EventGrammar.StreamShape | src/protocol.mjs:141-142 | an accepted stream is numbered 0, 1, 2, ..., opens with created and in_progress, and has nothing after a terminal event |
| EventGrammar.ReaderMemory | src/protocol.mjs:144-192 | what the automaton knows of an item is what the stream said: one added event, at most one done event, deltas that join to its content, a final snapshot that agrees |
| EventGrammar.CompletedStream | src/protocol.mjs:194-202 | in a stream that ends in response.completed every item of the output array was added once and done once with exactly that snapshot, its deltas join to its content, and there is no further item |
| EventGrammar.CompletedCall | src/protocol.mjs:183-192 | every function call in the output of a completed stream was announced once, empty, under its call id and name, filled by deltas that join to its arguments, its arguments announced as done, and done once as it stands in the output |
| SegmentStream.TextDeltaClean | src/protocol.mjs:155-161 | a text delta keeps the segment in step with the reader of its own events, whatever the sink accepts |
| SegmentStream.CompleteMessageClean | src/protocol.mjs:163-172 | so does a completed message |
| SegmentStream.ToolCallClean | src/protocol.mjs:183-192 | so does a function call |
| SegmentStream.FinishEnds | src/protocol.mjs:194-202 | finishing keeps the stream accepted and, if nothing threw, ends it with response.completed carrying the final output |
| SegmentStream.AbandonEnds | src/protocol.mjs:204-210 | failing ends every stream that has begun, and does nothing to one that has ended |
| Transcripts.TextDeltaMatches | src/protocol.mjs:155-161 | the items agree, in text, phase and completion, with an independent transcript of the notes after a delta |
| Transcripts.CompleteMatches | src/protocol.mjs:163-172 | and after a completed message, whose text then is the whole message text, and whose phase is the one it tells, if it tells one |
| Transcripts.StreamedText | src/protocol.mjs:155-181 | the deltas streamed for a message join to its text in the transcript |
| Transcripts.FinishKeepsText | src/protocol.mjs:174-181 | finishing a segment changes no text |
| Transcripts.FinishTells | src/protocol.mjs:194-202 | a segment that followed its notes ends with a response whose message items are, in order and each with its text, the messages those notes tell of, and with its phase |
| Transcripts.DeltaRefused | src/protocol.mjs:155-161 | a text delta is refused if and only if it is not empty and its message is completed, or the sink refuses an event |
| Transcripts.ItemRefused | src/protocol.mjs:163-172 | a completed message is refused if and only if it is not completed yet and has no text or one that what was streamed does not begin, or the sink refuses an event |
| Transcripts.CallRefused | src/protocol.mjs:183-202 | a function call and the end of a response are refused by the sink only |
| BridgeStreams.EveryStream | src/bridge.mjs:171-254 | over every run, every finished operation left a well-formed event stream with one terminal event at its end; resolved means completed, a rejected one tells the error it was rejected with unless the client refused the completion itself, and a completed stream tells exactly the output |
| BridgeStreams.CompletedIsTranscribed | src/bridge.mjs:213-244 | over every run, the completed response of every operation that was resolved carries exactly the text of the notes its segment was handed: its message items are, in order, the messages those notes tell of, each with the text the notes give it |
| BridgeStreams.StreamedIsTranscribed | src/bridge.mjs:213-235 | what the running segment has streamed for a message is the text of that message in the notes it was handed |
| BridgeCalls.EveryRequestAccounted | src/bridge.mjs:150-180 | in every reachable state each server request is in exactly one place: outstanding in the live session, answered once under its own rpc id, or lost to a transport that was not open; tool results go out in arrival order |
| BridgeCalls.RunKept | src/bridge.mjs:103-108 | the invariant behind it holds over every run, tool results, rejections, sink failures, timeouts, aborts, expiry, exit and shutdown included |
| BridgeCalls.NothingLostWhileOpen | src/bridge.mjs:256-268 | no step but the process exit loses a request while the transport is open |
| BridgeCalls.SessionEndAnswersAll | src/bridge.mjs:246-268 | in whatever way a session ends while the transport is open, after that very step each of its outstanding calls has exactly one answer, under its own rpc id |
| BridgeState.CancelFirst | src/bridge.mjs:261-263 | cancelling all calls is cancelling the first and then the rest |
| BridgeOperations.RunSteady | src/bridge.mjs:31-81 | over every run the operations, the session, the busy flag, the timer and the suspended continuations fit together |
| BridgeOperations.OneOperationAtATime | src/bridge.mjs:31-81 | every operation is settled exactly once and in its order, only the running one is unsettled, and meanwhile every request is refused |
| BridgeOperations.RepeatRefused | src/bridge.mjs:126-132 | a response id continued once is refused ever after, with no effect on the state |
| BridgeOperations.OnlyLatestContinues | src/bridge.mjs:126-142 | an accepted continuation names the latest response of the live session, which was resolved and never continued before |
| BridgeOperations.RefusalChangesNothing | src/bridge.mjs:126-143 | a refused request changes nothing; an accepted tool output names the call that is waiting |
| BridgeOperations.StopThenFresh | src/bridge.mjs:57-81 | in every reachable state an abort or a timeout rejects the running operation and ends its session, every operation begun so far then being settled once and in its order; when the request has returned, a new conversation is accepted exactly if the bridge is not closed, and nothing else is |
| BridgeOperations.IdleSessionExpires | src/bridge.mjs:71-80 | over every run a session without a request in progress has its timer armed and is released by it; while a request is in progress there is no timer to fire |
| BridgeFilters.NotesIgnored | src/bridge.mjs:182-201 | in every state a note for no session or another thread, token usage, an error that will be retried, a note of another turn, and a kind that is not consumed leave the whole state as it was |
| BridgeFilters.NotesFatal | src/bridge.mjs:185-200 | a malformed started turn, an error that will not be retried and a blocked item of the session's turn each end the session and settle a running operation as rejected with their own fault, as the only entry in the log |
| BridgeFilters.NotesStartTurn | src/bridge.mjs:186-189 | a started turn becomes the turn of the session, and nothing else of session or operation changes |
| BridgeFilters.NotesArrive | src/bridge.mjs:196-207 | the list of arrived notes grows by exactly the note if and only if it is a text delta, a completed item or a completed turn, not blocked, of the session's thread and turn; it is handed to the running segment or else joins the buffer, where one past 4096 ends the session |
| BridgeFilters.NotesFail | src/bridge.mjs:217-234 | while a segment runs, a text delta without item or text and an end of the turn that is malformed, unsuccessful or too early reject the operation with the named fault; the end of another turn does nothing |
| BridgeFilters.RequestsRefused | src/bridge.mjs:150-164 | a server request of another thread is refused and changes nothing else; one of the session's thread that is no good call is refused and ends the session with the fault of its kind |
| BridgeFilters.CallsQueued | src/bridge.mjs:157-168 | a good call is counted and joins the outstanding calls, last, under its rpc id, with the name registered at its index and its own arguments |
| BridgeFilters.AcceptedExactly | src/bridge.mjs:31-37 | a request is accepted if and only if the bridge is open and idle and the client there, and it opens a conversation over no session or one at rest, or continues the latest response without a change of model, instructions, effort or tools, with the output of the waiting call or with a text for a session at rest |
| BridgeFilters.RefusedBecause | src/bridge.mjs:126-143 | which reason a refusal names, for each reason an if and only if |
| BridgeFilters.ThreadReplies | src/bridge.mjs:86-102 | what each reply to thread/start does to a live and to a dead session, the whole state told |
| BridgeFilters.TurnReplies | src/bridge.mjs:110-122 | the same for turn/start |
| BridgeFilters.TransportReplies | src/bridge.mjs:83-87 | the same for the start of the transport |
| BridgeFilters.StopsReject | src/bridge.mjs:246-275 | a disconnect, a timeout, the exit of the process and the shutdown each reject with their own fault |
| BridgeRequests.OpeningDrops | src/bridge.mjs:44-45 | an accepted request that opens a conversation drops the session at rest, gives its thread back, and changes nothing else |
| BridgeRequests.ProceedOpens | src/bridge.mjs:46-69 | then it gets the next session, with its own model, instructions, effort and tools, and the next operation, whose client has seen the stream open; a client that has gone or does not take the opening has the operation rejected |
| BridgeRequests.TextContinues | src/bridge.mjs:52-69 | an accepted continuation runs as the next operation of the live session: a text goes out as a turn on its thread, and without a thread or a transport it waits or is rejected |
| BridgeRequests.OutputAnswers | src/bridge.mjs:103-106 | an accepted tool output is the next answer the app-server gets, under the rpc id of the waiting call |
| BridgeRequests.LateOutputAnswers | src/bridge.mjs:99-106 | and one that had to wait for a thread is answered when the thread is there |
| BridgeRequests.CallSurfaces | src/bridge.mjs:171-180 | a good call that meets a running operation and no other call becomes the waiting call at once, and the operation is resolved with a response that ends in it; or the client does not take that, and the operation is rejected |
| BridgeRequests.CallQueues | src/bridge.mjs:165-174 | a good call that meets no running operation, or a waiting call, joins the queue, and the whole state is otherwise unchanged |
| BridgeRequests.NothingHeldBack | src/bridge.mjs:171-180 | over every run no call is outstanding while an operation runs without a waiting one, so a good call then is shown at once |
| BridgeProvenance.RunSourced | src/bridge.mjs:103-180 | the invariant behind the next rows, over every run |
| BridgeDialogues.CallsAreAsked | src/bridge.mjs:165-176 | over every run a function call in the stream of a resolved operation is its last item and was asked for by a server request of the session: it carries that request's client call id, the name registered at its index and its arguments, in the added and the done event, in the deltas joined and in the output |
| BridgeDialogues.WaitsForItsCall | src/bridge.mjs:171-180 | over every run an idle session waits for a tool result if and only if its latest response ended in a function call; that call is the oldest outstanding one, and every request before it was answered or lost |
| BridgeDialogues.TurnCompletes | src/bridge.mjs:225-244 | over every run the reported end of the session's turn, every call answered, resolves the operation of a client that takes everything with a response that ends in no call, the session's latest; the session is then at rest, and a text that continues the response is accepted |
| BridgeDialogues.NotesTaken | src/bridge.mjs:213-224 | over every run a running operation whose client takes everything takes every text and completed message of its turn, and goes on, unless it contradicts what its notes told so far; then it is rejected |
| BridgeDialogues.ResultsAreGiven | src/bridge.mjs:103-106 | over every run a tool result the app-server got is the output a client gave for that very call while it waited |
| BridgeDialogues.ThreadsAreOpened | src/bridge.mjs:86-94 | over every run each thread is asked for with the model, instructions and tools of the request that opened its session |
| BridgeDialogues.TurnsAreTold | src/bridge.mjs:110-113 | over every run the text of every turn started is that of an accepted request of the same session, and its effort that of the request that opened the session |
| BridgeDialogues.ConfigIsOpening | src/bridge.mjs:46-50 | over every run the live session has the model, instructions, effort and tools of the request that opened the latest conversation |
| BridgeDialogues.ContinuationKeepsConfig | src/bridge.mjs:134-137 | what an accepted continuation gives for any of them is what the conversation was opened with |
| BridgeUpstream.ThreadsExactly | src/bridge.mjs:83-124 | at every point of a run each thread returned so far is in use by the live session, given back, or waits for its interrupt to be given back, if and only if no reply of the run attaches a different thread to a live session that has one |
| BridgeUpstream.NoThreadLeaks | src/bridge.mjs:83-124 | thread by thread: it is looked after, or some step of the run attached another one over it |
| BridgeUpstream.TurnsExactly | src/bridge.mjs:110-122 | at every point of a run each turn id heard of, in an acknowledgement, a note or a tool call, is held by the live session, completed or interrupted, if and only if no step of the run displaces a turn: a started turn that replaces another, an acknowledged one passed over, or one heard of before there is a thread |
| BridgeUpstream.EveryTurnRetired | src/bridge.mjs:256-268 | every turn a session heard of that has ended since was reported as completed, or interrupted on the session's own thread, or displaced by a step of the run |
| BridgeUpstream.NoCrossCancel | src/bridge.mjs:264-267 | an interrupt never names a thread or turn of another session, nor of a live one, when thread ids are not reused |
| BridgeLimits.NullThreadLeaks | src/bridge.mjs:152 | a run in which a notification's explicit null thread id matches a session without a thread, and a thread is then leaked |
| BridgeLimits.ReplacedTurnGoesOn | src/bridge.mjs:186-188 | a run in which a started turn replaces another, and the end of the session interrupts only the second |
| BridgeDelivery.ConsumeAllPours | src/bridge.mjs:103-108 | draining hands the notes over one after the other until the segment ends or an exception does; a note is dropped if and only if a note that completes the turn is reached before another one |
| BridgeDelivery.ClosesExactly | src/bridge.mjs:225-233 | a note that raises no exception ends the running segment if and only if it reports the session's turn as completed and no call is unanswered |
| BridgeDelivery.FinishedDrops | src/bridge.mjs:213-216 | a finished segment takes no more notes: they are dropped, and nothing else changes |
| BridgeOrder.NotesAccounted | src/bridge.mjs:182-211 | over every run each note that passed the filters is handed to a running segment, dropped, or in the buffer of the live session; none is lost otherwise and none is handed out twice |
| BridgeOrder.OrderExactly | src/bridge.mjs:103-123 | no note of a run is dropped or out of the order of arrival, at any point of it, if and only if no note goes to a running segment over a buffer that holds a different one and no buffer is drained in which a completed turn is reached before another note |
| BridgeOrder.NotesInOrder | src/bridge.mjs:182-211 | in a run without such a step what arrived is what was handed to segments that ran, followed by what is buffered |
| BridgeLimits.LateNoteOvertaken | src/bridge.mjs:110-123 | a run in which the user-message branch leaves the buffer undrained and a later note overtakes an earlier one |
| BridgeLimits.BufferedNoteDropped | src/bridge.mjs:107-108 | a run in which a tool output drains a completed turn and then a text delta: the delta reaches nobody, and the operation succeeds |
| CodexBridges.CodexBridge.Take | src/bridge.mjs:14-25 | the object takes exactly the step of the state machine, whatever the event |
| CodexBridges.CodexBridge.Accept | src/bridge.mjs:31-81 | `respond` up to its first await: the refusal and the new state are those of the specification |
| CodexBridges.CodexBridge.CreateSession | src/bridge.mjs:46-71 | the part of `respond` after the release: session, segment and operation |
| CodexBridges.CodexBridge.Conclude | src/bridge.mjs:71-80 | the `finally` block: idle again, the stream logged, the timer armed when a session remains |
| CodexBridges.CodexBridge.DriveStarted | src/bridge.mjs:83-110 | `drive` once the transport is up |
| CodexBridges.CodexBridge.OnThreadReply | src/bridge.mjs:95-102 | the reply to thread/start, live, late, empty or with another model |
| CodexBridges.CodexBridge.ResumeTool | src/bridge.mjs:103-108 | a tool output: answer, drain in a loop, surface the next call |
| CodexBridges.CodexBridge.OnTurnReply | src/bridge.mjs:114-122 | the reply to turn/start, live or late |
| CodexBridges.CodexBridge.CheckRequest | src/bridge.mjs:126-143 | the checks in their order; the same refusal as the specification |
| CodexBridges.CodexBridge.OnRequest | src/bridge.mjs:145-169 | a server request: refused, refused with failure, or queued and surfaced |
| CodexBridges.CodexBridge.Flush | src/bridge.mjs:171-180 | `flushTool` |
| CodexBridges.CodexBridge.OnNotification | src/bridge.mjs:182-211 | a notification through the filters, to the segment or the buffer, or to failure |
| CodexBridges.CodexBridge.ConsumeNotification | src/bridge.mjs:213-235 | one note applied to the segment |
| CodexBridges.CodexBridge.HandNote | src/bridge.mjs:213-216 | a note logged as handed over or dropped, and applied |
| CodexBridges.CodexBridge.CompleteSegment | src/bridge.mjs:237-244 | `complete` |
| CodexBridges.CodexBridge.FailWith | src/bridge.mjs:246-254 | `fail`: rejects an unsettled operation and releases the session in any case |
| CodexBridges.CodexBridge.ReleaseSession | src/bridge.mjs:256-268 | `releaseSession` up to its first await |
| CodexBridges.CodexBridge.CancelCalls | src/bridge.mjs:261-263 | the cancellation loop |
| CodexBridges.CodexBridge.Retire | src/bridge.mjs:261-267 | cancellations, then interrupt or unsubscribe |
| CodexBridges.CodexBridge.Close | src/bridge.mjs:270-275 | `close` |
| ByteStrings.BigEndianRoundTrip | scripts/request-capture/capture_vault.py:24 | an unsigned integer that fits reads back from its big-endian bytes |
| ByteStrings.FromBigEndianRoundTrip | scripts/request-capture/capture_vault.py:24 | and big-endian bytes from their integer |
| CaptureVaults.WriteConsistent | scripts/request-capture/capture_vault.py:83-107 | every use of the cipher belongs to one reserved number, later uses to later numbers, whether the write failed or not, and the history only grows |
| CaptureVaults.NoncesUnique | scripts/request-capture/capture_vault.py:90-101 | two uses of the cipher with one nonce are the same use |
| CaptureVaults.WriteLands | scripts/request-capture/capture_vault.py:83-107 | a write lands a whole frame behind what was there, or counts a failure; a closed vault takes nothing |
| CaptureVaults.StoresWhatItCan | scripts/request-capture/capture_vault.py:83-107 | with a disk that fails no write, a record is stored if and only if the vault is open, the number fits 64 bits, the record has a text within the size limit, and a sync that was asked for succeeds |
| CaptureVaults.CaptureVault.WriteAll | scripts/request-capture/capture_vault.py:75-81 | the loop over partial writes puts down exactly the prefix the disk took |
| CaptureVaults.CaptureVault.Write | scripts/request-capture/capture_vault.py:83-107 | the method makes exactly the specified step: number burned first, then header and ciphertext |
| CaptureVaults.CaptureVault.Close | scripts/request-capture/capture_vault.py:109-115 | the session_end record, and closed only if it was stored |
| CaptureVaults.CaptureVault.Start | scripts/request-capture/capture_vault.py:71-73 | magic bytes and session_start |
| CaptureReaders.ReadFile | scripts/request-capture/analyze_capture.py:213-257 | the reading loop returns what the recursive specification returns, issue included |
| CaptureReaders.ReadsPrefix | scripts/request-capture/analyze_capture.py:196-260 | for every header and every byte string in events.cap the records returned are a prefix of what the vault sealed, and a valid file is byte for byte the frames of that prefix |
| CaptureReaders.Opens | scripts/request-capture/analyze_capture.py:238-239 | what opens under a number is the record the vault sealed under it, in exactly that frame |
| CaptureReaders.ReadsBack | scripts/request-capture/analyze_capture.py:213-257 | the frames of a prefix read back as that prefix, to the last byte |
| CaptureReaders.AnalyzeSession | scripts/request-capture/analyze_capture.py:353-379 | the issue list, the terminal check and the verdict are the declared conditions on the records |
| CaptureReaders.AllTerminal | scripts/request-capture/analyze_capture.py:370-377 | grouping records by flow and checking each group finds exactly whether every flow has a terminal record |
| CaptureReaders.VerdictExact | scripts/request-capture/analyze_capture.py:353-379 | a file is judged complete if and only if the header is the vault's and the file is the frames of a complete session from the first record on |
| CaptureDamage.DamageNamed | scripts/request-capture/analyze_capture.py:213-257 | behind whole frames of the vault, bytes that are no further frame of it leave the records before them and one issue, which names what was met first: a short header, another number, a senseless length, a short payload, or a frame that does not open |
| CaptureDamage.CutNamed | scripts/request-capture/analyze_capture.py:216-236 | a log cut off inside its last frame gives back every record before it and says where it was cut |
| CaptureSessions.CompleteExactly | scripts/request-capture/analyze_capture.py:353-379 | over every run of callbacks, every disk behaviour, every header and every file: judged complete if and only if the file is everything recorded through the one session_end that reports no failure, no number burned |
| CaptureSessions.FaultlessRunComplete | scripts/request-capture/capture_addon.py:255-263 | a run that ends with `done` and in which no write failed leaves a file that reads back in full and is judged complete, whatever the interleaving |
| CaptureSessions.RunGood | scripts/request-capture/capture_addon.py:131-263 | while nothing has failed every flow ever seen is active or has its terminal record |
| CaptureSessions.DoneGood | scripts/request-capture/capture_addon.py:255-263 | `done` keeps that, and closes the vault unless it raises |
| CaptureTallies.CountersExact | scripts/request-capture/capture_addon.py:149-253 | with distinct flow ids and until something fails: activations minus terminals is the number of active flows, chunk numbers are dense, recorded totals are those of the chunks recorded so far, and the status counters agree |
| CaptureTallies.CountedAt | scripts/request-capture/capture_addon.py:182-190 | every record of a counted history numbers its chunk next or gives the totals so far |
| CaptureStories.OwnStory | scripts/request-capture/capture_addon.py:149-259 | over every run in which nothing fails, each flow under its own id: the records of a flow are exactly its story, told from its own callbacks alone, and it is active if and only if it runs |
| CaptureStories.RecordsSynced | scripts/request-capture/capture_addon.py:156-259 | in such a run every record but chunks and WebSocket messages has reached the disk |
| CaptureEndings.EndedByFirst | scripts/request-capture/capture_addon.py:167-259 | in such a run a flow is active if and only if no callback has ended it since it began, and from the first that does it has one terminal record, with that callback's reason: the end of a response that is no WebSocket, the end of a WebSocket, an error, its client's disconnection, a capture conflict, or the stop |
| CaptureAddonObjects.CaptureAddon.Record | scripts/request-capture/capture_addon.py:131-147 | `emit`: the record, the counter, and the failure flag |
| CaptureAddonObjects.CaptureAddon.RequestHeaders | scripts/request-capture/capture_addon.py:149-158 | a new flow under its id, also over an old one |
| CaptureAddonObjects.CaptureAddon.ResponseHeaders | scripts/request-capture/capture_addon.py:167-191 | the header record, then upgrade, conflict or the stream hook |
| CaptureAddonObjects.CaptureAddon.Stream | scripts/request-capture/capture_addon.py:182-190 | a chunk is counted, recorded, and at the end followed by the eof record |
| CaptureAddonObjects.CaptureAddon.Response | scripts/request-capture/capture_addon.py:193-200 | the end of a response |
| CaptureAddonObjects.CaptureAddon.ClientDisconnected | scripts/request-capture/capture_addon.py:227-232 | the flows of a client connection, from a snapshot, until one raises |
| CaptureAddonObjects.CaptureAddon.ServerDisconnected | scripts/request-capture/capture_addon.py:234-239 | the flows of a server connection |
| CaptureAddonObjects.CaptureAddon.End | scripts/request-capture/capture_addon.py:248-253 | `terminal`: out of the table first, then the record |
| CaptureAddonObjects.CaptureAddon.Done | scripts/request-capture/capture_addon.py:255-263 | all terminals, then the close |
| CaptureAddonObjects.CaptureAddon.Take | scripts/request-capture/capture_addon.py:131-263 | any callback makes the step of the specification |
| WebSocketFrames.MaskInPlace | scripts/verify-websocket.mjs:21-22 | the in-place loop masks every byte with the mask byte of its position |
| WebSocketFrames.MaskedTwice | scripts/verify-websocket.mjs:49 | masking twice gives the payload back |
| WebSocketFrames.MaskedBitwise | scripts/verify-websocket.mjs:21-22 | every bit of a masked byte differs from the payload exactly where the mask byte at its position modulo four has a one |
| WebSocketFrames.DocumentedFrames | scripts/verify-websocket.mjs:9-23 | the encoder gives the example frames of section 5.7 of RFC 6455, byte for byte |
| WebSocketFrames.PartialWaits | scripts/verify-websocket.mjs:29-46 | a frame that has not arrived in full is waited for |
| WebSocketFrames.FaultsNamed | scripts/verify-websocket.mjs:44-45 | a frame is refused for its size, or as a control frame, if and only if it is past the limit, or else fragmented or too long for one |
| WebSocketFrames.ReservedBits | scripts/verify-websocket.mjs:32 | bytes are refused as compressed if and only if a reserved bit of the first is set |
| WebSocketFrames.EncodeFrame | scripts/verify-websocket.mjs:9-23 | the encoder writes the specified bytes in all three length forms, or refuses a length past 64 bits |
| WebSocketFrames.FrameDecoder.Feed | scripts/verify-websocket.mjs:25-56 | one chunk yields what decoding the whole buffer yields: frames, bytes left, fault |
| WebSocketFrames.DecodeInParts | scripts/verify-websocket.mjs:27-55 | decoding a buffer and later its rest with more bytes is decoding it at once, faults included |
| WebSocketFrames.ChunkingIrrelevant | scripts/verify-websocket.mjs:25-56 | frames, leftover bytes and fault are the same for every chunking of any byte stream |
| WebSocketFrames.FrameRoundTrip | scripts/verify-websocket.mjs:9-56 | an encoded frame followed by anything decodes to itself if and only if its opcode fits four bits, it is within the limit, and a control frame is final and short |
| WebSocketFrames.FramesRoundTrip | scripts/verify-websocket.mjs:9-56 | any list of acceptable frames, masked or not, in any chunking decodes to exactly that list with nothing left |
| WebSocketMessages.Reassembler.OnFrame | scripts/verify-websocket.mjs:94-117 | the frame handler makes the specified step |
| WebSocketMessages.MessagesReassembled | scripts/verify-websocket.mjs:107-117 | any fragmentation of a sequence of messages, with pings and pongs in between, comes out as those messages, every ping answered in order |
| WebSocketMessages.OversizeRefused | scripts/verify-websocket.mjs:111 | a message past the limit is refused and yields nothing |
| WebSocketMessages.OneCloseWritten | scripts/verify-websocket.mjs:98-104 | at most one Close is ever written, whatever is received and whenever the client hangs up |
| WebSocketMessages.WrittenExactly | scripts/verify-websocket.mjs:94-103 | over every run the client writes exactly a Pong with the payload of each Ping, one Close with the payload of the first Close, and one with its code when it hangs up before any Close |
| WebSocketMessages.RefusedExactly | scripts/verify-websocket.mjs:95-109 | a frame is refused if and only if it is masked, of a reserved opcode, a continuation of nothing, a beginning inside a message, or too much for the limit |
| WebSocketMessages.RefusedBecause | scripts/verify-websocket.mjs:95-109 | with which reason, for each reason an if and only if |
| WebSocketMessages.ControlHeard | scripts/verify-websocket.mjs:96-103 | the caller hears of a Close its code, or 1005, and nothing of a Ping or Pong |
| WebSocketMessages.ContentHeard | scripts/verify-websocket.mjs:104-114 | and a message of the kind of its first fragment when the last one comes, nothing before |
| WebSocketMessages.WireToMessages | scripts/verify-websocket.mjs:94-118 | bytes of fragmented messages, in any chunks, become exactly those messages |
| Mailboxes.EachEventOnce | scripts/verify-websocket.mjs:86-132 | over every interleaving the events received, in call order, then those queued are the events that arrived; queue and waiters are never both in use |
| Mailboxes.RunOrderly | scripts/verify-websocket.mjs:86-132 | the invariant behind it |
| Mailboxes.SettledOnce | scripts/verify-websocket.mjs:88-93 | a settled call never changes its outcome |
| Mailboxes.QueueOutlivesEnd | scripts/verify-websocket.mjs:124-126 | an event that was queued is received even after the end |
| Mailboxes.StepsSettle | scripts/verify-websocket.mjs:88-93 | over every run each step settles the calls it says and no other: an arrival the longest waiting one, with the event; a timer its own, as timed out; the first ending all that wait, with that ending |
| Mailboxes.CallsTake | scripts/verify-websocket.mjs:124-131 | a call takes the first queued event, or else the ending, or else waits |
| Mailboxes.MailboxObject.Push | scripts/verify-websocket.mjs:88 | an event goes to the longest waiting call or into the queue |
| Mailboxes.MailboxObject.Receive | scripts/verify-websocket.mjs:124-132 | a call takes from the queue, or the ending, or waits |
| Mailboxes.MailboxObject.Stop | scripts/verify-websocket.mjs:89-93 | the first ending refuses every waiting call |
| RpcTransports.ChunksJoin | src/rpc.mjs:162-184 | reading two chunks is reading their concatenation: the whole state is the same, lines, leftover, requests and failure |
| RpcTransports.ReadsLines | src/rpc.mjs:162-184 | the reader survives a byte string if and only if no line and no trailing part is over the limit and no line closes the transport; then exactly the lines were handed on, in order |
| RpcTransports.EveryLineFine | src/rpc.mjs:177-184 | that condition, line by line |
| RpcRequests.CodexRpc.OnData | src/rpc.mjs:162-175 | the scanning loop does what reading byte by byte does |
| RpcRequests.CodexRpc.Line | src/rpc.mjs:186-231 | a line: ignored, a protocol failure, emitted, or a response |
| RpcRequests.CodexRpc.FailWith | src/rpc.mjs:233-246 | a failure rejects what is pending, in order, and empties the table |
| RpcRequests.SettledExactlyOnce | src/rpc.mjs:109-128 | over every run the table holds exactly the unsettled ids, all issued, every other issued id was settled once, and after a failure the table is empty |
| RpcRequests.RunLedger | src/rpc.mjs:109-128 | the invariant behind it |
| RpcRequests.ReplySettlesItsOwn | src/rpc.mjs:219-230 | a response settles the request with its id and no other; late, repeated and unknown ids change nothing |
| RpcRequests.OutcomesTrue | src/rpc.mjs:114-127 | over every run a settlement says what happened: a response of that kind with that id was read, this request's own timer fired, or the transport failed of that cause |
| RpcRequests.ExpirySettlesItsOwn | src/rpc.mjs:115-118 | a timer settles its own request as timed out, if it is pending, and does nothing else |
| RpcRequests.LinesDo | src/rpc.mjs:177-211 | a whole line that is no response does nothing if blank, fails the transport for a protocol error if it is no message or over the limit, and is emitted otherwise, its listeners then acting |
| RpcRequests.CallsIssued | src/rpc.mjs:102-127 | a started transport gives a call the next id, behind the others, or settles it as not sent; one that is not started issues nothing |
| RpcRequests.FailureRejectsAll | src/rpc.mjs:233-243 | the first failure rejects every pending request with its cause, in the order they were issued |
| RpcRequests.HandshakeFirst | src/rpc.mjs:84-98 | over every run the transport counts as started only behind an answered initialize request, and going on starts it if and only if that was answered, nothing failed and the next message can be written |
| RpcRequests.FailureIsFinal | src/rpc.mjs:233-246 | after a failure no step issues, settles or emits anything |
| ServerSentEvents.SseWriter.OnEvent | src/server.mjs:57-67 | an event is written behind what was written, or refused; the first one starts the heartbeat |
| ServerSentEvents.SseWriter.Tick | src/server.mjs:62 | a tick writes a keepalive comment |
| ServerSentEvents.SseReader.DrainBuffer | examples/tool-client.mjs:104-119 | the drain loop does what the recursive specification does |
| ServerSentEvents.DrainInParts | examples/tool-client.mjs:104-119 | draining a buffer and later its rest with more text is draining it at once, a CR at the cut included |
| ServerSentEvents.ChunkingIrrelevant | examples/tool-client.mjs:121-133 | the reader ends the same for every way the text is cut |
| ServerSentEvents.WrittenIsRead | src/server.mjs:57-67 | what the server writes, keepalives anywhere between events, is delivered by the client as the same events in order, up to the first it rejects, for every chunking |
| ServerSentEvents.AllDelivered | examples/tool-client.mjs:74-91 | a client that rejects nothing sees every event once |
| EventStreamLines.EventRead | examples/tool-client.mjs:74-118 | an event written in any way the standard allows, its fields in any order and number, comments and unknown fields between them, with or without a space behind the colon, any of the three line ends, is delivered under its last name with its data lines joined |
| JsonTexts.QuoteUnique | src/protocol.mjs:49-50 | two string literals followed by anything are the same text only if they are the same string, lone surrogates and control characters included |
| CanonicalUniqueness.SelfDelimiting | src/protocol.mjs:47-51 | a canonical text ends where its value ends, whatever follows |
| CanonicalUniqueness.CanonicalExact | src/protocol.mjs:47-51 | canonical texts are equal if and only if the values are equal up to the order of object keys, numbers too large for a double counting as null |
| CanonicalUniqueness.CanonicalDecides | src/bridge.mjs:137 | without such numbers the comparison of tool lists decides equality up to key order |
| CanonicalUniqueness.OverflowPassesForNull | src/protocol.mjs:50 | the input that shows the exception is needed |
| OrderedJson.Walk | scripts/request-capture/analyze_capture.py:72-92 | the recursive walk with its occurrence dictionary lists exactly the specified fields |
| OrderedJson.FieldsOf | scripts/request-capture/analyze_capture.py:68-80 | the outermost call yields the fields exactly of the documents that can be printed |
| OrderedJson.OrderedDiff | scripts/request-capture/analyze_capture.py:382-388 | exactly the positions at which two lists differ, in order, none exactly when they are equal |
| JsonPaths.CanonicalInjective | scripts/request-capture/analyze_capture.py:60-69 | two documents with one canonical text are the same tree, order and repetition of keys included |
| JsonPaths.PathsUnique | scripts/request-capture/analyze_capture.py:72-92 | no two nodes of a document share a path, and a path looks up the entry of its node |
| JsonPaths.FieldDiffExact | scripts/request-capture/analyze_capture.py:391-393 | the difference lists a path if and only if it is the path of a position at which the documents differ, and is empty if and only if they are equal |
| TomlLines.ScanLine | scripts/sync-windows-client-profile.ps1:54-70 | the character loop computes the state the next line starts in |
| TomlLines.GetTomlStructure | scripts/sync-windows-client-profile.ps1:40-75 | tables, array tables, boundaries and active lines are exactly those outside every multiline string; an unterminated string is an error |
| TomlEdits.ClientConfig.SetTomlValue | scripts/sync-windows-client-profile.ps1:77-105 | the edit of the text is the specified edit of its lines, with the same errors and no change on error |
| TomlEdits.LocateSection | scripts/sync-windows-client-profile.ps1:78-92 | where the lines of a section are, or why they cannot be edited |
| TomlEdits.FindKeys | scripts/sync-windows-client-profile.ps1:93-101 | the lines that assign to the key, or the first that cannot be edited |
| TomlGrammar.HasKeyExactly | scripts/sync-windows-client-profile.ps1:94 | a line is found for a key if and only if it is space, a text equal to the key up to case, space, an equals sign and anything |
| TomlGrammar.OneAssignment | scripts/sync-windows-client-profile.ps1:94 | a line assigns to one plain key at most, up to case |
| TomlGrammar.OtherKeysUntouched | scripts/sync-windows-client-profile.ps1:93-103 | an edit never touches a line that assigns to another plain key |
| TomlGrammar.ReplacedExactly | scripts/sync-windows-client-profile.ps1:93-103 | a line is replaced if and only if some line of the section, outside every string, assigns to the key; otherwise the line of the key is new, at the end of the section |
| TomlErrors.EditsExactly | scripts/sync-windows-client-profile.ps1:77-103 | an edit succeeds if and only if no string is left open, the section is no array table and has one header at most, and at most one of its lines assigns to the key, with a value that ends on its line; each error says which of these fails |
| TomlTokens.LineReads | scripts/sync-windows-client-profile.ps1:54-70 | a line of strings, comments and other characters leaves a multiline string open if and only if it ends in one |
| TomlTokens.BlockReads | scripts/sync-windows-client-profile.ps1:56-60 | a line that begins in a multiline string stays in it, or leaves it at three quotes and goes on so |
| TomlTokens.HeaderReads | scripts/sync-windows-client-profile.ps1:45-52 | a table header is read as the names written in it, bare or quoted, with space and a comment |
| TomlTokens.ValueReads | scripts/sync-windows-client-profile.ps1:95-97 | the value of an assignment is what follows the equals sign, without the space before it |
| TomlTokens.RefusedExactly | scripts/sync-windows-client-profile.ps1:95-97 | the value of an assignment is refused if and only if it begins with three quotes, or is an array that its line does not close |
| TomlEdits.OthersUnchanged | scripts/sync-windows-client-profile.ps1:102-104 | every other line stays, in order, and the key's line begins outside every multiline string |
| TomlResults.SetOnceAndIdempotent | scripts/sync-windows-client-profile.ps1:77-105 | after a successful edit the key stands exactly once in its section with the given value, and the same edit again changes nothing |
| TomlResults.ClassesKeptExactly | scripts/sync-windows-client-profile.ps1:40-75 | the lexical classification of every other line is kept if and only if the replaced line closed its own strings |
| TomlResults.TextIdempotent | scripts/sync-windows-client-profile.ps1:77-105 | the same on the text, split and joined again |
| TomlResults.SplitJoin | scripts/sync-windows-client-profile.ps1:79 | joined lines split into those lines |
| TomlResults.OpenStringBreaks | scripts/sync-windows-client-profile.ps1:96-98 | a replaced value with a multiline string inside an inline table, which the guards let through, leaves a file that no longer reads |
| PatchJournals.Controller.Patch | scripts/request-capture/capturectl.py:110-116 | backup, journal and file are written in this order, as far as the machine gets |
| PatchJournals.PatchesApplied | scripts/request-capture/capturectl.py:110-116 | patching that is not cut short leaves every file as the changes made to it, one after the other, leave it, and no other file changed |
| PatchJournals.PatchJournalled | scripts/request-capture/capturectl.py:110-116 | a change that makes a difference is journalled with the hash of the new content and a backup of the old; one that makes none leaves no trace |
| PatchJournals.Controller.Undo | scripts/request-capture/capturectl.py:117-122 | the backward loop makes the specified steps |
| PatchRecovery.RecoversExactly | scripts/request-capture/capturectl.py:110-122 | wherever patching crashes and however often restore is cut short, no attempt refuses and one with writes enough leaves every file at its original, if and only if no file is ever given a third content |
| PatchRecovery.TwoVersionsRecover | scripts/request-capture/capturectl.py:110-122 | the positive half, for any hash |
| PatchRecovery.ThirdVersionStuck | scripts/request-capture/capturectl.py:117-122 | the negative half: a crash of the patching and a crash of one restore after which every later restore refuses |
| PatchRecovery.DistinctPathsTwoVersions | scripts/request-capture/capturectl.py:110-116 | patching each file at most once gives none a third content |
| PatchRecovery.RestoreKeeps | scripts/request-capture/capturectl.py:117-122 | the invariant behind it: with two versions of each file restore never refuses, wherever it begins |
| PatchJournals.ForeignStays | scripts/request-capture/capturectl.py:119-122 | restore never overwrites a file that is neither its backup nor its patched version |
| PatchJournals.RestoreExactly | scripts/request-capture/capturectl.py:117-122 | a restore that is not cut short stops if and only if some entry meets a foreign or missing file; then the files of the last such entry and of all before it are untouched and the later ones are back at their backups, otherwise all are |
| PatchJournals.SameFileTwiceStuck | scripts/request-capture/capturectl.py:117-122 | with one file patched twice a crashed restore can be stuck for good |
| Relays.EveryMessageCarried | native-runtime/src/websocket.rs:179-213 | in every run each side was sent, unchanged and in order, exactly the Text, Binary and Close messages among the first so many read from the other; and while the relay runs that is all that was read but for the message in hand, the last one |
| Relays.ContentComesToHand | native-runtime/src/websocket.rs:180-207 | a Text, Binary or Close read while relaying becomes the message in hand; a Ping or Pong does not |
| Relays.HandsGoOut | native-runtime/src/websocket.rs:192-195 | a message in hand goes out when its connection takes it, and the pump reads on when that is flushed; a connection that fails to do either ends the relay |
| Relays.CloseSeenThrough | native-runtime/src/websocket.rs:214-239 | a Close that was passed on is seen through: both sides are flushed, the other side is read until its own Close or its end, nothing more goes to either side, and one flush later the relay is over |
| Relays.RelayFaithful | native-runtime/src/websocket.rs:179-213 | in every run what each side was handed is, in order, what passes of a prefix of what the other side sent, with a Close at most as the last message |
| Relays.OneCloseCrosses | native-runtime/src/websocket.rs:190-212 | a Close crosses in one direction at most, if a connection that has read a Close takes no more messages |
| Relays.NothingAfterEnd | native-runtime/src/websocket.rs:214-242 | once a side has ended, a send has failed or a Close has been passed on, nothing is handed to either side, during the close phase included |
| Relays.ClosePhaseInFull | native-runtime/src/websocket.rs:192-242 | a run enters the close phase only over a Close: all that was read from the side that closed has been handed on, its Close last, and from then on nothing more is read from it or handed to either side |
| Relays.ClosesCouldCross | native-runtime/src/websocket.rs:179-214 | were a connection to take messages after a Close was read from it, two Closes could cross |
| Relays.RelayTask.Take | native-runtime/src/websocket.rs:166-243 | the relay between two awaits makes the specified step |

## Left out

- CodexBridges.CodexBridge.Accept: request validation is one flag; the field checks of `validateRequest` and the error projection are flat, and empty-string identifiers count as missing.
- CodexBridges.CodexBridge.Take: a sink that calls back into the bridge while it is handed an event is not modelled; neither is real time, so a timeout or expiry may fire whenever it is armed.
- CodexBridges.CodexBridge.ResumeTool: answering, draining and surfacing are one step, as the transport is up already when a tool output is resumed; the `lastError` field of a session is never set by the program and is not modelled.
- BridgeState.Continue: random identifiers are fresh numbers, so that response ids and call ids never collide by construction.
- BridgeDialogues.ThreadsAreOpened: the fixed fields of a thread/start request, the default for empty instructions and the prefixed tool names are not modelled.
- BridgeOrder.NotesAccounted: speaks of live sessions; when a drained note raises an exception the operation fails, and the notes behind it go down with the session.
- BridgeOrder.OrderExactly: whether a drain reaches a completed turn depends on the notes before it raising no exception, which is part of the condition.
- BridgeStreams.CompletedIsTranscribed: text is conserved per segment; a message split over two segments is sent in full by the second.
- BridgeUpstream.TurnsExactly: turns an app-server never tells of in a reply, a note or a tool call are not known to the model.
- BridgeUpstream.NoCrossCancel: assumes that the app-server does not return one thread id to two sessions.
- CaptureReaders.ReadRecords: RSA unwrapping is one of three outcomes (the vault's key, another key, none), and the file is read without I/O errors; the session label and the value-safe reports are not modelled.
- CaptureAddons.Next: request and response contents, connection metadata and the status file are not modelled; which flows belong to a connection is an argument of the callback.
- CaptureVaults.CaptureVault.Write: the lock is not modelled, as callbacks do not overlap.
- WebSocketFrames.FrameDecoder.Feed: after a fault the program feeds no more bytes; the model may, and the fault stays.
- Mailboxes.MailboxObject.Receive: promises are statuses by call number; a status that is not waiting is never overwritten, as with a settled promise.
- RpcTransports.Perform: listeners act as a function of the messages emitted so far, and what they do after the transport failed has no effect; starting and stopping the child process, its error output and the rejection of invalid timeouts are not modelled.
- ServerSentEvents.SseReader.DrainBuffer: UTF-8 decoding and the size limit of the reader are not modelled; the buffer of a reader that has thrown is not compared.
- OrderedJson.FieldDiff: a set, so the order of the differences by path is not captured.
- JsonPaths.PathsUnique: for documents in which no name is redacted; a redacted name is a hash that could equal another name.
- CanonicalJson.Canonical: negative zero and zero are one number, as they print alike and compare equal.
- TomlLines.HeaderOf: letter case is folded for ASCII only in names and keys.
- TomlEdits.ClientConfig.SetTomlValue: the file, its encoding and the choice of managed keys are not modelled.
- PatchRecovery.RecoversExactly: hashes are injective (the positive half needs no such assumption); every write is atomic, and a transform that raises is not modelled.
- Relays.OneCloseCrosses: rests on the rule of the WebSocket library that a connection which has read a Close takes no more messages; the library itself is not part of this model.
- Schedulers, processes, sockets, HTTP, TLS, proxies, tunnels, application control, compression, hashing, key wrapping, UTF-8 decoding and JSON text parsing.
- Header filters, authentication checks, configuration parsing, verification scripts, reports, the image tool and the official client libraries.
