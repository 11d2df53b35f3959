# V8 Agent OS engine: event delivery and its neighbours

A Dafny model of the engine's event-delivery path, from the durable runtime log to the ACP client, and of four smaller
cores beside it. `dafny verify dfyconfig.toml` checks all of it.

## What is modelled

**Delivery.** A client follows a session's runtime log over server-sent events (`session_events.dfy`). The log grows, loses
old events to retention, and may have holes; the reader replays contiguous events, falls back to a snapshot on a gap,
flushes a snapshot after changes, and resumes from an id the client holds. `delivery_world.dfy` is the state machine of
log, reader, network and client, a page being two separate reads as in `erc/session_runtime.py`; frame ids are not
monotone, so its invariant is coverage. `delivery_order.dfy` adds order, recovery and flushing, and
`delivery_resume.dfy` says exactly where a connection resumes and what one iteration sends. `delivery_end_to_end.dfy`
follows the frames through the printer and decoder (`sse.dfy`) into the de-duplication of a prompt, and
`delivery_frames.dfy` says what each frame tells the prompt.

**ACP bridge.** `acp_content.dfy` projects engine events and stored history to ACP updates. `acp_bridge.dfy` specifies one
`session/prompt` as a function of its event streams and of the answers of client and backend, `acp_session.dfy` is the
prompt as the bridge runs it, on mutable session and prompt state, and is proved equal to that function. The results about
all prompts are in `acp_bridge_proofs.dfy` and `acp_bridge_outcomes.dfy`, those on cancels in `acp_cancels.dfy` and those
on single events and answers in `acp_events.dfy`, `acp_fields.dfy` and `acp_interactions.dfy`; `acp_history.dfy` reads off
the stored messages who said what, and the replay is proved to send exactly that. `cancel_race.dfy` interleaves a prompt with
cancel requests, `acp_server.dfy` covers reply routing and worker admission, `stdio_framing.dfy` the wire framing.

**Probe cache.** `probe_cache.dfy`: requests and workers share one cache, an in-flight table, a failure table and the
latest key; every locked section is one step of a state machine. `probe_answers.dfy` traces every answer of a run back to
the steps that led to it.

**Memory extraction.** `memory_checkpoint.dfy` is the incremental checkpoint over a growing transcript;
`memory_scopes.dfy` and `memory_graph.dfy` re-scope what was extracted, merge duplicates, store facts and build graph edges;
`memory_decisions.dfy` and `memory_edges.dfy` say, from the extraction alone, what is reported and what is written.

**Message queue.** `message_queue.dfy`: rows, handlers and the drain that creates a run, claims a row and cancels the run
if the claim was lost; `queue_handlers.dfy` says what each of them does to one row and one run.

**DEX class table.** `dex_classes.dfy`: the parser over untrusted offsets, and a writer it inverts; `dex_reading.dfy` says
exactly which files it accepts.

`py_text.dfy` and `py_json.dfy` hold the Python string and JSON operations the others use.

Where the source updates state in place the model has a class or a method with the source's loops, and each such method is
proved equal to a function on values; the whole-run theorems are about those functions.

## Where the code does less than one might expect

Each of these is a lemma with a concrete input or an exact condition.

- A cancel that races with a resumed prompt can be lost (`CancelRace.ResumedCancelSafeExactly`).
- A replayed event can still bind a prompt to a run it does not know yet, and then deleting it changes the result
  (`AcpBridgeOutcomes.ReplayErasureExactly`, `AcpBridgeOutcomes.ErasedReplayChangesResult`).
- The time shown with a refreshed environment snapshot is that of the last cache write, which can be another
  configuration's (`ProbeCache.RefreshStampExactly`, `ProbeCache.RefreshStampMayBeForeign`).
- New transcript entries that repeat the whole covered transcript are skipped until more arrive (`MemoryCheckpoint.CatchesUpExactly`).
- After duplicates are merged, a relation's fact index can point at another fact (`MemoryGraph.PositionSurvivesExactly`).
- Rows promoted for a run that fails or is cancelled are never put back (`MessageQueue.PostRunReturnsExactly`).
- Promote, cancel and edit write without checking again what they read, so the queue's guarantees need them to be atomic
  (`MessageQueue.LatePromoteConsumesTwice`, `MessageQueue.LatePromoteRevives`).
- The dirty flush is as sound as the snapshots it takes, and a gap recovery makes progress only when its snapshot is ahead
  (`DeliveryOrder.CleanReaderIsCoveredExactly`, `DeliveryOrder.IterationProgressExactly`).

## Model

| member | source | states |
|---|---|---|
| DeliveryWorld.NoLoss | apps/v8-agent-os-engine/api/client_realtime.py:69-153 | After every interleaving of log appends, retention deletes, page reads, deliveries, disconnects and reconnects, every event ever appended up to the last frame id the client received was sent, is excluded from transport, or lies under a received snapshot. No freshness of snapshots is assumed. |
| DeliveryWorld.StepKeepsInvariant | apps/v8-agent-os-engine/api/client_realtime.py:69-153 | Every step of log, reader, network and client keeps: each frame with an id leaves everything up to that id covered, and the cursor never passes an uncovered event. |
| DeliveryWorld.PollSafe | apps/v8-agent-os-engine/api/client_realtime.py:106-151 | One poll, whatever page and snapshot it meets, preserves coverage: the frames sent cover everything up to the new cursor. |
| DeliveryWorld.ReplaySafe | apps/v8-agent-os-engine/api/client_realtime.py:126-140 | Replaying a page without a hole covers every event up to the new cursor, at every frame on the way. |
| DeliveryOrder.ConnectionOrder | apps/v8-agent-os-engine/api/client_realtime.py:106-148 | On one connection runtime events are strictly increasing and, between recovery snapshots, skip only events excluded from transport. |
| DeliveryOrder.CleanReaderIsCoveredExactly | apps/v8-agent-os-engine/api/client_realtime.py:141-148 | Over any run and with any snapshots: a clean reader's last snapshot reaches every runtime event sent, throughout, if and only if every snapshot that left the reader clean reached the runtime events sent by then. |
| DeliveryOrder.IterationProgressExactly | apps/v8-agent-os-engine/api/client_realtime.py:106-124 | Over any run and with any snapshots the cursor never falls; a gap recovery raises it if and only if its snapshot is ahead of it, any other iteration if and only if its page has events. |
| DeliveryOrder.OrderAcrossConnections | apps/v8-agent-os-engine/api/client_realtime.py:86-92 | On connections opened without an event id, each with a snapshot that reaches what the client was told before, no runtime event follows a frame that reported its position, across all connections together. |
| DeliveryResume.ResumptionIsExact | apps/v8-agent-os-engine/api/client_realtime.py:84-140 | Over any run, a connection opened with the last received id L starts at L when 0 < L and its snapshot reaches L, and at the snapshot otherwise. From there to its cursor it skips nothing: each number is hidden, was sent as a runtime frame on this connection, or lies under a recovery snapshot of it; and it repeats nothing: no runtime frame is at or before the start. |
| DeliveryResume.IterationExactly | apps/v8-agent-os-engine/api/client_realtime.py:106-151 | What one iteration does with a page read after the cursor, in full and without the reader's own functions: a page with a missing number, or an empty one behind the log, gives exactly a recovery snapshot and the larger cursor; any other gives its visible events, moves to its end, flushes after half a second of changes, and beats every 12 seconds. |
| SessionEvents.SessionReader.constructor | apps/v8-agent-os-engine/api/client_realtime.py:71-96 | Opening a connection: the first frame is the snapshot stamped with its own position, and the cursor is the resume point or that position. |
| SessionEvents.SessionReader.FindGap | apps/v8-agent-os-engine/api/client_realtime.py:110-119 | The scan over a page finds a gap exactly when a later event skips a number, or nothing was read although the log is ahead. |
| SessionEvents.SessionReader.ReplayPage | apps/v8-agent-os-engine/api/client_realtime.py:126-140 | The replay loop advances the cursor and yields frames as the replay function that the coverage theorems are about. |
| SessionEvents.SessionReader.PollOnce | apps/v8-agent-os-engine/api/client_realtime.py:106-151 | One loop iteration on the mutable loop variables equals the value-level poll used in the whole-run theorems. |
| DeliveryEndToEnd.WireRoundTrip | apps/v8-agent-os-engine/api/client_realtime.py:17-19 | The printed bytes of a session stream decode to exactly the events of its frames, in order, for every JSON library that prints objects on one line and reads them back. |
| DeliveryEndToEnd.RuntimeKnown | apps/v8-agent-os-engine/api/client_realtime.py:107-139 | Every runtime frame of a run carries an event of the log. |
| DeliveryEndToEnd.DroppedOnlyIfReported | apps/v8-agent-os-engine/acp_bridge/bridge.py:326-330 | Over any run, with any snapshots and with or without resuming, from the bytes of each connection to the prompt: a runtime event is dropped as a duplicate only if its event id was sent in an earlier frame, or it has no id and an earlier frame reported its number. |
| DeliveryEndToEnd.DeduplicationIsSafe | apps/v8-agent-os-engine/acp_bridge/bridge.py:326-330 | On connections opened without an id whose first snapshots reach what the client was told before, no heartbeat and no other event of any connection makes a prompt drop a runtime event. |
| DeliveryFrames.HiddenExactly | apps/v8-agent-os-engine/api/client_realtime.py:134-138 | An event is kept from clients exactly by one of the listed visibilities, one of the three session topics, the desktop prefix or the diagnostic suffix. |
| DeliveryFrames.RuntimeFrameExactly | apps/v8-agent-os-engine/api/client_realtime.py:139-139 | The prompt reads from a runtime frame exactly the number, id, run, topic, visibility and payload of the log's event; its run is the event's, or the payload's when the event names none. |
| DeliveryFrames.SnapshotFrameExactly | apps/v8-agent-os-engine/api/client_realtime.py:93-124 | A snapshot frame reaches the prompt as a snapshot event that carries the state unchanged, the position it reports and, exactly after a gap, the recovery mark. |
| Sse.EventIdRoundTrip | apps/v8-agent-os-engine/api/client_realtime.py:71-80 | An event id resumes its own session exactly at its number and any other session at 0, whatever colons session ids contain. |
| Sse.ResumeExactly | apps/v8-agent-os-engine/api/client_realtime.py:71-80 | Any resume text: a bare number, or one behind the last colon for this very session, resumes at that number, and at 0 when it is negative or no number; behind any other prefix it resumes at 0. |
| Sse.SplitDataJoins | apps/v8-agent-os-engine/acp_bridge/backend.py:180-192 | Data lines, however many, are joined by newlines before they are parsed at the blank line. |
| Sse.SseRoundTrip | apps/v8-agent-os-engine/acp_bridge/backend.py:175-192 | Decoding any concatenation of printed frames yields their values in order, snapshot and error frames wrapped as coded, without failing, when each value prints as an object and reads back (section 9.2 of the WHATWG HTML standard). |
| Sse.NdjsonRoundTrip | apps/v8-agent-os-engine/acp_bridge/backend.py:193-197 | Decoding objects printed one per line yields the same objects in order. |
| Sse.NdjsonRefusesNonObjects | apps/v8-agent-os-engine/acp_bridge/backend.py:193-197 | A line that does not parse or is no object ends the stream with an error after exactly the objects before it. |
| Sse.DecodeStream | apps/v8-agent-os-engine/acp_bridge/backend.py:175-197 | The line loop, in both its forms, yields exactly the events of the decoder function and fails exactly when it does. |
| StdioFraming.StdioRoundTrip | apps/v8-agent-os-engine/acp_bridge/stdio_server.py:28-70 | Reading any list of messages written in any mix of the two framings gives the same bodies and framings in order, then the end of input; lengths are UTF-8 byte counts (section 3 of RFC 3629). |
| StdioFraming.BodyOutcome | apps/v8-agent-os-engine/acp_bridge/stdio_server.py:50-61 | A body is delivered if and only if some prefix of the input has the declared byte count, and it is that prefix; otherwise the length splits a character or the input ends. |
| PyText.Utf8LengthExactly | apps/v8-agent-os-engine/acp_bridge/stdio_server.py:50-59 | The byte count of a text is the length of its encoding; `Utf8BytesSpell` shows that the encoding's bytes announce their number and spell the character (section 3 of RFC 3629). |
| StdioFraming.FrameConsumes | apps/v8-agent-os-engine/acp_bridge/stdio_server.py:28-61 | Every delivered frame leaves strictly less input, so the reader ends on every finite input. |
| StdioFraming.HeaderParses | apps/v8-agent-os-engine/acp_bridge/stdio_server.py:15-25 | A written length header parses back to its number. |
| StdioFraming.HeaderBlock | apps/v8-agent-os-engine/acp_bridge/stdio_server.py:36-49 | A block of any header lines in any order ends at its blank line and declares the last length it names; a block cut off by the end of the input is an error. |
| StdioFraming.HeaderLineExactly | apps/v8-agent-os-engine/acp_bridge/stdio_server.py:15-25 | A line is a length header exactly when its name is the length header's in any case and padding; then its value must be a number, and not a negative one. |
| StdioFraming.ObjectIsNoHeader | apps/v8-agent-os-engine/acp_bridge/stdio_server.py:15-18 | A line holding a JSON object is never taken for a length header, whatever keys it has. |
| StdioFraming.ContentLengthRoundTrip | apps/v8-agent-os-engine/acp_bridge/stdio_server.py:64-67 | A length-framed message reads back whatever follows it. |
| StdioFraming.NewlineRoundTrip | apps/v8-agent-os-engine/acp_bridge/stdio_server.py:68-69 | A line-framed JSON object reads back whatever follows it. |
| StdioFraming.ReadStdioFrame | apps/v8-agent-os-engine/acp_bridge/stdio_server.py:28-61 | The reading loops consume exactly what the reader function consumes and return its result. |
| StdioFraming.ReadStdioBody | apps/v8-agent-os-engine/acp_bridge/stdio_server.py:50-61 | The character loop returns the body function's result for the declared length. |
| AcpContent.HistoryToolTrace | apps/v8-agent-os-engine/acp_bridge/content.py:98-127 | A history replay announces each tool id with exactly one `tool_call`, before every update of it. |
| AcpContent.WellFormedToolsMeaning | apps/v8-agent-os-engine/acp_bridge/content.py:56-62 | What a well-formed trace means: of two updates with one tool id the later is no `tool_call`, and an update of that id at or before the earlier one is. |
| AcpContent.RuntimeUpdateOpens | apps/v8-agent-os-engine/acp_bridge/content.py:65-95 | Tool, activity and side-runtime updates are `tool_call` exactly when their id was not announced before. |
| AcpContent.CollectHistoryUpdates | apps/v8-agent-os-engine/acp_bridge/content.py:98-127 | The nested replay loops produce exactly the updates of the replay function, and fail exactly where it does. |
| AcpHistory.HistorySaysWhatWasSaid | apps/v8-agent-os-engine/acp_bridge/content.py:98-127 | Replaying a readable record sends, for every run, as answers exactly what the agent's messages of that run say, in order, as user chunks exactly what the user's say, and as thoughts their reasoning; a message says its shown narrative texts, or its content when it has none. The stored text of a run is what the agent said in it. |
| AcpEvents.StoredToolExactly | apps/v8-agent-os-engine/acp_bridge/content.py:110-115 | A stored tool node becomes an update of its tool in its message's run: in progress for a call, otherwise by the result's status; a node without an id fails the replay. |
| AcpEvents.PlainMessageExactly | apps/v8-agent-os-engine/acp_bridge/content.py:123-127 | A stored message without nodes becomes one chunk of its author, with its text, its id and its run. |
| AcpEvents.ProjectionExactly | apps/v8-agent-os-engine/acp_bridge/content.py:70-74 | Streamed text of the main lane is answer or reasoning text of its run; text of any other lane is an activity of that lane. |
| AcpEvents.ToolProjectionExactly | apps/v8-agent-os-engine/acp_bridge/content.py:75-88 | A tool event without an id is an error; any other updates its tool, opening the call exactly when the id is new, with the status its kind and result say. |
| AcpEvents.ActivityProjectionExactly | apps/v8-agent-os-engine/acp_bridge/content.py:89-94 | Progress, runtime and artifact events update an activity of their run, completed or failed by their status and in progress otherwise. |
| AcpFields.EventFieldsExactly | apps/v8-agent-os-engine/acp_bridge/content.py:41-53 | The run, kind and identity of an event are the first set of the places they may stand in, the event before its data. |
| AcpFields.StatusFieldsExactly | apps/v8-agent-os-engine/acp_bridge/bridge.py:331-350 | The key of an interaction, whether it is still pending, and the status of a `done` event, each by the first place that is set. |
| AcpBridgeProofs.PromptToolTrace | apps/v8-agent-os-engine/acp_bridge/bridge.py:270-371 | In any prompt, over all event streams and answers, each tool id gets exactly one `tool_call`, before its updates. |
| AcpBridgeProofs.InteractionsOnce | apps/v8-agent-os-engine/acp_bridge/bridge.py:331-338 | Each interaction that an event brings reaches the interaction handler at most once per prompt, however often streams are reopened and replayed. |
| AcpBridgeProofs.AnswersAuthorized | apps/v8-agent-os-engine/acp_bridge/bridge.py:202-262 | The backend is told of an approval, a refusal or an answer only after the client replied exactly that to a request for that interaction, or by the prompt's own text for a question pending at its start. |
| AcpInteractions.InteractionExactly | apps/v8-agent-os-engine/acp_bridge/bridge.py:202-262 | One interaction, by what it asks: without an id it fails, a Spec stage decision is referred to Admin and fails, anything but a question asks for permission, and a question goes to the client as a form or, if it has none, as text that leaves the question pending. |
| AcpInteractions.ElicitationExactly | apps/v8-agent-os-engine/acp_bridge/bridge.py:218-233 | Typed text goes to the backend and the prompt goes on with the run it resumed; a declined form leaves the question pending, a request given up cancels the known run, and any other answer fails the prompt. |
| AcpInteractions.PermissionExactly | apps/v8-agent-os-engine/acp_bridge/bridge.py:234-262 | A selected option goes to the backend: a denial it took refuses, an approval it took lets the run go on; a request given up cancels the known run, and any other answer fails the prompt. |
| AcpInteractions.StartExactly | apps/v8-agent-os-engine/acp_bridge/bridge.py:273-291 | A prompt with nothing pending starts without a run; one with a pending question sends its text as the answer, one with a pending approval asks again; the pending entry is dropped exactly when the answer was taken. |
| AcpCancels.AnswersArePassedOn | apps/v8-agent-os-engine/acp_bridge/bridge.py:202-262 | Over whole prompts every answer the client gives is passed on to the backend as the very next action, and the prompt sends at most one cancel the client did not cause by giving up a request, and none unless the cancel flag was seen. |
| AcpCancels.CancelOnLearning | apps/v8-agent-os-engine/acp_bridge/bridge.py:301-304 | Over whole prompts: with the cancel flag set, when a prompt that knows no run reaches an event that names one, its next action is the cancel of that run, and a refused cancel fails it; with the flag clear no cancel is sent there. |
| AcpCancels.RaceAgrees | apps/v8-agent-os-engine/acp_bridge/bridge.py:301-304 | Learning a run in a prompt does what the prompt thread of the cancel race does in its learning, testing and cancelling steps. |
| AcpEvents.NewEventIsSent | apps/v8-agent-os-engine/acp_bridge/bridge.py:323-371 | When a prompt reaches a new event of its run that projects to an update, sending that update is the next thing it does; one that projects to nothing sends nothing, and one that cannot be projected fails it. |
| AcpEvents.NewQuestionIsTakenUp | apps/v8-agent-os-engine/acp_bridge/bridge.py:331-338 | When a prompt reaches a new event with a pending question it has not met, taking that question up is the next thing it does. |
| AcpEvents.ForeignErasure | apps/v8-agent-os-engine/acp_bridge/bridge.py:305-325 | Once a prompt knows its run, events and snapshots of other runs, and snapshots of its own run without a terminal status, can be deleted from anywhere in its streams without any change. |
| AcpEvents.DoneEndsPrompt | apps/v8-agent-os-engine/acp_bridge/bridge.py:347-383 | A `done` event of the prompt's run with nothing to resume ends the prompt with the result its status stands for. |
| AcpEvents.WaitingDoneExactly | apps/v8-agent-os-engine/acp_bridge/bridge.py:349-361 | A `done` event that waits for the user looks up what is pending and puts it to the user; a resumed run goes on with another stream, a refusal ends the prompt as refused, an unanswered question as waiting, and a failed look-up or answer as failed. |
| AcpEvents.NoIdleReopen | apps/v8-agent-os-engine/acp_bridge/bridge.py:292-383 | Every stream after the first is read with nothing left to resume, and only because an event reached in the stream before it asked the user or said that the run goes on or waits. |
| AcpEvents.CatchUpExactly | apps/v8-agent-os-engine/acp_bridge/bridge.py:311-320 | The catch-up sends exactly what the stored answer of the run has beyond the live text, under the id of the last message stored for that run. |
| AcpEvents.TerminalSnapshotEndsPrompt | apps/v8-agent-os-engine/acp_bridge/bridge.py:305-322 | A snapshot that reports the prompt's own run as ended, with a readable history that the live text agrees with, ends the prompt with the result its status stands for. |
| AcpBridgeProofs.RunStreamsExtends | apps/v8-agent-os-engine/acp_bridge/bridge.py:293-383 | Reading further streams only adds to what the prompt has done. |
| AcpBridgeOutcomes.LiveTextEqualsHistory | apps/v8-agent-os-engine/acp_bridge/bridge.py:305-322 | A prompt that meets a terminal snapshot of its run with a non-empty stored answer has then sent, for that run, chunks that concatenate exactly to it; or what it had sent is no prefix, and it fails and sends nothing more. |
| AcpBridgeOutcomes.SingleRunText | apps/v8-agent-os-engine/acp_bridge/bridge.py:367-371 | When all answer chunks were sent under one known run, the text of that run is all the text sent. |
| AcpBridgeOutcomes.NoUnearnedCompletion | apps/v8-agent-os-engine/acp_bridge/bridge.py:293-383 | A prompt completes only with a confirmed status earned by an event it reached: a terminal snapshot of its run, a `done` event of its run, or a refusal passed on. |
| AcpBridgeOutcomes.PromptEndsExactly | apps/v8-agent-os-engine/acp_bridge/bridge.py:293-383 | Over all event sequences and reopened streams, a prompt ends with a result if and only if a reached event decided that result or a reached stream ran out to it. |
| AcpBridgeOutcomes.PromptFailsExactly | apps/v8-agent-os-engine/acp_bridge/bridge.py:373-381 | The outcome is unknown exactly when a reached stream ends by itself with nothing left to resume, the run failed exactly when a reached event ends its stream with a failed status, and completion is not confirmed exactly when one ends it with a status that is neither failed nor confirmed. |
| AcpBridgeOutcomes.ReplayedIsIgnored | apps/v8-agent-os-engine/acp_bridge/bridge.py:300-330 | Handling an already accepted event does nothing if and only if it cannot bind the prompt to a run: the run is known or the event names none. |
| AcpBridgeOutcomes.ReplayErasure | apps/v8-agent-os-engine/acp_bridge/bridge.py:293-345 | Deleting such an event from anywhere in the multi-stream event sequence changes neither the messages sent nor the result. |
| AcpBridgeOutcomes.ReplayErasureExactly | apps/v8-agent-os-engine/acp_bridge/bridge.py:300-330 | An accepted event that is replayed can be deleted in front of every continuation if and only if it cannot bind the prompt to a run. |
| AcpBridgeOutcomes.ErasedReplayChangesResult | apps/v8-agent-os-engine/acp_bridge/bridge.py:300-330 | A concrete prompt from a new session in which deleting a replayed event changes the reported run. |
| AcpBridgeOutcomes.CopyErasure | apps/v8-agent-os-engine/acp_bridge/bridge.py:293-345 | Once a prompt has accepted an event, every later identical copy, in the same or a reopened stream, can be deleted without changing messages, result or state. |
| AcpBridgeOutcomes.RunStaysKnown | apps/v8-agent-os-engine/acp_bridge/bridge.py:300-304 | Handling an event that names a run makes the run known, and a known run stays known. |
| AcpBridgeOutcomes.AcceptedIdentities | apps/v8-agent-os-engine/acp_bridge/bridge.py:326-330 | An identity accepted when an event is reached was accepted before the streams began or is carried by an earlier event. |
| AcpSessions.SessionPrompt | apps/v8-agent-os-engine/acp_bridge/bridge.py:264-387 | A prompt is refused while another runs; otherwise it does and returns exactly what the specification says, and the session lock is free again on every exit. |
| AcpSessions.PromptRun.Handle | apps/v8-agent-os-engine/acp_bridge/bridge.py:295-371 | One pass through the event loop on the mutable prompt state equals the specified handling of the event. |
| AcpSessions.PromptRun.RunInteraction | apps/v8-agent-os-engine/acp_bridge/bridge.py:202-262 | The interaction handler on the mutable state equals its specification, for every reply and backend response. |
| AcpSessions.PromptRun.QuestionUser | apps/v8-agent-os-engine/acp_bridge/bridge.py:214-233 | The branch that asks the user, by message or by elicitation, equals its specification. |
| AcpSessions.PromptRun.Start | apps/v8-agent-os-engine/acp_bridge/bridge.py:273-291 | The three ways to start a prompt, with their early exits. |
| AcpSessions.PromptRun.ReadStream | apps/v8-agent-os-engine/acp_bridge/bridge.py:294-372 | The event loop over one stream equals its specification. |
| AcpSessions.PromptRun.ReadStreams | apps/v8-agent-os-engine/acp_bridge/bridge.py:292-383 | The loop over reopened streams equals its specification. |
| CancelRace.CancelNeverLost | apps/v8-agent-os-engine/acp_bridge/bridge.py:176-183 | In a fresh prompt, over all interleavings with any number of cancel requests, once the prompt reads its stream every finished cancel that set the flag after the clear led to a backend cancel of the newly learned run. |
| CancelRace.CallsNameKnownRuns | apps/v8-agent-os-engine/acp_bridge/bridge.py:267-304 | Every cancel the backend receives names the learned run or the one left over from before. |
| CancelRace.NoStaleCancel | apps/v8-agent-os-engine/acp_bridge/bridge.py:269-304 | Over all interleavings a fresh prompt cancels its run itself only if a cancel was requested after it began: a flag left over from an earlier prompt has no effect. |
| CancelRace.ResetForgetsOldRun | apps/v8-agent-os-engine/acp_bridge/bridge.py:287-304 | Once a fresh prompt has reset the run, with no cancel about to call, every further cancel names the run it learns, whichever run the session held before. |
| CancelRace.ResumedCancelSafeExactly | apps/v8-agent-os-engine/acp_bridge/bridge.py:280-286 | In a resumed prompt a cancel can be lost: it is safe in every interleaving if and only if the session already held the run id the backend's response names. |
| CancelRace.LosingScheduleLoses | apps/v8-agent-os-engine/acp_bridge/bridge.py:280-286 | A concrete interleaving in which a resumed prompt loses a cancel. |
| ReplyRouting.RepliesReachTheirRequest | apps/v8-agent-os-engine/acp_bridge/bridge.py:185-200 | In every interleaving an id is registered exactly while its request waits, and the response a request reads consists of replies addressed to its own id. |
| ReplyRouting.ReceiveExactly | apps/v8-agent-os-engine/acp_bridge/bridge.py:46-52 | A message wakes exactly the request it answers and adds its fields to that response; every other entry, and every message that answers nothing, is left alone. |
| ReplyRouting.AnswerIsDelivered | apps/v8-agent-os-engine/acp_bridge/bridge.py:185-200 | No answer is lost: in every reachable state an answered waiting request can wake and read, and then holds every field of the answer. |
| ReplyRouting.PendingReplies.HandleReply | apps/v8-agent-os-engine/acp_bridge/bridge.py:46-52 | Receiving a message does to the table what the receiving step of the whole system does. |
| ReplyRouting.PendingReplies.Register | apps/v8-agent-os-engine/acp_bridge/bridge.py:186-189 | Registering does to the table what the asking step of the whole system does. |
| ReplyRouting.PendingReplies.Unregister | apps/v8-agent-os-engine/acp_bridge/bridge.py:198-200 | Leaving does to the table what the leaving step of the whole system does. |
| WorkerAdmission.AdmissionLimits | apps/v8-agent-os-engine/acp_bridge/stdio_server.py:97-108 | Over any sequence of prompt requests and worker exits there are never more than 8 live prompt workers nor two for one session. |
| WorkerAdmission.AdmittedExactly | apps/v8-agent-os-engine/acp_bridge/stdio_server.py:97-108 | In every reachable state a prompt is admitted exactly when its session has no running worker and fewer than eight run: finished workers never stand in the way. |
| WorkerAdmission.Server.Admit | apps/v8-agent-os-engine/acp_bridge/stdio_server.py:99-108 | A prompt request does to the table what the request step of the whole system does, and starts a worker exactly when that step does. |
| ProbeCache.CacheAgreesWithProbe | apps/v8-agent-os-engine/api/config_registry_routes.py:1208-1349 | Under every interleaving of requests and workers, the cache entry is the result of a probe of a configuration with its key; every answer shows such a result for the requested key or the placeholder, a ready answer never the placeholder, and errors are reported only for keys that failed. |
| ProbeCache.OneProbePerKey | apps/v8-agent-os-engine/api/config_registry_routes.py:1246-1267 | Two workers that have not recorded their outcome yet probe different keys. |
| ProbeCache.SupersededNeverWrites | apps/v8-agent-os-engine/api/config_registry_routes.py:1231-1239 | Every cache write was for the key scheduled last before it, and the cache holds the last key written. |
| ProbeCache.FailuresAreLatest | apps/v8-agent-os-engine/api/config_registry_routes.py:1217-1242 | A failure is listed for a key exactly when the outcome recorded last for that key is a failure. |
| ProbeCache.LatestKeyIsServed | apps/v8-agent-os-engine/api/config_registry_routes.py:1246-1267 | The key scheduled last is in flight, cached or recorded as failed. |
| ProbeCache.WaiterIsReleased | apps/v8-agent-os-engine/api/config_registry_routes.py:1312-1337 | No waiting refresh is stranded: in every reachable state its worker finishing, whatever the outcome, leads to its answer. |
| ProbeAnswers.AnsweredByFirstLook | apps/v8-agent-os-engine/api/config_registry_routes.py:1274-1349 | Over every interleaving, a request without refresh is answered by what its first look saw: ready exactly when the entry has its key, is younger than 30 seconds and no probe of its key is in flight; an error exactly when not so and its last failure is younger than 10 seconds with none in flight; refreshing otherwise. |
| ProbeAnswers.RefreshAnsweredByProbe | apps/v8-agent-os-engine/api/config_registry_routes.py:1312-1337 | Over every interleaving, a refresh is never answered by its first look: it waited for a probe of its key that had not recorded its outcome when the wait began, it is ready exactly when that probe succeeded, and then shows its snapshot. |
| ProbeAnswers.RequestsAsArrived | apps/v8-agent-os-engine/api/config_registry_routes.py:1269-1273 | Every request is answered for the configuration and the refresh flag it arrived with. |
| ProbeAnswers.CacheIsLastWrite | apps/v8-agent-os-engine/api/config_registry_routes.py:1231-1239 | At every moment the cache holds exactly what the last success recorded for the key scheduled last put there, with the time of that record. |
| ProbeAnswers.FailureIsLastRecord | apps/v8-agent-os-engine/api/config_registry_routes.py:1217-1242 | At every moment the failure of a key is the outcome recorded last for it, with the time of that record. |
| ProbeAnswers.KeysAgreeExactly | apps/v8-agent-os-engine/api/config_registry_routes.py:1109-1119 | Two configurations share a key exactly when they agree on both addresses, the desktop tools and the remote link, an unset one being as good as empty. |
| ProbeCache.RefreshStampExactly | apps/v8-agent-os-engine/api/config_registry_routes.py:1330-1335 | Over every interleaving, the time a successful refresh shows is that of the last cache write; the entry it is taken from has the requested key if and only if the last write was for that key. |
| ProbeCache.OwnStampWithoutOtherKeys | apps/v8-agent-os-engine/api/config_registry_routes.py:1330-1335 | If no other key was ever scheduled, a successful refresh shows the time at which a probe of its own key was recorded. |
| ProbeCache.RefreshStampMayBeForeign | apps/v8-agent-os-engine/api/config_registry_routes.py:1330-1335 | A concrete run in which the time shown belongs to another key's probe. |
| ProbeCache.SameKeySameProbe | apps/v8-agent-os-engine/api/config_registry_routes.py:1109-1119 | Configurations with one key pass the same arguments to the probe. |
| ProbeCache.StepKeepsSound | apps/v8-agent-os-engine/api/config_registry_routes.py:1208-1349 | Every locked section and every thread step keeps single flight, provenance of cache and failures, and soundness of all requests. |
| ProbeCache.Globals.ScheduleProbe | apps/v8-agent-os-engine/api/config_registry_routes.py:1246-1267 | The scheduling section: the latest key is set, and a future is shared or created as specified. |
| ProbeCache.Globals.RecordOutcome | apps/v8-agent-os-engine/api/config_registry_routes.py:1213-1243 | The recording section of a worker: cache, failure and in-flight tables become exactly as specified. |
| ProbeCache.Globals.Look | apps/v8-agent-os-engine/api/config_registry_routes.py:1274-1312 | The first section of a request reads the globals and decides as specified: fresh answer, failure answer, join, or schedule. |
| MemoryCheckpoint.ExactlyOnce | apps/v8-agent-os-engine/agents/memory_agent.py:335-376 | After any history of appends, revisions and completed, skipped or failed runs, what the completed runs have read is the transcript at the last of them, every entry once and in order. |
| MemoryCheckpoint.UnchangedDoesNothing | apps/v8-agent-os-engine/agents/memory_agent.py:348-363 | A run on an unchanged transcript after a completed one is skipped as a duplicate and changes nothing. |
| MemoryCheckpoint.CatchesUpExactly | apps/v8-agent-os-engine/agents/memory_agent.py:365-376 | A run with new entries reads all of them, except exactly when they repeat the covered transcript field by field; then it is skipped. |
| MemoryCheckpoint.DistinctNeverRepeat | apps/v8-agent-os-engine/agents/memory_agent.py:335-347 | Entries with distinct hashed fields never repeat, so for them no run is skipped by mistake. |
| MemoryCheckpoint.DuplicateIsPutOff | apps/v8-agent-os-engine/agents/memory_agent.py:372-374 | Entries skipped as a repeat are read by the next completed run after the transcript grows. |
| MemoryCheckpoint.RewriteIsRereadExactly | apps/v8-agent-os-engine/agents/memory_agent.py:358-376 | A transcript rewritten without dropping the checkpoint is read again in full exactly when it has not grown. |
| MemoryCheckpoint.ExtractionStore.Analyze | apps/v8-agent-os-engine/agents/memory_agent.py:2994-3003 | A run saves a checkpoint exactly when it completes, for its own session only, and extracts exactly the resolved increment. |
| MemoryCheckpoint.HashesAgreeExactly | apps/v8-agent-os-engine/agents/memory_agent.py:335-347 | Two transcripts have one hash exactly when they are equally long and agree entry by entry on the hashed fields. |
| MemoryCheckpoint.ReadsExactly | apps/v8-agent-os-engine/agents/memory_agent.py:350-376 | What a run reads and why, for every checkpoint and transcript, with the exact condition of each of the six modes. |
| MemoryScopes.ScopesAreContained | apps/v8-agent-os-engine/agents/memory_agent.py:1770-1861 | After alignment every preference and fact has the target scope or `global`, and `global` exactly when the target is global, a promotion reason backs a request for it, or the user's own profile does; nothing else changes. |
| MemoryScopes.AlignTwice | apps/v8-agent-os-engine/agents/memory_agent.py:1770-1861 | Alignment is idempotent. |
| MemoryScopes.RoutingIsExact | apps/v8-agent-os-engine/agents/memory_agent.py:1723-1767 | Routing takes out exactly the identity entries; a typed identity value is never overwritten, a blank one becomes the first non-blank value offered. |
| MemoryDecisions.AdoptionExactly | apps/v8-agent-os-engine/agents/memory_agent.py:1737-1745 | Adopting an identity value raises importance and confidence to the largest of the adopted entries' and makes the identity stable; without an adopted entry nothing of it changes. |
| MemoryDecisions.RoutingReported | apps/v8-agent-os-engine/agents/memory_agent.py:1746-1754 | Exactly the identity entries are reported, in order: as ignored when the value is known by then, as promoted or as empty otherwise. |
| MemoryDecisions.PreferencesReported | apps/v8-agent-os-engine/agents/memory_agent.py:1839-1855 | Exactly the preferences with a scope, a global target or a profile reason are reported, in order, once each, with the scope asked for, the final scope and the reason that applies. |
| MemoryDecisions.FactsReported | apps/v8-agent-os-engine/agents/memory_agent.py:1856-1857 | The same for facts. |
| MemoryDecisions.DecisionsInOrder | apps/v8-agent-os-engine/agents/memory_agent.py:1770-1861 | All decisions of an alignment: those on identity entries, one more exactly when the identity has a value, then those on the remaining preferences and on the facts. |
| MemoryScopes.ExtractionResult.RouteLegacyIdentity | apps/v8-agent-os-engine/agents/memory_agent.py:1723-1767 | The routing loop leaves the identity, preferences and decisions the specification gives. |
| MemoryScopes.ExtractionResult.AlignPreferences | apps/v8-agent-os-engine/agents/memory_agent.py:1839-1855 | The loop that re-scopes preferences in place, with its decisions. |
| MemoryScopes.ExtractionResult.AlignKnowledge | apps/v8-agent-os-engine/agents/memory_agent.py:1856-1857 | The loop that re-scopes facts in place, with its decisions. |
| MemoryScopes.ExtractionResult.AlignScopes | apps/v8-agent-os-engine/agents/memory_agent.py:1770-1861 | The whole alignment on the mutable result equals its specification. |
| MemoryGraph.EdgesHaveProvenance | apps/v8-agent-os-engine/agents/memory_agent.py:1863-1925 | Every graph relation of a run names exactly one fact, stored by that run under that id, and carries that fact's scope: the target scope or `global`. |
| MemoryEdges.GraphSaysWhatRelationsSay | apps/v8-agent-os-engine/agents/memory_agent.py:1886-1925 | The edges of a run are exactly what its relations say: lower-case subject, upper-case predicate and lower-case object in these places, under the scope and the id of the fact the relation rests on. A relation becomes an edge exactly when its parts are not blank, it rests on a stored fact with an id, and the store does not refuse it. |
| MemoryEdges.NamedFactIsTheSource | apps/v8-agent-os-engine/agents/memory_agent.py:1892-1918 | A complete relation whose index names a stored fact with an id is written under that fact's scope and the id the store gave it, unless the store refuses it. |
| MemoryEdges.EdgesSnoc | apps/v8-agent-os-engine/agents/memory_agent.py:1886-1921 | Edges are written in the order of their relations, one for each relation that becomes one. |
| MemoryEdges.StoredInOrder | apps/v8-agent-os-engine/agents/memory_agent.py:1549-1580 | The stored facts are exactly those the policy stores and the store accepts, in order, each unchanged but for its id, which is the canonical one when the store names one. |
| MemoryEdges.RowExactly | apps/v8-agent-os-engine/agents/memory_agent.py:1552-1568 | The row of a stored fact: its text, category and scope; an overwrite is a replacement, a known relation is kept in lower case, any other is new; the target is the named one before the overwritten one. |
| MemoryEdges.PersistedComesFrom | apps/v8-agent-os-engine/agents/memory_agent.py:1531-1589 | Every stored fact is one of the extracted facts with its category canonicalized; only its scope and its id are new. |
| MemoryEdges.EntitiesInOrder | apps/v8-agent-os-engine/agents/memory_agent.py:1874-1883 | Exactly the entities with a name are added, in lower case, in order. |
| MemoryGraph.PersistedScope | apps/v8-agent-os-engine/agents/memory_agent.py:1531-1589 | Every stored fact is in the target scope, or global because the target is, or because it asked for it with a promotion reason. |
| MemoryGraph.MergeKeepsBest | apps/v8-agent-os-engine/core/memory_canonicalization.py:186-225 | Merging keeps one given fact per key, for every key, with the best score of that key. |
| MemoryEdges.MergeExactly | apps/v8-agent-os-engine/core/memory_canonicalization.py:186-225 | Merging keeps of all duplicates the best one, the last of equally good ones, in the order in which the kinds first appear; importance counts a hundredth of confidence. |
| MemoryEdges.KeysExactly | apps/v8-agent-os-engine/core/memory_canonicalization.py:190-197 | Facts are duplicates exactly when their scopes agree, blank being global, their categories are equal and their texts normalize alike. |
| MemoryGraph.PositionSurvivesExactly | apps/v8-agent-os-engine/agents/memory_agent.py:1893-1897 | A relation's position in the extractor's list still names a fact with the same key in the merged list exactly when no two facts up to it were duplicates. |
| MemoryGraph.MergeFacts | apps/v8-agent-os-engine/core/memory_canonicalization.py:186-225 | The merging loop with its key table computes the specified merge. |
| MemoryGraph.KnowledgeStore.StoreKnowledge | apps/v8-agent-os-engine/agents/memory_agent.py:1531-1589 | Facts that the policy stores and the store accepts are written and get their id, the others stay as they are; counts and written rows agree. |
| MemoryGraph.KnowledgeStore.BuildGraph | apps/v8-agent-os-engine/agents/memory_agent.py:1863-1925 | Entities and edges are added exactly as specified, with agreeing counts, and none when nothing was stored. |
| MemoryGraph.KnowledgeStore.PersistExtraction | apps/v8-agent-os-engine/agents/memory_agent.py:2806-2887 | Alignment, merging, storing and graph building together write exactly the facts and edges the provenance results speak of. |
| MessageQueue.ConsumedOnce | apps/v8-agent-os-engine/api/chat_realtime_routes.py:534-570 | Over every interleaving of handlers and drains no message is consumed by two runs and no run consumes two messages. |
| MessageQueue.DrainOutcome | apps/v8-agent-os-engine/api/chat_realtime_routes.py:534-570 | A finished drain's run owns exactly one consumed row, or owns none and was cancelled because its claim was lost. |
| MessageQueue.NothingDisappears | apps/v8-agent-os-engine/api/chat_realtime_routes.py:1284-1345 | No row ever disappears or changes sender, client id or ordinal, and a consumed, injected or cancelled row stays as it is. |
| MessageQueue.OnlyEditsChangeContent | apps/v8-agent-os-engine/api/chat_realtime_routes.py:1254-1267 | The text of a row changes only by an edit, while the row is pending, and to a stripped non-blank text. |
| MessageQueue.PromotedReturn | apps/v8-agent-os-engine/api/chat_realtime_routes.py:639-655 | After the post-run step of a completed run none of its rows is promoted, then or ever after. |
| MessageQueue.PostRunReturnsExactly | apps/v8-agent-os-engine/api/chat_realtime_routes.py:623-645 | The post-run step returns a promoted row exactly when its run completed; rows promoted for a failed or cancelled run stay promoted. |
| MessageQueue.DrainTakesOldest | apps/v8-agent-os-engine/api/chat_realtime_routes.py:534-570 | An undisturbed drain consumes the pending row of its session that was queued first. |
| MessageQueue.OneRowPerMessage | apps/v8-agent-os-engine/core/database.py:6106-6127 | However often a client message is retried, it has at most one row that is not cancelled. |
| QueueHandlers.QueueingExactly | apps/v8-agent-os-engine/core/database.py:6089-6157 | Queueing changes nothing when a row for the client message exists that is not cancelled; any other message gets one new pending row with its text, behind all rows of its session. |
| QueueHandlers.EditExactly | apps/v8-agent-os-engine/api/chat_realtime_routes.py:1254-1267 | An edit replaces the text of a pending row by the trimmed new text; blank text, a missing row and a row that no longer waits are refused in this order and change nothing. |
| QueueHandlers.CancelExactly | apps/v8-agent-os-engine/api/chat_realtime_routes.py:1283-1294 | Exactly pending and promoted rows are cancelled. |
| QueueHandlers.PromoteExactly | apps/v8-agent-os-engine/api/chat_realtime_routes.py:1308-1323 | Exactly pending rows whose run is active are promoted. |
| QueueHandlers.ClaimExactly | apps/v8-agent-os-engine/core/database.py:7995-8034 | A claim takes the waiting row with the lowest ordinal, whole and for this run, and changes nothing without one. |
| QueueHandlers.RunAfterStep | apps/v8-agent-os-engine/api/chat_realtime_routes.py:534-570 | What any step does to a run: its status changes exactly when it ends as reported or is given up, and it is scheduled exactly when its drain claims a row. |
| MessageQueue.StepIsSafe | apps/v8-agent-os-engine/api/chat_realtime_routes.py:1254-1345 | Every step keeps the invariant, leaves settled rows as they are, and changes text only on pending rows. |
| MessageQueue.LateCancelSafeExactly | apps/v8-agent-os-engine/api/chat_realtime_routes.py:1283-1294 | The cancel handler's write, taken alone, is safe in that sense exactly when no drain or run has taken the row since its check. |
| MessageQueue.LateEditSafeExactly | apps/v8-agent-os-engine/api/chat_realtime_routes.py:1262-1267 | The edit handler's write, taken alone, is safe exactly when the row is still pending or nothing changes. |
| MessageQueue.LatePromoteSafeExactly | apps/v8-agent-os-engine/api/chat_realtime_routes.py:1308-1323 | The promote handler's write, taken alone, is safe on any row exactly when the row still waits and its run has not been settled. |
| MessageQueue.LatePromoteRevives | apps/v8-agent-os-engine/api/chat_realtime_routes.py:1308-1323 | A concrete run in which a promotion checked before and written after a cancel brings the cancelled message back. |
| MessageQueue.LatePromoteConsumesTwice | apps/v8-agent-os-engine/api/chat_realtime_routes.py:1308-1323 | A concrete run in which a promotion checked before and written after a drain's claim lets a message be consumed twice. |
| MessageQueue.StepKeepsSound | apps/v8-agent-os-engine/api/chat_realtime_routes.py:435-492 | Every handler, drain and run step keeps rows, order, claims, drains and settled runs consistent. |
| MessageQueue.Database.AddQueueItem | apps/v8-agent-os-engine/core/database.py:6089-6157 | Queueing finds the existing row of the client message or appends one with the next ordinal. |
| MessageQueue.Database.ClaimNextPending | apps/v8-agent-os-engine/core/database.py:7995-8034 | The claim consumes the pending row of the session with the lowest ordinal for the given run, or nothing. |
| MessageQueue.Database.RequeuePromoted | apps/v8-agent-os-engine/core/database.py:8036-8087 | Exactly the promoted, not injected rows of that run and session become pending. |
| MessageQueue.Database.BeginDrain | apps/v8-agent-os-engine/api/chat_realtime_routes.py:534-549 | The first half of a drain does to the database what the creating step of the state machine does, exactly when a row is pending. |
| MessageQueue.Database.FinishDrain | apps/v8-agent-os-engine/api/chat_realtime_routes.py:550-570 | Whatever happened since, the second half does what the claiming step and, when the claim is lost, the cancelling step of the state machine do. |
| DexClasses.LayoutRoundTrip | scripts/release/verify-phone-executor-package.py:35-74 | Reading a file laid out from any list of NUL-free descriptors gives exactly the set of their decoded names (`string_data_item` and LEB128 of the Dalvik Executable format). |
| DexClasses.ClassDefinitionsInverse | scripts/release/verify-phone-executor-package.py:35-74 | From every file that holds the descriptors, wherever its tables and strings are, the reader returns exactly the set of their decoded names. |
| DexReading.ReaderExactly | scripts/release/verify-phone-executor-package.py:35-74 | The reader succeeds exactly on files that start like a DEX file in little-endian order, whose three tables lie within the file and whose classes all have a name, and returns the set of these names. |
| DexReading.ClassExactly | scripts/release/verify-phone-executor-package.py:51-58 | A class is read exactly when its type, string and offset entries lead to a name; a type and then a string out of range is the error before the string is looked at. |
| DexReading.StringExactly | scripts/release/verify-phone-executor-package.py:58-73 | A string is read exactly where a length of at most five bytes, a name and a NUL stand; otherwise the first thing wrong is named. |
| DexClasses.ReadClassDefinitions | scripts/release/verify-phone-executor-package.py:35-74 | For every byte string the loops stay in bounds and end with the specified set of decoded names or the specified error. |
| DexClasses.ReadClassAt | scripts/release/verify-phone-executor-package.py:51-58 | One class entry is followed through type and string tables, or the specified index error is raised. |
| DexClasses.ReadStringAt | scripts/release/verify-phone-executor-package.py:58-73 | The length skip and the search for the terminator give the specified string or error. |
| DexClasses.ReadStoredString | scripts/release/verify-phone-executor-package.py:58-73 | Reading a stored string gives its bytes back. |

## Left out

- HTTP, sockets, authentication, redirects and timeouts of the ACP backend: the backend is a source of event streams and responses.
- Wall-clock tuning: poll delays, heartbeat and flush intervals only enter as clock values read by the reader; the retry hint `retryAfterSeconds` of the probe cache is not modelled.
- JSON printing and parsing: a printed object is taken to be one line from `{` to `}` that parses back to the same value; `str` of a list or dictionary is a fixed text; floating-point numbers are reals or left out.
- Python's decimal digits outside ASCII in `int(text)`, lone surrogates, and Unicode case mapping: header names and roles are lowered in ASCII.
- `normalize_client_surface` and `_client_event`: they rewrite links in payloads and are taken not to change sequence numbers, event ids, topics or visibility.
- The activity stream, route tables, ownership checks and URL signing.
- `session/new`, `session/load`, `initialize`, and metadata other than run ids of ACP updates.
- DeliveryOrder.OrderAcrossConnections: assumes that each connection opens with a snapshot that reaches what the client was told before. The snapshot service reads the log position first and replaces the stored row later (`erc/snapshot_service.py:154-172`, `core/database.py:3336-3352`), so a slow refresh can put an older row back, and a reader of that row (`erc/snapshot_service.py:185`) can be given an earlier position than another was.
- DeliveryEndToEnd.DeduplicationIsSafe: assumes opening snapshots as above, connections opened without an event id, as the ACP backend opens them, and event ids that are unique in a session; `DeliveryEndToEnd.DroppedOnlyIfReported` assumes none of these.
- AcpBridgeOutcomes.LiveTextEqualsHistory: speaks of text sent under the run the snapshot names; text that arrives before any run id is known is recorded under no run and is not part of that text.
- CancelRace.CancelNeverLost: is about fresh prompts; for resumed prompts the exact condition is `CancelRace.ResumedCancelSafeExactly`.
- AcpBridgeOutcomes.ReplayErasure: asks that the run is known or the event names none; `AcpBridgeOutcomes.ReplayErasureExactly` shows that nothing less will do, and `AcpBridgeOutcomes.CopyErasure` needs no such condition.
- ProbeCache.CacheAgreesWithProbe: says nothing of `checkedAt` on the refresh path; whose time that is says `ProbeCache.RefreshStampExactly`.
- MemoryCheckpoint.ExactlyOnce: takes the message hash to be injective, so a checkpoint holds the hashed fields themselves.
- MessageQueue.ConsumedOnce: takes each handler as one atomic step, although promote, cancel and edit read and write in separate transactions; the three lemmas `LatePromoteSafeExactly`, `LateCancelSafeExactly` and `LateEditSafeExactly` say exactly when the separate write is safe.
- The UTF-8 decoding of DEX class names, which replaces malformed bytes, is an arbitrary function of the bytes.
- Memory extraction: model calls, prompts, the noise and promotion patterns, and the persistence policies are uninterpreted functions; merging of preference aliases, workflow episodes, identity persistence and audit records are left out.
- The graph store's own checks on relations (`add_scoped_relation`) are an arbitrary refusal; injection of promoted guidance into a run is one step, allowed for promoted rows of an active run.
- Queue creation from other entry points (`api/platform_routes.py`), request payloads, attachments and emitted events.
- Concurrency inside one locked section or one database transaction: each is one step.
