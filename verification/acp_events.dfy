/** What a prompt makes of the events it reaches, told from the events: what is ignored, what is sent,
    which interactions are put to the user, and with what a terminal status ends it. */
module AcpEvents {
  import opened PyText
  import opened PyJson
  import opened AcpContent
  import opened AcpBridge
  import opened AcpFields
  import opened AcpBridgeProofs
  import opened AcpBridgeOutcomes
  import opened AcpCancels
  import opened AcpHistory

  // Events that are passed over.

  /** The event belongs to another run than the prompt's. */
  predicate Foreign(st: Prompt, event: Json) {
    && Truthy(st.session.runId) && event.Obj?
    && if EventKind(event) == Str("snapshot") then
         SnapshotRun(EventData(event)).Obj? && SnapshotRunId(EventData(event)) != st.session.runId
       else EventRunId(event) != "" && Str(EventRunId(event)) != st.session.runId
  }

  /** A snapshot of the prompt's run that reports no terminal status. */
  predicate StillRunning(st: Prompt, event: Json) {
    && Truthy(st.session.runId) && event.Obj? && EventKind(event) == Str("snapshot")
    && SnapshotRun(EventData(event)).Obj? && SnapshotRunId(EventData(event)) == st.session.runId
    && Hashable(Get(SnapshotRun(EventData(event)), "status"))
    && Get(SnapshotRun(EventData(event)), "status") !in
         {Str("completed"), Str("succeeded"), Str("finished"), Str("failed"), Str("cancelled"), Str("canceled")}
  }

  lemma PassedOver(env: Env, st: Prompt, event: Json)
    requires Foreign(st, event) || StillRunning(st, event)
    ensures HandleEvent(env, st, event) == (st, Next)
  {
    hide Dispatch, EventIdentity, EventKind, EventRunId, EventData, SnapshotRun, SnapshotRunId, HistoryUpdates, StoredText, GetOr, CatchUpText;
  }

  /** Other runs do not disturb a prompt. Once it knows its run, the events and snapshots of other runs, and
      snapshots of its own run that report no terminal status, can be deleted from anywhere in its streams
      without changing what it sends, its result, or anything it remembers. */
  lemma {:induction false} ForeignErasure(env: Env, st: Prompt, streams: seq<Stream>, i: nat, j: nat)
    requires i < |streams| && j < |streams[i].events|
    requires AtEvent(env, st, streams, i, j).Some? ==>
      var s := AtEvent(env, st, streams, i, j).value; Foreign(s, streams[i].events[j]) || StillRunning(s, streams[i].events[j])
    ensures RunStreams(env, st, Erase(streams, i, j)) == RunStreams(env, st, streams)
  {
    hide HandleEvent, AtEvent, RunStreams, Foreign, StillRunning;
    if AtEvent(env, st, streams, i, j).Some? {
      PassedOver(env, AtEvent(env, st, streams, i, j).value, streams[i].events[j]);
    }
    PassedOverErasure(env, st, streams, i, j);
  }

  // Events that are handled.

  /** An event of the prompt's run that it has not accepted yet. */
  predicate New(st: Prompt, event: Json) {
    && Truthy(st.session.runId) && event.Obj? && EventKind(event) != Str("snapshot") && Hashable(EventKind(event))
    && (EventRunId(event) == "" || Str(EventRunId(event)) == st.session.runId)
    && (!Truthy(EventIdentity(event))
        || (Hashable(EventIdentity(event)) && SetElement(EventIdentity(event)) !in st.seenEvents))
  }

  lemma NewIsDispatched(env: Env, st: Prompt, event: Json) returns (accepted: Prompt)
    requires New(st, event)
    ensures HandleEvent(env, st, event) == Dispatch(env, accepted, event)
    ensures accepted == st.(seenEvents := accepted.seenEvents)
  {
    hide Dispatch, EventIdentity, EventKind, EventRunId, OnSnapshot;
    accepted := if Truthy(EventIdentity(event)) then st.(seenEvents := st.seenEvents + {SetElement(EventIdentity(event))}) else st;
  }

  predicate Ordinary(event: Json) {
    EventKind(event) !in {Str("approval_requested"), Str("ask_user"), Str("error"), Str("done")}
  }

  /** Streaming. When a prompt reaches a new event of its run that projects to an update, sending that
      update is the next thing it does; and one that projects to nothing sends nothing. */
  lemma {:induction false} NewEventIsSent(env: Env, st: Prompt, streams: seq<Stream>, i: nat, j: nat)
    requires i < |streams| && j < |streams[i].events| && AtEvent(env, st, streams, i, j).Some?
    requires New(AtEvent(env, st, streams, i, j).value, streams[i].events[j]) && Ordinary(streams[i].events[j])
    ensures var s, e := AtEvent(env, st, streams, i, j).value, streams[i].events[j];
      match RuntimeUpdate(e, s.seenTools)
      case Emit(update) => s.trace + [Send(update, Streamed, s.session.runId)] <= RunStreams(env, st, streams).0.trace
      case Nothing => HandleEvent(env, s, e).0.trace == s.trace
      case Invalid => RunStreams(env, st, streams).1 == Error(EventFailed)
  {
    hide HandleEvent, AtEvent, RunStreams, EventKind, RuntimeUpdate, New;
    var s, e := AtEvent(env, st, streams, i, j).value, streams[i].events[j];
    var accepted := NewIsDispatched(env, s, e);
    OrdinaryIsProjected(env, accepted, e) by { NewIsHashable(s, e); }
    EventExtends(env, st, streams, i, j);
    if RuntimeUpdate(e, s.seenTools).Invalid? { EventEndsPrompt(env, st, streams, i, j, s, e); }
  }

  lemma NewIsHashable(st: Prompt, event: Json)
    requires New(st, event)
    ensures Hashable(EventKind(event))
  {
  }

  lemma OrdinaryIsProjected(env: Env, st: Prompt, event: Json)
    requires Ordinary(event) && Hashable(EventKind(event))
    ensures Dispatch(env, st, event) == OnUpdate(st, event)
  {
    hide EventKind, OnUpdate, OnDone, OnInteraction;
  }

  /** The event asks the user something that is still pending. */
  predicate Asks(event: Json) {
    EventKind(event) in {Str("approval_requested"), Str("ask_user")} && StillPending(event)
  }

  /** When a prompt reaches a new event that puts a question it has not met before, taking that question up
      is the next thing it does. */
  lemma {:induction false} NewQuestionIsTakenUp(env: Env, st: Prompt, streams: seq<Stream>, i: nat, j: nat)
    requires i < |streams| && j < |streams[i].events| && AtEvent(env, st, streams, i, j).Some?
    requires New(AtEvent(env, st, streams, i, j).value, streams[i].events[j]) && Asks(streams[i].events[j])
    requires (EventKind(streams[i].events[j]).s, InteractionKey(streams[i].events[j])) !in AtEvent(env, st, streams, i, j).value.seenInteractions
    ensures var s, e := AtEvent(env, st, streams, i, j).value, streams[i].events[j];
      s.trace + [Interaction(EventKind(e).s, InteractionKey(e))] <= RunStreams(env, st, streams).0.trace
  {
    hide HandleEvent, AtEvent, RunStreams, EventKind, StillPending, InteractionKey, New;
    var s, e := AtEvent(env, st, streams, i, j).value, streams[i].events[j];
    var accepted := NewIsDispatched(env, s, e);
    QuestionIsLogged(env, accepted, e);
    EventExtends(env, st, streams, i, j);
  }

  lemma QuestionIsLogged(env: Env, st: Prompt, event: Json)
    requires Asks(event) && (EventKind(event).s, InteractionKey(event)) !in st.seenInteractions
    ensures st.trace + [Interaction(EventKind(event).s, InteractionKey(event))] <= Dispatch(env, st, event).0.trace
  {
    hide EventKind, StillPending, InteractionKey, Interact, OnDone, OnUpdate;
    var kind, key := EventKind(event).s, InteractionKey(event);
    InteractQuiet(env, Log(st.(seenInteractions := st.seenInteractions + {(kind, key)}), Interaction(kind, key)), event);
  }

  // Ends.

  /** The result of a terminal status. */
  function StatusResult(status: string, run: Json): Result {
    if status in {"failed", "error", "interrupted", "aborted"} then Error(RunFailed)
    else if status in {"cancelled", "canceled"} then Stopped("cancelled", run, status)
    else if status in {"refusal", "max_tokens", "max_turn_requests"} then Stopped(status, run, status)
    else if status in {"completed", "succeeded", "finished", "end_turn"} then Stopped("end_turn", run, status)
    else Error(NotConfirmed)
  }

  /** A `done` event of the prompt's run with no interaction to resume ends the prompt with its status; a
      status that is blank is unknown and one that says the run goes on reads another stream. */
  lemma {:induction false} DoneEndsPrompt(env: Env, st: Prompt, streams: seq<Stream>, i: nat, j: nat)
    requires i < |streams| && j < |streams[i].events| && AtEvent(env, st, streams, i, j).Some?
    requires var s, e := AtEvent(env, st, streams, i, j).value, streams[i].events[j];
      New(s, e) && EventKind(e) == Str("done") && !s.resumed && DoneStatus(e) !in {"waiting_approval", "waiting_input"}
    ensures var s, e := AtEvent(env, st, streams, i, j).value, streams[i].events[j];
      if DoneStatus(e) in {"running", "queued", "waiting_runtime"} then
        HandleEvent(env, s, e).1 == EndStream("") && HandleEvent(env, s, e).0.resumed && HandleEvent(env, s, e).0.trace == s.trace
      else
        RunStreams(env, st, streams).1 == StatusResult(if DoneStatus(e) == "" then "unknown" else DoneStatus(e), s.session.runId)
  {
    hide HandleEvent, AtEvent, RunStreams, EventKind, DoneStatus, New;
    var s, e := AtEvent(env, st, streams, i, j).value, streams[i].events[j];
    var accepted := NewIsDispatched(env, s, e);
    DoneIsHandled(env, accepted, e);
    if DoneStatus(e) !in {"running", "queued", "waiting_runtime"} { EventEndsPrompt(env, st, streams, i, j, s, e); }
  }

  lemma DoneIsHandled(env: Env, st: Prompt, event: Json)
    requires EventKind(event) == Str("done")
    ensures Dispatch(env, st, event) == OnDone(env, st, event)
  {
    hide EventKind, OnDone, OnUpdate, OnInteraction;
  }

  /** A `done` event that waits for the user looks up what is pending and puts it to the user. If the user's
      answer resumes the run, another stream is read; a refusal ends the prompt, and without an answer, or
      when the look-up fails, it ends as well. */
  lemma {:induction false} WaitingDoneExactly(env: Env, st: Prompt, event: Json) returns (accepted: Prompt)
    requires New(st, event) && EventKind(event) == Str("done") && !st.resumed
    requires DoneStatus(event) == "waiting_approval" || DoneStatus(event) == "waiting_input"
    ensures accepted == st.(seenEvents := accepted.seenEvents)
    ensures match env.pendings(st.asked)
      case None => HandleEvent(env, st, event) == (accepted, Raise)
      case Some(pending) =>
        var (after, outcome) := Interact(env, accepted, pending);
        HandleEvent(env, st, event)
          == match outcome
             case Resuming => (after.(resumed := true), EndStream(""))
             case Refused => (after, EndStream("refusal"))
             case InputRequired => (after, WaitForInput)
             case Raised => (after, Raise)
  {
    hide HandleEvent, EventKind, DoneStatus, New, Interact;
    accepted := NewIsDispatched(env, st, event);
    DoneIsHandled(env, accepted, event);
  }

  // Reopened streams.

  /** The events after which a prompt reads another stream: a pending question, or a `done` event that says
      the run goes on or waits. */
  predicate MayResume(event: Json) {
    Asks(event)
    || (EventKind(event) == Str("done")
        && DoneStatus(event) in {"running", "queued", "waiting_runtime", "waiting_approval", "waiting_input"})
  }

  /** Event `j` of stream `i` is reached, and with it the prompt has something to resume. */
  ghost predicate ResumesAt(env: Env, st: Prompt, streams: seq<Stream>, i: nat, j: nat) {
    && i < |streams| && j < |streams[i].events| && AtEvent(env, st, streams, i, j).Some?
    && var s, e := AtEvent(env, st, streams, i, j).value, streams[i].events[j];
       !s.resumed && HandleEvent(env, s, e).0.resumed && MayResume(e)
  }

  lemma DispatchResumed(env: Env, st: Prompt, event: Json)
    requires !st.resumed && Dispatch(env, st, event).0.resumed
    ensures MayResume(event)
  {
    hide Interact, RuntimeUpdate, EventKind, DoneStatus, StillPending, InteractionKey;
    if EventKind(event).Str? && IsStr(EventKind(event), {"approval_requested", "ask_user"}) {
      assert OnInteraction(env, st, event).0.resumed;
    }
    if EventKind(event) == Str("done") && OnDone(env, st, event).0.resumed { InteractResumed(env, st); }
  }

  lemma InteractResumed(env: Env, st: Prompt)
    ensures forall event :: Interact(env, st, event).0.resumed == st.resumed
  {
    forall event ensures Interact(env, st, event).0.resumed == st.resumed { InteractionKeepsResumed(env, st, event); }
  }

  lemma InteractionKeepsResumed(env: Env, st: Prompt, event: Json)
    ensures Interact(env, st, event).0.resumed == st.resumed
  {
    hide QuestionText, InteractionId, IsSpecDecision, EventKind, AskUser, RequestPermission, Get, Or, PyStr, GetOr, Truthy;
    AskUserKeepsResumed(env, st, event, env.answers(st.asked));
    PermissionKeepsResumed(st, InteractionId(event), env.answers(st.asked));
  }

  lemma AskUserKeepsResumed(env: Env, st: Prompt, event: Json, answer: Answer)
    ensures AskUser(env, st, event, answer).0.resumed == st.resumed
  {
    hide QuestionText, InteractionId, Elicit, Get, Or, PyStr, GetOr, Truthy;
    ElicitKeepsResumed(st, InteractionId(event), answer);
  }

  lemma ElicitKeepsResumed(st: Prompt, id: Json, answer: Answer)
    ensures Elicit(st, id, answer).0.resumed == st.resumed
  {
    hide ReplyObject, Get, Strip, PyStr;
  }

  lemma PermissionKeepsResumed(st: Prompt, id: Json, answer: Answer)
    ensures RequestPermission(st, id, answer).0.resumed == st.resumed
  {
    hide ReplyObject, Get, IsStr, PyStr;
  }

  lemma HandleResumed(env: Env, st: Prompt, event: Json)
    requires !st.resumed && HandleEvent(env, st, event).0.resumed
    ensures MayResume(event)
  {
    hide Dispatch, MayResume, CatchUpText, StoredText, HistoryUpdates, EventKind, EventIdentity, OtherRun, SnapshotRun, SnapshotRunId;
    if event.Obj? {
      SnapshotKeepsResumed(Bound(env, st, event), EventData(event));
      var bound := Bound(env, st, event);
      if Dispatch(env, bound, event).0.resumed { DispatchResumed(env, bound, event); }
      var accepted := bound.(seenEvents := bound.seenEvents + {SetElement(EventIdentity(event))});
      if Dispatch(env, accepted, event).0.resumed { DispatchResumed(env, accepted, event); }
    }
  }

  lemma SnapshotKeepsResumed(st: Prompt, data: Json)
    ensures OnSnapshot(st, data).0.resumed == st.resumed
  {
    hide HistoryUpdates, StoredChunks, JoinTexts, LastMessageId, StoredText, SnapshotRun, SnapshotRunId;
  }

  lemma {:induction false} StreamResumes(env: Env, st: Prompt, events: seq<Json>, n: nat) returns (j: nat)
    requires n <= |events| && RunStream(env, st, events[..n]).0.resumed && !st.resumed
    ensures j < n && RunStream(env, st, events[..j]).1.Next?
    ensures var s := RunStream(env, st, events[..j]).0; !s.resumed && HandleEvent(env, s, events[j]).0.resumed
  {
    hide HandleEvent;
    assert events[..0] == [];
    j := n - 1;
    var (before, signal) := RunStream(env, st, events[..j]);
    assert events[..n] == events[..j] + [events[j]];
    RunStreamAppend(env, st, events[..j], [events[j]]);
    if before.resumed {
      j := StreamResumes(env, st, events, n - 1);
    } else if signal.Next? {
      RunStreamOne(env, before, events[j]);
    }
  }

  lemma RunStreamOne(env: Env, st: Prompt, event: Json)
    ensures RunStream(env, st, [event]) == HandleEvent(env, st, event)
  {
    hide HandleEvent;
    assert [event][1..] == [];
  }

  lemma {:induction false} StreamReopened(env: Env, st: Prompt, streams: seq<Stream>, i: nat)
    requires i < |streams| && AtStream(env, st, streams, i + 1).Some?
    ensures AtStream(env, st, streams, i).Some? && EndOfStream(env, AtStream(env, st, streams, i).value, streams[i]).Reopen?
    decreases i
  {
    hide EndOfStream;
    if i > 0 { StreamReopened(env, EndOfStream(env, st, streams[0]).prompt, streams[1..], i - 1); }
  }

  /** No stream is reopened idly. Every stream after the first is read with nothing left to resume, and only
      because an event reached in the stream before it asked the user or said the run goes on. */
  lemma {:induction false} NoIdleReopen(env: Env, st: Prompt, streams: seq<Stream>, i: nat)
    requires !st.resumed && i < |streams| && AtStream(env, st, streams, i + 1).Some?
    ensures !AtStream(env, st, streams, i + 1).value.resumed
    ensures exists j :: ResumesAt(env, st, streams, i, j)
  {
    hide HandleEvent, RunStream, MayResume;
    AtStreamStep(env, st, streams, i + 1);
    StreamReopened(env, st, streams, i);
    var x := AtStream(env, st, streams, i).value;
    if i > 0 { NoIdleReopen(env, st, streams, i - 1); }
    var events := streams[i].events;
    assert events[..|events|] == events;
    var j := StreamResumes(env, x, events, |events|);
    HandleResumed(env, RunStream(env, x, events[..j]).0, events[j]);
    assert ResumesAt(env, st, streams, i, j);
  }

  // The catch-up.

  lemma {:induction false} LastStored(updates: seq<Update>, run: Json, k: nat)
    requires k < |updates| && updates[k].Chunk? && updates[k].role == Assistant && updates[k].runId == run
    requires forall l :: k < l < |updates| ==> !(updates[l].Chunk? && updates[l].role == Assistant && updates[l].runId == run)
    ensures var chunks := StoredChunks(updates, run); chunks != [] && chunks[|chunks| - 1] == updates[k]
    decreases |updates|
  {
    if k > 0 {
      LastStored(updates[1..], run, k - 1);
    } else {
      NoneStored(updates[1..], run);
    }
  }

  lemma {:induction false} NoneStored(updates: seq<Update>, run: Json)
    requires forall u <- updates :: !(u.Chunk? && u.role == Assistant && u.runId == run)
    ensures StoredChunks(updates, run) == []
  {
    if updates != [] { NoneStored(updates[1..], run); }
  }

  /** The catch-up of a prompt sends what the stored answer of its run has beyond the live text, as part of
      the last message stored for that run. */
  lemma {:induction false} CatchUpExactly(st: Prompt, data: Json, k: nat)
    requires var updates := HistoryUpdates(data).updates;
      && k < |updates| && updates[k].Chunk? && updates[k].role == Assistant && updates[k].runId == st.session.runId
      && forall l :: k < l < |updates| ==> !(updates[l].Chunk? && updates[l].role == Assistant && updates[l].runId == st.session.runId)
    ensures var run := st.session.runId;
      var stored, live, id := StoredText(data, run), Delivered(st, run), HistoryUpdates(data).updates[k].messageId;
      CatchUpText(st, data).trace
        == st.trace + if |stored| <= |live| then []
                      else [Send(Chunk(Assistant, stored[|live|..], if Truthy(id) then id else Null, Null), CatchUp, run)]
  {
    hide HistoryUpdates, StoredChunks, JoinTexts, Truthy;
    LastStored(HistoryUpdates(data).updates, st.session.runId, k);
  }

  /** A snapshot that reports the prompt's own run as ended, with a readable history that the live text
      agrees with, ends the prompt with that status. */
  lemma {:induction false} TerminalSnapshotEndsPrompt(env: Env, st: Prompt, streams: seq<Stream>, i: nat, j: nat, status: string)
    requires i < |streams| && j < |streams[i].events| && AtEvent(env, st, streams, i, j).Some?
    requires status in {"completed", "succeeded", "finished", "failed", "cancelled", "canceled"}
    requires var s, e := AtEvent(env, st, streams, i, j).value, streams[i].events[j]; var data := EventData(e);
      && Truthy(s.session.runId) && e.Obj? && EventKind(e) == Str("snapshot")
      && SnapshotRun(data).Obj? && SnapshotRunId(data) == s.session.runId && Get(SnapshotRun(data), "status") == Str(status)
      && !HistoryUpdates(data).failed && StartsWith(StoredText(data, s.session.runId), Delivered(s, s.session.runId))
    ensures RunStreams(env, st, streams).1 == StatusResult(status, AtEvent(env, st, streams, i, j).value.session.runId)
  {
    hide AtEvent, RunStreams, EventKind, EventData, HistoryUpdates, StoredText, SnapshotRun, SnapshotRunId, EventRunId, CatchUpText, GetOr, Delivered;
    var s, e := AtEvent(env, st, streams, i, j).value, streams[i].events[j];
    CatchUpKeepsRun(s, EventData(e));
    EventEndsPrompt(env, st, streams, i, j, s, e);
  }

  lemma CatchUpKeepsRun(st: Prompt, data: Json)
    ensures CatchUpText(st, data).session == st.session
  {
    hide HistoryUpdates, StoredChunks, JoinTexts, LastMessageId;
  }

  // The projection of streamed events.

  /** The main lane, whose text is the answer; other lanes are shown as activities. */
  predicate MainLane(event: Json) {
    GetOr(event, "runtimeId", Str("chat")) in {Str("chat"), Str("supervisor"), Null}
  }

  function TextOf(event: Json): Json {
    var data := EventData(event);
    if Get(event, "content").Str? then Get(event, "content")
    else if Truthy(Get(data, "content")) then Get(data, "content")
    else if Truthy(Get(data, "text")) then Get(data, "text")
    else Str("")
  }

  /** The message a chunk belongs to, or the run when none is named. */
  function ShownId(event: Json): Json {
    FirstOf([Get(event, "messageId"), Get(EventData(event), "messageId"), Str(EventRunId(event))])
  }

  /** A tool update that opens its call if the id is new; empty text is no content. */
  function Shows(id: string, title: string, status: string, content: Json, run: Json, seen: set<string>): Update {
    Tool(id !in seen, id, title, status, if content == Str("") then Null else content, Null, run)
  }

  /** What a streamed event becomes. Text of the main lane is answer or reasoning text of its run, text of
      another lane an activity of that lane; a tool event updates its tool, which has started, completed,
      failed or is pending by the event's kind and status; progress updates an activity. */
  lemma ProjectionExactly(event: Json, seen: set<string>)
    ensures var p, run := RuntimeUpdate(event, seen), Str(EventRunId(event));
      && (EventKind(event) == Str("text_chunk") && MainLane(event) ==>
            p.Emit? && p.update == Chunk(Assistant, PyStr(TextOf(event)), ShownId(event), run))
      && (EventKind(event) == Str("reasoning_chunk") && MainLane(event) ==>
            p.Emit? && p.update == Chunk(Thought, PyStr(TextOf(event)), ShownId(event), run))
      && (EventKind(event) in {Str("text_chunk"), Str("reasoning_chunk")} && !MainLane(event) && Hashable(GetOr(event, "runtimeId", Str("chat"))) ==>
            var lane := PyStr(GetOr(event, "runtimeId", Str("chat")));
            p.Emit? && p.update == Shows("runtime:" + lane + ":" + EventRunId(event), lane, "in_progress", TextOf(event), run, seen))
  {
    hide EventKind, EventRunId, EventData, PyStr, FirstOf;
    FirstOfThree(Get(event, "messageId"), Get(EventData(event), "messageId"), Str(EventRunId(event)));
  }

  function ToolOf(event: Json): Json {
    if Get(event, "tool").Obj? then Get(event, "tool") else EventData(event)
  }

  function ToolIdOf(event: Json): string {
    var tool, data := ToolOf(event), EventData(event);
    StrOrEmpty(FirstOf([Get(tool, "toolCallId"), Get(tool, "toolInvocationId"), Get(data, "toolCallId"), Get(data, "tool_call_id")]))
  }

  /** The result a tool event shows: that of the tool, for the agent first, or else of the event. */
  function ResultOf(event: Json): Json {
    var tool, data := ToolOf(event), EventData(event);
    if tool.Obj? && "agentVisibleResult" in tool.fields then tool.fields["agentVisibleResult"]
    else if tool.Obj? && "result" in tool.fields then tool.fields["result"]
    else if data.Obj? && "result" in data.fields then data.fields["result"]
    else Str("")
  }

  function ArgumentsOf(event: Json): Json {
    var tool, data := ToolOf(event), EventData(event);
    if tool.Obj? && "args" in tool.fields then tool.fields["args"]
    else if data.Obj? && "args" in data.fields then data.fields["args"]
    else Obj(map[])
  }

  lemma ToolProjectionExactly(event: Json, seen: set<string>)
    requires EventKind(event) in {Str("tool_start"), Str("tool_call"), Str("tool_result")}
    ensures var p, id := RuntimeUpdate(event, seen), ToolIdOf(event);
      var reported := StrOrEmpty(if Truthy(Get(ToolOf(event), "resultStatus")) then Get(ToolOf(event), "resultStatus") else Get(EventData(event), "status"));
      if id == "" then p.Invalid?
      else
        && p.Emit? && p.update.Tool? && p.update.toolId == id && p.update.first == (id !in seen) && p.update.runId == Str(EventRunId(event))
        && p.update.status == (if EventKind(event) != Str("tool_result") then "in_progress"
                               else if reported in {"failed", "error", "blocked", "timed_out", "terminated"} then "failed"
                               else if reported in {"completed", "succeeded", "success", "ok"} then "completed"
                               else "pending")
  {
    hide EventKind, EventRunId, EventData, PyStr, FirstOf, StrOrEmpty, GetOr;
    var tool, data := ToolOf(event), EventData(event);
    FirstOfFour(Get(tool, "toolCallId"), Get(tool, "toolInvocationId"), Get(data, "toolCallId"), Get(data, "tool_call_id"));
  }

  /** What a tool update shows: the tool's name, its result, and its arguments unless it reports a result. */
  lemma ToolDetailsExactly(event: Json, seen: set<string>)
    requires EventKind(event) in {Str("tool_start"), Str("tool_call"), Str("tool_result")}
    ensures var p := RuntimeUpdate(event, seen);
      p.Emit? ==>
        && p.update.Tool?
        && p.update.title == PyStr(FirstOf([Get(ToolOf(event), "toolName"), Get(EventData(event), "toolName"), Str("Tool")]))
        && p.update.content == (if ResultOf(event) == Str("") then Null else ResultOf(event))
        && p.update.rawInput == (if EventKind(event) == Str("tool_result") then Null else ArgumentsOf(event))
  {
    hide EventKind, EventRunId, EventData, PyStr, FirstOf, StrOrEmpty, Or, Truthy, ToolStatus, ChunkText;
    FirstOfThree(Get(ToolOf(event), "toolName"), Get(EventData(event), "toolName"), Str("Tool"));
  }

  /** Progress, runtime and artifact events update an activity of the run: completed or failed by their
      status, and in progress otherwise. */
  lemma ActivityProjectionExactly(event: Json, seen: set<string>)
    requires EventKind(event) in {Str("runtime_progress"), Str("runtime_event"), Str("artifact_recorded")}
    ensures var p, data := RuntimeUpdate(event, seen), EventData(event);
      var status := StrOrEmpty(if Truthy(Get(data, "status")) then Get(data, "status") else Get(event, "status"));
      var activity := if Truthy(Get(data, "episodeId")) then Get(data, "episodeId")
                      else if Truthy(Get(event, "runtimeId")) then Get(event, "runtimeId") else Str("runtime");
      && p.Emit? && p.update.Tool? && p.update.runId == Str(EventRunId(event))
      && p.update.toolId == "activity:" + EventRunId(event) + ":" + PyStr(activity) && p.update.first == (p.update.toolId !in seen)
      && p.update.status == (if status in {"complete", "completed", "succeeded"} then "completed"
                             else if status in {"failed", "error", "blocked"} then "failed" else "in_progress")
      && p.update.title == PyStr(FirstOf([Get(data, "summary"), Get(data, "message"), Get(event, "content"), Get(event, "topic"), EventKind(event)]))
      && p.update.content == (if p.update.title == "" then Null else Str(p.update.title)) && p.update.rawInput == Null
  {
    hide EventKind, EventRunId, EventData, PyStr, GetOr, FirstOf;
    FirstOfFive(Get(EventData(event), "summary"), Get(EventData(event), "message"), Get(event, "content"), Get(event, "topic"), EventKind(event));
  }

  /** Any other event becomes nothing. */
  lemma OtherProjection(event: Json, seen: set<string>)
    requires EventKind(event) !in {Str("text_chunk"), Str("reasoning_chunk"), Str("tool_start"), Str("tool_call"), Str("tool_result"),
                                   Str("runtime_progress"), Str("runtime_event"), Str("artifact_recorded")}
    requires Hashable(EventKind(event))
    ensures RuntimeUpdate(event, seen) == Nothing
  {
    hide EventKind, EventRunId, EventData, PyStr, GetOr;
  }

  // The projection of stored messages.

  /** A stored tool node becomes an update of its tool in the run of its message: in progress for a call,
      and otherwise by the result's status. A node without an id fails the replay. */
  lemma {:induction false} StoredToolExactly(st: NodeReplay, message: Json, node: Json)
    requires !st.replay.failed && OnDisplay(node) && IsTool(node)
    ensures var after := ReplayNode(st, message, node);
      var id := FirstOf([Get(node, "toolCallId"), Get(node, "toolInvocationId")]);
      var reported := if Truthy(Get(node, "resultStatus")) then PyStr(Get(node, "resultStatus")) else "";
      && after.narrative == st.narrative
      && if !Truthy(id) || PyStr(id) == "" then after.replay == st.replay.(failed := true)
         else
           && |after.replay.updates| == |st.replay.updates| + 1 && after.replay.updates[..|st.replay.updates|] == st.replay.updates
           && after.replay.seen == st.replay.seen + {PyStr(id)} && !after.replay.failed
           && var update := after.replay.updates[|st.replay.updates|];
             && update.Tool? && update.toolId == PyStr(id) && update.first == (PyStr(id) !in st.replay.seen)
             && update.runId == Str(if Truthy(RunOf(message)) then PyStr(RunOf(message)) else "")
             && update.status == (if Get(node, "executionType") == Str("tool_call") then "in_progress"
                                  else if reported in {"failed", "error", "blocked", "timed_out", "terminated"} then "failed"
                                  else if reported in {"completed", "succeeded", "success", "ok"} then "completed"
                                  else "pending")
  {
    hide RuntimeUpdate, PyStr, Announced, FirstOf, RunOf, MessageRun;
    var event := NodeEvent(message, node);
    StoredToolEvent(message, node);
    StoredToolId(message, node);
    StoredToolStatus(message, node);
    ToolProjectionExactly(event, st.replay.seen);
    assert ReplayNode(st, message, node).replay
      == match RuntimeUpdate(event, st.replay.seen)
         case Emit(update) => Append(st.replay, update)
         case Nothing => st.replay
         case Invalid => st.replay.(failed := true);
    AnnouncedExactly(RuntimeUpdate(event, st.replay.seen));
  }

  lemma AnnouncedExactly(p: Projection)
    ensures p.Emit? && p.update.Tool? ==> Announced(p.update) == {p.update.toolId}
  {
  }

  /** The event a stored tool node stands for, as the projection reads it. */
  lemma StoredToolEvent(message: Json, node: Json)
    requires OnDisplay(node) && IsTool(node)
    ensures var event := NodeEvent(message, node);
      && EventKind(event) == Str(if Get(node, "executionType") == Str("tool_call") then "tool_start" else "tool_result")
      && EventRunId(event) == (if Truthy(RunOf(message)) then PyStr(RunOf(message)) else "")
      && ToolOf(event) == node && EventData(event) == Obj(map[])
  {
    hide PyStr;
    var event := NodeEvent(message, node);
    assert EventData(event) == Obj(map[]);
    assert PyStr(Str("")) == "" by { EmptyText(); }
  }

  lemma StoredToolId(message: Json, node: Json)
    requires OnDisplay(node) && IsTool(node)
    ensures var id := FirstOf([Get(node, "toolCallId"), Get(node, "toolInvocationId")]);
      ToolIdOf(NodeEvent(message, node)) == if Truthy(id) then PyStr(id) else ""
  {
    hide FirstOf, PyStr, NodeEvent, EventKind, EventRunId, RunOf, Truthy;
    StoredToolEvent(message, node);
    assert Get(Obj(map[]), "toolCallId") == Null && Get(Obj(map[]), "tool_call_id") == Null;
    hide Get, EventData;
    FirstOfFour(Get(node, "toolCallId"), Get(node, "toolInvocationId"), Null, Null);
    FirstOfTwo(Get(node, "toolCallId"), Get(node, "toolInvocationId"));
    assert PyStr(Str("")) == "" && !Truthy(Null) by { EmptyText(); NullIsUnset(); }
  }

  lemma NullIsUnset()
    ensures !Truthy(Null)
  {
  }

  lemma StoredToolStatus(message: Json, node: Json)
    requires OnDisplay(node) && IsTool(node)
    ensures var event := NodeEvent(message, node);
      StrOrEmpty(if Truthy(Get(ToolOf(event), "resultStatus")) then Get(ToolOf(event), "resultStatus") else Get(EventData(event), "status"))
      == if Truthy(Get(node, "resultStatus")) then PyStr(Get(node, "resultStatus")) else ""
  {
    hide FirstOf, PyStr, MessageRun;
    assert EventData(NodeEvent(message, node)) == Obj(map[]);
    assert PyStr(Str("")) == "" by { EmptyText(); }
  }

  /** A stored message without nodes becomes one chunk of its author, with its text, its id and its run. */
  lemma {:induction false} PlainMessageExactly(r: Replay, message: Json, byUser: bool)
    requires !r.failed && Spoken(message, byUser) && !Truthy(Get(message, "nodes")) && PlainWords(message) != ""
    ensures ReplayMessage(r, message)
      == Append(r, Chunk(if byUser then User else Assistant, PlainWords(message),
                         FirstOf([Get(message, "id"), Get(message, "messageId")]), RunOf(message)))
  {
    hide FirstOf, GetOr, PyStr, LowerAscii;
    FirstOfTwo(Get(message, "id"), Get(message, "messageId"));
    assert ReplayNodes(r, message, []) == NodeReplay(r, false);
    ShownIsSpoken(message);
  }
}
