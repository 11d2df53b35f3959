/** Projection of engine events and stored history to ACP session updates. */
module AcpContent {
  import opened PyText
  import opened PyJson

  datatype Role = User | Assistant | Thought

  /** One `session/update`. A text chunk or a tool call; `first` tells `tool_call` from
      `tool_call_update`. `runId` is the run named in the update's metadata. */
  datatype Update =
    | Chunk(role: Role, text: string, messageId: Json, runId: Json)
    | Tool(first: bool, toolId: string, title: string, status: string, content: Json, rawInput: Json, runId: Json)

  function EventData(event: Json): Json {
    if Get(event, "data").Obj? then Get(event, "data")
    else if Get(event, "payload").Obj? then Get(event, "payload")
    else Obj(map[])
  }

  function EventRunId(event: Json): string {
    var data := EventData(event);
    StrOrEmpty(Or(Or(Or(Get(event, "runId"), Get(event, "run_id")), Get(data, "runId")), Get(data, "run_id")))
  }

  function EventKind(event: Json): Json {
    var data := EventData(event);
    var kind := Or(Get(event, "type"), Get(data, "type"));
    if kind == Str("custom_event") then Or(Get(event, "name"), Get(data, "name")) else kind
  }

  /** Set of tool ids announced so far, updated in place by every projected tool event. */
  function ToolUpdate(seen: set<string>, toolId: string, title: string, status: string, output: Json, runId: Json): Update {
    Tool(toolId !in seen, toolId, title, status, if output == Str("") then Null else output, Null, runId)
  }

  datatype Projection =
    | Nothing
    | Emit(update: Update)
    | Invalid

  function ToolStatus(kind: string, status: string): string {
    if kind in {"tool_start", "tool_call"} then "in_progress"
    else if status in {"failed", "error", "blocked", "timed_out", "terminated"} then "failed"
    else if status in {"completed", "succeeded", "success", "ok"} then "completed"
    else "pending"
  }

  function ActivityStatus(state: string): string {
    if state in {"complete", "completed", "succeeded"} then "completed"
    else if state in {"failed", "error", "blocked"} then "failed"
    else "in_progress"
  }

  function ChunkText(event: Json): Json {
    var data := EventData(event);
    if Get(event, "content").Str? then Get(event, "content")
    else Or(Or(Get(data, "content"), Get(data, "text")), Str(""))
  }

  /** Projection of one runtime event; `seen` are the tool ids announced so far. */
  function RuntimeUpdate(event: Json, seen: set<string>): Projection {
    var data := EventData(event);
    var kind := EventKind(event);
    var runId := Str(EventRunId(event));
    if !Hashable(kind) then Invalid
    else if IsStr(kind, {"text_chunk", "reasoning_chunk"}) then
      var lane := GetOr(event, "runtimeId", Str("chat"));
      if !Hashable(lane) then Invalid
      else if lane != Null && !IsStr(lane, {"chat", "supervisor"}) then
        Emit(ToolUpdate(seen, "runtime:" + PyStr(lane) + ":" + runId.s, PyStr(lane), "in_progress", ChunkText(event), runId))
      else
        Emit(Chunk(if kind == Str("reasoning_chunk") then Thought else Assistant, PyStr(ChunkText(event)),
                   Or(Or(Get(event, "messageId"), Get(data, "messageId")), runId), runId))
    else if IsStr(kind, {"tool_start", "tool_result", "tool_call"}) then
      var tool := if Get(event, "tool").Obj? then Get(event, "tool") else data;
      var toolId := StrOrEmpty(Or(Or(Or(Get(tool, "toolCallId"), Get(tool, "toolInvocationId")),
                                     Get(data, "toolCallId")), Get(data, "tool_call_id")));
      if toolId == "" then Invalid
      else
        var status := StrOrEmpty(Or(Get(tool, "resultStatus"), Get(data, "status")));
        var output := GetOr(tool, "agentVisibleResult", GetOr(tool, "result", GetOr(data, "result", Str(""))));
        var title := PyStr(Or(Or(Get(tool, "toolName"), Get(data, "toolName")), Str("Tool")));
        var update := ToolUpdate(seen, toolId, title, ToolStatus(kind.s, status), output, runId);
        Emit(if kind == Str("tool_result") then update
             else update.(rawInput := GetOr(tool, "args", GetOr(data, "args", Obj(map[])))))
    else if IsStr(kind, {"runtime_progress", "runtime_event", "artifact_recorded"}) then
      var title := PyStr(Or(Or(Or(Or(Get(data, "summary"), Get(data, "message")), Get(event, "content")),
                               Get(event, "topic")), kind));
      var activity := PyStr(Or(Or(Get(data, "episodeId"), Get(event, "runtimeId")), Str("runtime")));
      var state := StrOrEmpty(Or(Get(data, "status"), Get(event, "status")));
      Emit(ToolUpdate(seen, "activity:" + runId.s + ":" + activity, title, ActivityStatus(state), Str(title), runId))
    else Nothing
  }

  /** The tool ids an update adds to the announced ones. */
  function Announced(update: Update): set<string> {
    if update.Tool? then {update.toolId} else {}
  }

  // History replay.

  /** Updates produced so far, the tool ids they announced, and whether the replay failed. */
  datatype Replay = Replay(updates: seq<Update>, seen: set<string>, failed: bool)

  /** Progress through the nodes of one message; `narrative` once a narrative node was shown. */
  datatype NodeReplay = NodeReplay(replay: Replay, narrative: bool)

  function MessageRole(message: Json): string {
    LowerAscii(StrOrEmpty(Or(Get(message, "role"), Get(message, "authorRole"))))
  }

  function MessageRun(message: Json): Json {
    Or(Get(message, "runId"), Get(message, "run_id"))
  }

  /** The event that a stored tool node stands for. */
  function NodeEvent(message: Json, node: Json): Json {
    Obj(map["type" := Str(if Get(node, "executionType") == Str("tool_call") then "tool_start" else "tool_result"),
            "runId" := MessageRun(message), "tool" := node])
  }

  function Append(r: Replay, update: Update): Replay {
    r.(updates := r.updates + [update], seen := r.seen + Announced(update))
  }

  function ReplayNode(st: NodeReplay, message: Json, node: Json): NodeReplay {
    var r := st.replay;
    var execution := Get(node, "executionType");
    var author := if MessageRole(message) == "user" then User else Assistant;
    if r.failed || !node.Obj? || Get(node, "displayInMessage") == Bool(false) then st
    else if !Hashable(execution) then st.(replay := r.(failed := true))
    else if IsStr(execution, {"tool_call", "tool_result"}) then
      match RuntimeUpdate(NodeEvent(message, node), r.seen)
      case Emit(update) => st.(replay := Append(r, update))
      case Nothing => st
      case Invalid => st.(replay := r.(failed := true))
    else if execution == Str("reasoning") && Get(node, "content").Str? then
      st.(replay := Append(r, Chunk(Thought, Get(node, "content").s, Get(message, "id"), MessageRun(message))))
    else if Get(node, "kind") == Str("narrative") && Get(node, "content").Str? then
      NodeReplay(Append(r, Chunk(author, Get(node, "content").s, Get(message, "id"), MessageRun(message))), true)
    else st
  }

  function ReplayNodes(r: Replay, message: Json, nodes: seq<Json>): NodeReplay {
    if nodes == [] then NodeReplay(r, false)
    else ReplayNode(ReplayNodes(r, message, nodes[..|nodes| - 1]), message, nodes[|nodes| - 1])
  }

  function MessageText(message: Json): string {
    if Get(message, "content").Str? then Get(message, "content").s
    else if Get(message, "text").Str? then Get(message, "text").s
    else ""
  }

  predicate Shown(message: Json) {
    message.Obj? && MessageRole(message) in {"user", "assistant", "supervisor"}
  }

  function ReplayMessage(r: Replay, message: Json): Replay {
    if r.failed || !Shown(message) then r
    else match Objects(Or(Get(message, "nodes"), Arr([])))
      case None => r.(failed := true)
      case Some(nodes) =>
        var st := ReplayNodes(r, message, nodes);
        var text := MessageText(message);
        if st.replay.failed || st.narrative || text == "" then st.replay
        else Append(st.replay, Chunk(if MessageRole(message) == "user" then User else Assistant, text,
                                     Or(Get(message, "id"), Get(message, "messageId")), MessageRun(message)))
  }

  function ReplayMessages(messages: seq<Json>): Replay {
    if messages == [] then Replay([], {}, false)
    else ReplayMessage(ReplayMessages(messages[..|messages| - 1]), messages[|messages| - 1])
  }

  /** The stored messages of a session record. */
  function StoredMessages(record: Json): Json {
    Or(Or(Or(Get(record, "messages"), Get(record, "timeline")), Get(Or(Get(record, "snapshot"), Obj(map[])), "messages")), Arr([]))
  }

  /** Whether looking up the stored messages is an error: `snapshot` is consulted and is no object. */
  predicate MalformedRecord(record: Json) {
    && !Truthy(Or(Get(record, "messages"), Get(record, "timeline")))
    && !Or(Get(record, "snapshot"), Obj(map[])).Obj?
  }

  function HistoryUpdates(record: Json): Replay {
    if MalformedRecord(record) then Replay([], {}, true)
    else match Objects(StoredMessages(record))
      case None => Replay([], {}, true)
      case Some(messages) => ReplayMessages(messages)
  }

  /** The replay as the code runs it: a loop over the messages appending to one list of updates. */
  method CollectHistoryUpdates(record: Json) returns (updates: seq<Update>, failed: bool)
    ensures updates == HistoryUpdates(record).updates && failed == HistoryUpdates(record).failed
  {
    hide ReplayNodes, MessageRole, MessageRun, MessageText, GetOr, Truthy, PyStr;
    updates, failed := [], false;
    var found := Objects(StoredMessages(record));
    if MalformedRecord(record) || found.None? { return [], true; }
    var messages := found.value;
    var seenTools: set<string> := {};
    for m := 0 to |messages|
      invariant !failed && Replay(updates, seenTools, false) == ReplayMessages(messages[..m])
    {
      var message := messages[m];
      assert messages[..m + 1][..m] == messages[..m];
      AfterFailure(messages, m + 1);
      if !Shown(message) { continue; }
      var listed := Objects(Or(Get(message, "nodes"), Arr([])));
      if listed.None? { return updates, true; }
      var narrative;
      updates, seenTools, narrative, failed := CollectNodes(updates, seenTools, message, listed.value);
      if failed { return; }
      if narrative { continue; }
      var text := MessageText(message);
      if text != "" {
        var author := if MessageRole(message) == "user" then User else Assistant;
        updates := updates + [Chunk(author, text, Or(Get(message, "id"), Get(message, "messageId")), MessageRun(message))];
      }
    }
    assert messages[..|messages|] == messages;
  }

  /** The inner loop, over the nodes of one message. */
  method CollectNodes(before: seq<Update>, announced: set<string>, message: Json, nodes: seq<Json>)
    returns (updates: seq<Update>, seenTools: set<string>, narrative: bool, failed: bool)
    ensures NodeReplay(Replay(updates, seenTools, failed), narrative)
         == ReplayNodes(Replay(before, announced, false), message, nodes)
  {
    hide RuntimeUpdate, MessageRole, MessageRun, NodeEvent, GetOr, Truthy, PyStr;
    ghost var start := Replay(before, announced, false);
    updates, seenTools, narrative, failed := before, announced, false, false;
    for n := 0 to |nodes|
      invariant !failed
      invariant NodeReplay(Replay(updates, seenTools, false), narrative) == ReplayNodes(start, message, nodes[..n])
    {
      var node := nodes[n];
      assert nodes[..n + 1][..n] == nodes[..n];
      if !node.Obj? || Get(node, "displayInMessage") == Bool(false) { continue; }
      var execution := Get(node, "executionType");
      if !Hashable(execution) {
        failed := true;
        AfterNodeFailure(start, message, nodes, n + 1);
        return;
      }
      if IsStr(execution, {"tool_call", "tool_result"}) {
        match RuntimeUpdate(NodeEvent(message, node), seenTools) {
          case Emit(update) => updates, seenTools := updates + [update], seenTools + Announced(update);
          case Nothing =>
          case Invalid =>
            failed := true;
            AfterNodeFailure(start, message, nodes, n + 1);
            return;
        }
      } else if execution == Str("reasoning") && Get(node, "content").Str? {
        updates := updates + [Chunk(Thought, Get(node, "content").s, Get(message, "id"), MessageRun(message))];
      } else if Get(node, "kind") == Str("narrative") && Get(node, "content").Str? {
        narrative := true;
        var author := if MessageRole(message) == "user" then User else Assistant;
        updates := updates + [Chunk(author, Get(node, "content").s, Get(message, "id"), MessageRun(message))];
      }
    }
    assert nodes[..|nodes|] == nodes;
  }

  /** A failed replay produces nothing more, whatever messages follow. */
  lemma {:induction false} AfterFailure(messages: seq<Json>, m: nat)
    requires m <= |messages|
    ensures ReplayMessages(messages[..m]).failed ==> ReplayMessages(messages) == ReplayMessages(messages[..m])
    decreases |messages| - m
  {
    assert messages[..|messages|] == messages;
    if m < |messages| {
      assert messages[..m + 1][..m] == messages[..m];
      AfterFailure(messages, m + 1);
    }
  }

  lemma {:induction false} AfterNodeFailure(r: Replay, message: Json, nodes: seq<Json>, n: nat)
    requires n <= |nodes|
    ensures ReplayNodes(r, message, nodes[..n]).replay.failed
        ==> ReplayNodes(r, message, nodes) == ReplayNodes(r, message, nodes[..n])
    decreases |nodes| - n
  {
    assert nodes[..|nodes|] == nodes;
    if n < |nodes| {
      assert nodes[..n + 1][..n] == nodes[..n];
      AfterNodeFailure(r, message, nodes, n + 1);
    }
  }

  // Tool-call traces.

  function ToolIds(updates: seq<Update>): set<string> {
    set u <- updates | u.Tool? :: u.toolId
  }

  /** Each tool id is opened by exactly one `tool_call`, before all its `tool_call_update`s. */
  ghost predicate WellFormedTools(updates: seq<Update>) {
    forall i :: 0 <= i < |updates| && updates[i].Tool? ==>
      (updates[i].first <==> updates[i].toolId !in ToolIds(updates[..i]))
  }

  /** Extending a well-formed trace by an update projected with the ids announced so far. */
  lemma AppendKeepsTools(updates: seq<Update>, update: Update)
    requires WellFormedTools(updates)
    requires update.Tool? ==> update.first == (update.toolId !in ToolIds(updates))
    ensures WellFormedTools(updates + [update])
    ensures ToolIds(updates + [update]) == ToolIds(updates) + Announced(update)
  {
    var more := updates + [update];
    assert forall i :: 0 <= i <= |updates| ==> more[..i] == updates[..i];
    assert updates[..|updates|] == updates;
    assert forall u :: u in more <==> u in updates || u == update;
  }

  /** What `WellFormedTools` means for one tool id: among the updates that name it, the first
      one and no other is a `tool_call`. */
  lemma {:induction false} WellFormedToolsMeaning(updates: seq<Update>, i: nat, j: nat)
    requires WellFormedTools(updates)
    requires i < j < |updates| && updates[i].Tool? && updates[j].Tool? && updates[i].toolId == updates[j].toolId
    ensures !updates[j].first
    ensures exists k :: 0 <= k <= i && updates[k].Tool? && updates[k].toolId == updates[i].toolId && updates[k].first
  {
    assert updates[i] in updates[..j];
    FirstOccurrence(updates, i);
  }

  lemma {:induction false} FirstOccurrence(updates: seq<Update>, i: nat)
    requires WellFormedTools(updates) && i < |updates| && updates[i].Tool?
    ensures exists k :: 0 <= k <= i && updates[k].Tool? && updates[k].toolId == updates[i].toolId && updates[k].first
  {
    if !updates[i].first {
      var u :| u in updates[..i] && u.Tool? && u.toolId == updates[i].toolId;
      var k :| 0 <= k < i && updates[k] == u;
      FirstOccurrence(updates, k);
    }
  }

  /** A projected tool update opens the call exactly when its id is new. */
  lemma {:induction false} RuntimeUpdateOpens(event: Json, seen: set<string>)
    ensures var p := RuntimeUpdate(event, seen);
      p.Emit? && p.update.Tool? ==> p.update.first == (p.update.toolId !in seen)
  {
  }

  ghost predicate ReplayInvariant(r: Replay) {
    WellFormedTools(r.updates) && r.seen == ToolIds(r.updates)
  }

  lemma ReplayAppend(r: Replay, update: Update)
    requires ReplayInvariant(r)
    requires update.Tool? ==> update.first == (update.toolId !in r.seen)
    ensures ReplayInvariant(Append(r, update))
  {
    AppendKeepsTools(r.updates, update);
  }

  lemma ReplayNodeTools(st: NodeReplay, message: Json, node: Json)
    requires ReplayInvariant(st.replay)
    ensures ReplayInvariant(ReplayNode(st, message, node).replay)
  {
    var after := ReplayNode(st, message, node).replay;
    if after.updates != st.replay.updates {
      RuntimeUpdateOpens(NodeEvent(message, node), st.replay.seen);
      ReplayAppend(st.replay, after.updates[|st.replay.updates|]);
    }
  }

  lemma {:induction false} ReplayNodesTools(r: Replay, message: Json, nodes: seq<Json>)
    requires ReplayInvariant(r)
    ensures ReplayInvariant(ReplayNodes(r, message, nodes).replay)
  {
    if nodes != [] {
      var before := nodes[..|nodes| - 1];
      ReplayNodesTools(r, message, before);
      ReplayNodeTools(ReplayNodes(r, message, before), message, nodes[|nodes| - 1]);
    }
  }

  lemma {:induction false} ReplayMessagesTools(messages: seq<Json>)
    ensures ReplayInvariant(ReplayMessages(messages))
  {
    if messages != [] {
      var message := messages[|messages| - 1];
      var before := ReplayMessages(messages[..|messages| - 1]);
      ReplayMessagesTools(messages[..|messages| - 1]);
      if !before.failed && Shown(message) {
        var listed := Objects(Or(Get(message, "nodes"), Arr([])));
        if listed.Some? {
          ReplayNodesTools(before, message, listed.value);
          var st := ReplayNodes(before, message, listed.value).replay;
          var after := ReplayMessages(messages);
          if after != st {
            ReplayAppend(st, after.updates[|st.updates|]);
          }
        }
      }
    }
  }

  /** A history replay announces each tool exactly once, before updating it. */
  lemma {:induction false} HistoryToolTrace(record: Json)
    ensures WellFormedTools(HistoryUpdates(record).updates)
  {
    var listed := Objects(StoredMessages(record));
    if listed.Some? {
      ReplayMessagesTools(listed.value);
    }
  }
}
