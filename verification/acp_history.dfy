/** What a stored session says: who spoke which text in which run, read off the stored messages
    themselves. The replay of a history is proved to send exactly that. */
module AcpHistory {
  import opened PyText
  import opened PyJson
  import opened AcpContent
  import opened AcpBridge

  // The stored messages.

  /** `messages`, else `timeline`, else the messages of the `snapshot`. */
  function RecordMessages(record: Json): Json {
    if Truthy(Get(record, "messages")) then Get(record, "messages")
    else if Truthy(Get(record, "timeline")) then Get(record, "timeline")
    else if Truthy(Get(record, "snapshot")) && Truthy(Get(Get(record, "snapshot"), "messages")) then Get(Get(record, "snapshot"), "messages")
    else Arr([])
  }

  function RoleText(message: Json): string {
    var role := if Truthy(Get(message, "role")) then Get(message, "role") else Get(message, "authorRole");
    LowerAscii(if Truthy(role) then PyStr(role) else "")
  }

  function RunOf(message: Json): Json {
    if Truthy(Get(message, "runId")) then Get(message, "runId") else Get(message, "run_id")
  }

  /** Messages of the user and of the agent; all others are not part of the conversation. */
  predicate Spoken(message: Json, byUser: bool) {
    message.Obj? && if byUser then RoleText(message) == "user" else RoleText(message) in {"assistant", "supervisor"}
  }

  function NodesOf(message: Json): seq<Json> {
    var nodes := Get(message, "nodes");
    if nodes.Arr? then nodes.items else []
  }

  predicate OnDisplay(node: Json) { node.Obj? && Get(node, "displayInMessage") != Bool(false) }

  predicate IsTool(node: Json) { Get(node, "executionType") in {Str("tool_call"), Str("tool_result")} }

  predicate IsReasoning(node: Json) {
    OnDisplay(node) && Get(node, "executionType") == Str("reasoning") && Get(node, "content").Str?
  }

  predicate IsNarrative(node: Json) {
    OnDisplay(node) && !IsTool(node) && !IsReasoning(node) && Get(node, "kind") == Str("narrative") && Get(node, "content").Str?
  }

  /** The narrative texts, or the reasoning texts, of a message's nodes in order. */
  function NodeWords(nodes: seq<Json>, reasoning: bool): string {
    if nodes == [] then ""
    else
      var last := nodes[|nodes| - 1];
      NodeWords(nodes[..|nodes| - 1], reasoning)
      + if (if reasoning then IsReasoning(last) else IsNarrative(last)) then Get(last, "content").s else ""
  }

  predicate HasNarrative(nodes: seq<Json>) {
    exists i :: 0 <= i < |nodes| && IsNarrative(nodes[i])
  }

  function PlainWords(message: Json): string {
    if Get(message, "content").Str? then Get(message, "content").s
    else if Get(message, "text").Str? then Get(message, "text").s
    else ""
  }

  /** What a message says: its narrative nodes, or its plain text when it has none. */
  function Words(message: Json): string {
    if HasNarrative(NodesOf(message)) then NodeWords(NodesOf(message), false) else PlainWords(message)
  }

  /** Everything a side of the conversation said in a run. */
  function Said(messages: seq<Json>, byUser: bool, run: Json): string {
    if messages == [] then ""
    else
      var last := messages[|messages| - 1];
      Said(messages[..|messages| - 1], byUser, run) + if Spoken(last, byUser) && RunOf(last) == run then Words(last) else ""
  }

  /** All reasoning of a run, of either side's messages. */
  function Thoughts(messages: seq<Json>, run: Json): string {
    if messages == [] then ""
    else
      var last := messages[|messages| - 1];
      Thoughts(messages[..|messages| - 1], run)
      + if (Spoken(last, true) || Spoken(last, false)) && RunOf(last) == run then NodeWords(NodesOf(last), true) else ""
  }

  // What a replay sends.

  function PieceOf(update: Update, role: Role, run: Json): string {
    if update.Chunk? && update.role == role && update.runId == run then update.text else ""
  }

  /** The text of all chunks of a role and a run. */
  function SentText(updates: seq<Update>, role: Role, run: Json): string {
    if updates == [] then ""
    else SentText(updates[..|updates| - 1], role, run) + PieceOf(updates[|updates| - 1], role, run)
  }

  lemma SentAppend(updates: seq<Update>, update: Update, role: Role, run: Json)
    ensures SentText(updates + [update], role, run) == SentText(updates, role, run) + PieceOf(update, role, run)
  {
    assert (updates + [update])[..|updates|] == updates;
  }

  /** A tool node never becomes text. */
  lemma ToolNodeIsNoText(message: Json, node: Json, seen: set<string>)
    ensures var p := RuntimeUpdate(NodeEvent(message, node), seen); p.Emit? ==> p.update.Tool?
  {
    var event := NodeEvent(message, node);
    assert EventData(event) == Obj(map[]);
    assert EventKind(event) in {Str("tool_start"), Str("tool_result")};
    ToolEventIsNoText(event, seen);
  }

  lemma ToolEventIsNoText(event: Json, seen: set<string>)
    requires EventKind(event) in {Str("tool_start"), Str("tool_result")}
    ensures var p := RuntimeUpdate(event, seen); p.Emit? ==> p.update.Tool?
  {
    hide EventKind, EventData, EventRunId, GetOr, PyStr;
  }

  lemma NodeReasoning(st: NodeReplay, message: Json, node: Json)
    requires !st.replay.failed && IsReasoning(node)
    ensures ReplayNode(st, message, node)
      == st.(replay := Append(st.replay, Chunk(Thought, Get(node, "content").s, Get(message, "id"), MessageRun(message))))
    ensures !IsNarrative(node)
  {
    hide MessageRole, MessageRun, RuntimeUpdate, NodeEvent, GetOr, Append;
  }

  lemma NodeNarrative(st: NodeReplay, message: Json, node: Json)
    requires !st.replay.failed && IsNarrative(node)
    ensures ReplayNode(st, message, node) == (if Hashable(Get(node, "executionType")) then
      NodeReplay(Append(st.replay, Chunk(if MessageRole(message) == "user" then User else Assistant, Get(node, "content").s,
                                         Get(message, "id"), MessageRun(message))), true)
      else st.(replay := st.replay.(failed := true)))
  {
    hide MessageRole, MessageRun, RuntimeUpdate, NodeEvent, GetOr, Append;
  }

  lemma NodeSilent(st: NodeReplay, message: Json, node: Json)
    requires !st.replay.failed && !IsReasoning(node) && !IsNarrative(node)
    ensures var after := ReplayNode(st, message, node);
      && after.narrative == st.narrative
      && (after.replay.failed || after == st
          || exists u: Update :: u.Tool? && after.replay == Append(st.replay, u))
  {
    ToolNodeIsNoText(message, node, st.replay.seen);
    hide MessageRole, MessageRun, RuntimeUpdate, NodeEvent, GetOr, Append;
  }

  /** What replaying one node adds: its reasoning or narrative text, or at most a tool update. */
  lemma NodeEffect(st: NodeReplay, message: Json, node: Json) returns (added: seq<Update>)
    requires !st.replay.failed && !ReplayNode(st, message, node).replay.failed
    ensures ReplayNode(st, message, node).replay.updates == st.replay.updates + added
    ensures ReplayNode(st, message, node).narrative == (st.narrative || IsNarrative(node))
    ensures IsReasoning(node) ==> added == [Chunk(Thought, Get(node, "content").s, Get(message, "id"), RunOf(message))]
    ensures IsNarrative(node) ==>
      added == [Chunk(if RoleText(message) == "user" then User else Assistant, Get(node, "content").s, Get(message, "id"), RunOf(message))]
    ensures !IsReasoning(node) && !IsNarrative(node) ==> forall u <- added :: u.Tool?
  {
    assert RoleText(message) == MessageRole(message) && RunOf(message) == MessageRun(message);
    hide RoleText, MessageRole, RunOf, MessageRun, ReplayNode, GetOr, Announced, IsReasoning, IsNarrative, Hashable;
    if IsReasoning(node) {
      NodeReasoning(st, message, node);
      added := [Chunk(Thought, Get(node, "content").s, Get(message, "id"), RunOf(message))];
    } else if IsNarrative(node) {
      NodeNarrative(st, message, node);
      added := [Chunk(if RoleText(message) == "user" then User else Assistant, Get(node, "content").s, Get(message, "id"), RunOf(message))];
    } else {
      NodeSilent(st, message, node);
      var after := ReplayNode(st, message, node);
      if after == st {
        added := [];
      } else {
        var u: Update :| u.Tool? && after.replay == Append(st.replay, u);
        added := [u];
      }
    }
  }

  lemma {:induction false} SentMore(updates: seq<Update>, added: seq<Update>, role: Role, run: Json)
    requires forall u <- added :: u.Tool?
    ensures SentText(updates + added, role, run) == SentText(updates, role, run)
  {
    hide SentText;
    if added == [] {
      assert updates + added == updates;
    } else {
      var init, last := added[..|added| - 1], added[|added| - 1];
      SentMore(updates, init, role, run);
      SentAppend(updates + init, last, role, run);
      assert updates + added == updates + init + [last] && last in added;
    }
  }

  /** The words of a single node. */
  function NodePart(node: Json, byUser: bool, role: Role): string {
    match role
    case Thought => if IsReasoning(node) then Get(node, "content").s else ""
    case User => if byUser && IsNarrative(node) then Get(node, "content").s else ""
    case Assistant => if !byUser && IsNarrative(node) then Get(node, "content").s else ""
  }

  /** The chunk a node becomes carries the node's part. */
  lemma ReasoningPart(message: Json, node: Json, role: Role, run: Json)
    requires IsReasoning(node)
    ensures PieceOf(Chunk(Thought, Get(node, "content").s, Get(message, "id"), RunOf(message)), role, run)
         == if RunOf(message) == run then NodePart(node, RoleText(message) == "user", role) else ""
    ensures !IsNarrative(node)
  {
    hide RunOf, RoleText, Get;
  }

  lemma NarrativePart(message: Json, node: Json, role: Role, run: Json)
    requires IsNarrative(node)
    ensures PieceOf(Chunk(if RoleText(message) == "user" then User else Assistant, Get(node, "content").s, Get(message, "id"), RunOf(message)), role, run)
         == if RunOf(message) == run then NodePart(node, RoleText(message) == "user", role) else ""
  {
    hide RunOf, RoleText, Get;
  }

  lemma SilentPart(node: Json, byUser: bool, role: Role)
    requires !IsReasoning(node) && !IsNarrative(node)
    ensures NodePart(node, byUser, role) == ""
  {
    hide IsReasoning, IsNarrative;
  }

  lemma NodeSends(st: NodeReplay, message: Json, node: Json, role: Role, run: Json)
    requires !st.replay.failed && !ReplayNode(st, message, node).replay.failed
    ensures SentText(ReplayNode(st, message, node).replay.updates, role, run)
         == SentText(st.replay.updates, role, run)
            + if RunOf(message) == run then NodePart(node, RoleText(message) == "user", role) else ""
    ensures ReplayNode(st, message, node).narrative == (st.narrative || IsNarrative(node))
  {
    hide IsReasoning, IsNarrative, ReplayNode, RunOf, RoleText, Get, SentText, NodePart, PieceOf;
    var added := NodeEffect(st, message, node);
    if IsReasoning(node) {
      ReasoningPart(message, node, role, run);
      SentAppend(st.replay.updates, added[0], role, run);
    } else if IsNarrative(node) {
      NarrativePart(message, node, role, run);
      SentAppend(st.replay.updates, added[0], role, run);
    } else {
      SilentPart(node, RoleText(message) == "user", role);
      SentMore(st.replay.updates, added, role, run);
      NothingAdded(SentText(st.replay.updates, role, run));
    }
  }

  lemma NothingAdded(text: string)
    ensures text + "" == text
  {
  }

  function NodesPart(nodes: seq<Json>, byUser: bool, role: Role): string {
    match role
    case Thought => NodeWords(nodes, true)
    case User => if byUser then NodeWords(nodes, false) else ""
    case Assistant => if byUser then "" else NodeWords(nodes, false)
  }

  lemma {:induction false} NodesSend(r: Replay, message: Json, nodes: seq<Json>, role: Role, run: Json)
    requires !r.failed && !ReplayNodes(r, message, nodes).replay.failed
    ensures SentText(ReplayNodes(r, message, nodes).replay.updates, role, run)
         == SentText(r.updates, role, run) + if RunOf(message) == run then NodesPart(nodes, RoleText(message) == "user", role) else ""
    ensures ReplayNodes(r, message, nodes).narrative == HasNarrative(nodes)
  {
    if nodes == [] {
      assert SentText(r.updates, role, run) + "" == SentText(r.updates, role, run);
    } else {
      var init, last := nodes[..|nodes| - 1], nodes[|nodes| - 1];
      assert !ReplayNodes(r, message, init).replay.failed by { FailureStays(ReplayNodes(r, message, init), message, last); }
      hide ReplayNode, RunOf, RoleText, IsNarrative, IsReasoning, HasNarrative, GetOr, SentText, NodesPart, NodePart;
      NodesSend(r, message, init, role, run);
      NodeSends(ReplayNodes(r, message, init), message, last, role, run);
      HasNarrativeLast(nodes);
      NodesPartLast(nodes, RoleText(message) == "user", role);
      Associates(SentText(r.updates, role, run), NodesPart(init, RoleText(message) == "user", role),
                 NodePart(last, RoleText(message) == "user", role));
    }
  }

  lemma NodesPartLast(nodes: seq<Json>, byUser: bool, role: Role)
    requires nodes != []
    ensures NodesPart(nodes, byUser, role)
         == NodesPart(nodes[..|nodes| - 1], byUser, role) + NodePart(nodes[|nodes| - 1], byUser, role)
  {
    hide IsNarrative, IsReasoning, GetOr;
  }

  lemma FailureStays(st: NodeReplay, message: Json, node: Json)
    ensures st.replay.failed ==> ReplayNode(st, message, node).replay.failed
  {
  }

  lemma HasNarrativeLast(nodes: seq<Json>)
    requires nodes != []
    ensures HasNarrative(nodes) <==> HasNarrative(nodes[..|nodes| - 1]) || IsNarrative(nodes[|nodes| - 1])
  {
    hide IsNarrative;
    var init := nodes[..|nodes| - 1];
    if HasNarrative(nodes) {
      var i :| 0 <= i < |nodes| && IsNarrative(nodes[i]);
      if i < |init| { assert IsNarrative(init[i]); }
    }
    if HasNarrative(init) {
      var i :| 0 <= i < |init| && IsNarrative(init[i]);
      assert IsNarrative(nodes[i]);
    }
  }

  /** What a whole message contributes to the text of a role. */
  function MessagePart(message: Json, role: Role): string {
    match role
    case Thought => if Spoken(message, true) || Spoken(message, false) then NodeWords(NodesOf(message), true) else ""
    case User => if Spoken(message, true) then Words(message) else ""
    case Assistant => if Spoken(message, false) then Words(message) else ""
  }

  lemma ShownIsSpoken(message: Json)
    ensures Shown(message) <==> Spoken(message, true) || Spoken(message, false)
    ensures Spoken(message, true) <==> Shown(message) && RoleText(message) == "user"
    ensures Spoken(message, false) <==> Shown(message) && RoleText(message) != "user"
    ensures RoleText(message) == MessageRole(message) && RunOf(message) == MessageRun(message)
    ensures PlainWords(message) == MessageText(message)
  {
    assert RoleText(message) == MessageRole(message);
  }

  /** The nodes that are visited; a value that is no list of nodes has none, or the replay fails. */
  lemma NodesVisited(message: Json)
    requires Objects(Or(Get(message, "nodes"), Arr([]))).Some?
    ensures Objects(Or(Get(message, "nodes"), Arr([]))).value == NodesOf(message)
  {
  }

  lemma MessageSends(r: Replay, message: Json, role: Role, run: Json)
    requires !r.failed && !ReplayMessage(r, message).failed
    ensures SentText(ReplayMessage(r, message).updates, role, run)
         == SentText(r.updates, role, run) + if RunOf(message) == run then MessagePart(message, role) else ""
  {
    hide Spoken, RoleText, MessageRole, RunOf, MessageRun, PlainWords, MessageText, Shown, GetOr, NodesOf, ReplayNodes, NodeWords, HasNarrative, SentText;
    ShownIsSpoken(message);
    Associates(SentText(r.updates, role, run), "", "");
    if Shown(message) {
      NodesVisited(message);
      var nodes := NodesOf(message);
      var st := ReplayNodes(r, message, nodes);
      NodesSend(r, message, nodes, role, run);
      SentAppend(st.replay.updates, PlainChunk(message), role, run);
      if !HasNarrative(nodes) { NoNarrativeNoWords(nodes); }
      Associates(SentText(r.updates, role, run), NodesPart(nodes, RoleText(message) == "user", role), PieceOf(PlainChunk(message), role, run));
    }
  }

  function PlainChunk(message: Json): Update {
    Chunk(if MessageRole(message) == "user" then User else Assistant, MessageText(message),
          Or(Get(message, "id"), Get(message, "messageId")), MessageRun(message))
  }

  lemma Associates(a: string, b: string, c: string)
    ensures a + b + c == a + (b + c)
    ensures a + "" == a && b + "" == b && "" + c == c
  {
  }

  lemma {:induction false} NoNarrativeNoWords(nodes: seq<Json>)
    requires !HasNarrative(nodes)
    ensures NodeWords(nodes, false) == ""
  {
    hide IsNarrative, IsReasoning;
    if nodes != [] {
      HasNarrativeLast(nodes);
      NoNarrativeNoWords(nodes[..|nodes| - 1]);
    }
  }

  /** The text of a role in a run of stored messages. */
  function Text(messages: seq<Json>, role: Role, run: Json): string {
    match role
    case Thought => Thoughts(messages, run)
    case User => Said(messages, true, run)
    case Assistant => Said(messages, false, run)
  }

  lemma {:induction false} MessagesSend(messages: seq<Json>, role: Role, run: Json)
    requires !ReplayMessages(messages).failed
    ensures SentText(ReplayMessages(messages).updates, role, run) == Text(messages, role, run)
  {
    hide ReplayMessage, SentText, MessagePart, Text, RunOf;
    if messages == [] {
      NothingSent(role, run);
    } else {
      var init, last := messages[..|messages| - 1], messages[|messages| - 1];
      assert !ReplayMessages(init).failed by { MessageFailureStays(ReplayMessages(init), last); }
      MessagesSend(init, role, run);
      TextLast(messages, role, run);
      MessageSends(ReplayMessages(init), last, role, run);
    }
  }

  lemma NothingSent(role: Role, run: Json)
    ensures SentText([], role, run) == Text([], role, run) == ""
  {
  }

  lemma TextLast(messages: seq<Json>, role: Role, run: Json)
    requires messages != []
    ensures var init, last := messages[..|messages| - 1], messages[|messages| - 1];
      Text(messages, role, run) == Text(init, role, run) + if RunOf(last) == run then MessagePart(last, role) else ""
  {
    hide Spoken, RunOf, Words, NodeWords, NodesOf;
  }

  lemma MessageFailureStays(r: Replay, message: Json)
    ensures r.failed ==> ReplayMessage(r, message).failed
  {
  }

  lemma {:induction false} StoredIsSent(updates: seq<Update>, run: Json)
    ensures JoinTexts(StoredChunks(updates, run)) == SentText(updates, Assistant, run)
  {
    if updates != [] {
      var init, last := updates[..|updates| - 1], updates[|updates| - 1];
      assert updates == init + [last];
      StoredIsSent(init, run);
      StoredAppend(init, last, run);
    }
  }

  lemma {:induction false} StoredAppend(updates: seq<Update>, last: Update, run: Json)
    ensures JoinTexts(StoredChunks(updates + [last], run)) == JoinTexts(StoredChunks(updates, run)) + PieceOf(last, Assistant, run)
  {
    if updates == [] {
      StoredOne(last, run);
      assert [] + [last] == [last];
    } else {
      hide PieceOf, StoredChunks, JoinTexts;
      assert (updates + [last])[0] == updates[0] && (updates + [last])[1..] == updates[1..] + [last];
      StoredAppend(updates[1..], last, run);
      StoredFront(updates, run);
      StoredFront(updates + [last], run);
      Associates(PieceOf(updates[0], Assistant, run), JoinTexts(StoredChunks(updates[1..], run)), PieceOf(last, Assistant, run));
    }
  }

  lemma StoredOne(last: Update, run: Json)
    ensures JoinTexts(StoredChunks([last], run)) == PieceOf(last, Assistant, run) && JoinTexts(StoredChunks([], run)) == ""
  {
    assert [last][1..] == [];
  }

  lemma StoredFront(updates: seq<Update>, run: Json)
    requires updates != []
    ensures JoinTexts(StoredChunks(updates, run)) == PieceOf(updates[0], Assistant, run) + JoinTexts(StoredChunks(updates[1..], run))
  {
    var u, rest := updates[0], StoredChunks(updates[1..], run);
    if u.Chunk? && u.role == Assistant && u.runId == run {
      JoinFront(u, rest);
    } else {
      assert [] + rest == rest;
    }
  }

  lemma JoinFront(u: Update, rest: seq<Update>)
    requires u.Chunk?
    ensures JoinTexts([u] + rest) == u.text + JoinTexts(rest)
  {
    assert ([u] + rest)[1..] == rest;
  }

  lemma MessagesOfRecord(record: Json)
    requires !HistoryUpdates(record).failed
    ensures Objects(RecordMessages(record)).Some? && HistoryUpdates(record) == ReplayMessages(Objects(RecordMessages(record)).value)
  {
    hide ReplayMessages;
  }

  /** A history says what its messages say. Replaying a readable record sends, for every run, as answers
      exactly the words of the agent's messages of that run, as user chunks exactly the words of the
      user's, and as thoughts exactly the reasoning of either, each in order; and the stored answer that
      live text is compared with is what the agent said. */
  lemma {:induction false} HistorySaysWhatWasSaid(record: Json, run: Json)
    requires !HistoryUpdates(record).failed
    ensures Objects(RecordMessages(record)).Some?
    ensures var messages, updates := Objects(RecordMessages(record)).value, HistoryUpdates(record).updates;
      && SentText(updates, Assistant, run) == Said(messages, false, run)
      && SentText(updates, User, run) == Said(messages, true, run)
      && SentText(updates, Thought, run) == Thoughts(messages, run)
      && StoredText(record, run) == Said(messages, false, run)
  {
    hide RecordMessages, HistoryUpdates, ReplayMessages, Said, Thoughts;
    MessagesOfRecord(record);
    var messages := Objects(RecordMessages(record)).value;
    MessagesSend(messages, Assistant, run);
    MessagesSend(messages, User, run);
    MessagesSend(messages, Thought, run);
    StoredIsSent(HistoryUpdates(record).updates, run);
  }
}
