/** What every prompt of the ACP bridge keeps, for all event streams and all answers. */
module AcpBridgeProofs {
  import opened PyText
  import opened PyJson
  import opened AcpContent
  import opened AcpBridge

  // Reading a trace.

  /** The answer text an action delivered for a run: live chunks and the catch-up suffix. */
  function ActionText(a: Action, run: Json): string {
    if a.Send? && !a.origin.Question? && a.run == run && a.update.Chunk? && a.update.role == Assistant then a.update.text
    else ""
  }

  function TextFor(trace: seq<Action>, run: Json): string {
    if trace == [] then "" else TextFor(trace[..|trace| - 1], run) + ActionText(trace[|trace| - 1], run)
  }

  function SentUpdates(trace: seq<Action>): seq<Update> {
    if trace == [] then []
    else SentUpdates(trace[..|trace| - 1]) + if trace[|trace| - 1].Send? then [trace[|trace| - 1].update] else []
  }

  /** The keys of the event-borne interactions, in order. */
  function InteractionKeys(trace: seq<Action>): seq<(string, string)> {
    if trace == [] then []
    else
      var last := trace[|trace| - 1];
      InteractionKeys(trace[..|trace| - 1]) + if last.Interaction? then [(last.kind, last.key)] else []
  }

  ghost predicate Distinct<T>(s: seq<T>) {
    forall i, j :: 0 <= i < j < |s| ==> s[i] != s[j]
  }

  /** The client's reply that selected a permission option. */
  predicate Selects(reply: Reply, option: string) {
    && ReplyObject(reply).Some?
    && var outcome := Get(ReplyObject(reply).value, "outcome");
       outcome.Obj? && Get(outcome, "outcome") == Str("selected") && Get(outcome, "optionId") == Str(option)
  }

  /** The client's reply that accepted an elicitation with a non-blank answer. */
  predicate Accepts(reply: Reply, text: string) {
    && ReplyObject(reply).Some?
    && Get(ReplyObject(reply).value, "action") == Str("accept")
    && Get(Get(ReplyObject(reply).value, "content"), "answer") == Str(text)
    && Strip(text) != ""
  }

  /** An answer passed on to the backend is the client's own, given to that very interaction in
      the request just before. */
  ghost predicate Authorized(trace: seq<Action>, k: nat)
    requires k < |trace|
  {
    match trace[k]
    case Permission(id, approved) =>
      k > 0 && trace[k - 1].AskClient? && trace[k - 1].request == "session/request_permission"
      && PyStr(trace[k - 1].subject) == id && Selects(trace[k - 1].reply, if approved then "approve" else "deny")
    case AnswerUser(id, text) =>
      k > 0 && trace[k - 1].AskClient? && trace[k - 1].request == "elicitation/create"
      && PyStr(trace[k - 1].subject) == id && Accepts(trace[k - 1].reply, text)
    case _ => true
  }

  /** As `Authorized`, for all answers but the first `from` actions. */
  ghost predicate AllAuthorized(trace: seq<Action>, from: nat) {
    forall k {:trigger Authorized(trace, k)} :: from <= k < |trace| ==> Authorized(trace, k)
  }

  // The invariant.

  /** `from` is the number of actions taken before the first stream was read. */
  ghost predicate Inv(st: Prompt, from: nat) {
    && (forall run :: Delivered(st, run) == TextFor(st.trace, run))
    && WellFormedTools(SentUpdates(st.trace)) && st.seenTools == ToolIds(SentUpdates(st.trace))
    && Distinct(InteractionKeys(st.trace))
    && (forall key <- InteractionKeys(st.trace) :: key in st.seenInteractions)
    && AllAuthorized(st.trace, from)
  }

  /** Actions that deliver no answer text, announce no tool and are no event-borne interaction. */
  predicate Quiet(a: Action) {
    !a.Interaction? && (a.Send? ==> a.origin.Question? && a.update.Chunk?)
  }

  /** From `st` to `next` only quiet, authorized actions were added. */
  ghost predicate QuietStep(st: Prompt, next: Prompt) {
    && st.trace <= next.trace
    && st.delivered == next.delivered && st.seenTools == next.seenTools
    && st.seenEvents == next.seenEvents && st.seenInteractions == next.seenInteractions
    && (forall k :: |st.trace| <= k < |next.trace| ==> Quiet(next.trace[k]))
    && (forall k {:trigger Authorized(next.trace, k)} :: |st.trace| <= k < |next.trace| ==> Authorized(next.trace, k))
  }

  lemma AuthorizedPrefix(trace: seq<Action>, more: seq<Action>, k: nat)
    requires trace <= more && k < |trace|
    ensures Authorized(trace, k) == Authorized(more, k)
  {
  }

  lemma QuietTrans(a: Prompt, b: Prompt, c: Prompt)
    requires QuietStep(a, b) && QuietStep(b, c)
    ensures QuietStep(a, c)
  {
    forall k | |a.trace| <= k < |c.trace| ensures Authorized(c.trace, k) {
      if k < |b.trace| {
        AuthorizedPrefix(b.trace, c.trace, k);
      }
    }
  }

  lemma QuietLog(st: Prompt, a: Action)
    requires Quiet(a) && Authorized(st.trace + [a], |st.trace|)
    ensures QuietStep(st, Log(st, a))
  {
  }

  lemma {:induction false} QuietTrace(trace: seq<Action>, more: seq<Action>)
    requires trace <= more && forall k :: |trace| <= k < |more| ==> Quiet(more[k])
    requires WellFormedTools(SentUpdates(trace))
    ensures forall run :: TextFor(more, run) == TextFor(trace, run)
    ensures WellFormedTools(SentUpdates(more)) && ToolIds(SentUpdates(more)) == ToolIds(SentUpdates(trace))
    ensures InteractionKeys(more) == InteractionKeys(trace)
    decreases |more|
  {
    if |trace| == |more| {
      assert trace == more;
    } else {
      var before, a := more[..|more| - 1], more[|more| - 1];
      QuietTrace(trace, before);
      forall run ensures TextFor(more, run) == TextFor(trace, run) {
        assert TextFor(before, run) + "" == TextFor(before, run);
      }
      if a.Send? {
        AppendKeepsTools(SentUpdates(before), a.update);
      } else {
        assert SentUpdates(more) == SentUpdates(before);
      }
    }
  }

  lemma QuietKeeps(st: Prompt, next: Prompt, from: nat)
    requires Inv(st, from) && QuietStep(st, next)
    ensures Inv(next, from)
  {
    QuietTrace(st.trace, next.trace);
    forall run ensures Delivered(next, run) == TextFor(next.trace, run) {
      assert Delivered(st, run) == TextFor(st.trace, run);
    }
    forall k | from <= k < |next.trace| ensures Authorized(next.trace, k) {
      if k < |st.trace| {
        AuthorizedPrefix(st.trace, next.trace, k);
      }
    }
  }

  /** Fields of the prompt the invariant does not depend on. */
  lemma SessionIrrelevant(st: Prompt, other: Prompt, from: nat)
    requires Inv(st, from)
    requires st.trace == other.trace && st.delivered == other.delivered && st.seenTools == other.seenTools
    requires st.seenInteractions <= other.seenInteractions
    ensures Inv(other, from)
  {
    assert forall run :: Delivered(st, run) == Delivered(other, run);
  }

  lemma CancelQuiet(st: Prompt, accepted: bool)
    ensures QuietStep(st, CancelPrompt(st, accepted).0)
  {
  }

  lemma ElicitQuiet(st: Prompt, id: Json, answer: Answer)
    ensures QuietStep(st, Elicit(st, id, answer).0)
  {
    var ask := AskClient("elicitation/create", id, answer.reply);
    var asked := Log(st, ask);
    QuietLog(st, ask);
    CancelQuiet(asked, answer.cancelAccepted);
    QuietTrans(st, asked, CancelPrompt(asked, answer.cancelAccepted).0);
    var result := ReplyObject(answer.reply);
    if result.Some? {
      var content := Or(Get(result.value, "content"), Obj(map[]));
      if content.Obj? && Get(content, "answer").Str? && Get(result.value, "action") == Str("accept")
         && Strip(Get(content, "answer").s) != "" {
        var told := AnswerUser(PyStr(id), Get(content, "answer").s);
        assert (asked.trace + [told])[|st.trace|] == ask;
        QuietLog(asked, told);
        QuietTrans(st, asked, Log(asked, told));
      }
    }
  }

  lemma PermissionQuiet(st: Prompt, id: Json, answer: Answer)
    ensures QuietStep(st, RequestPermission(st, id, answer).0)
  {
    var ask := AskClient("session/request_permission", id, answer.reply);
    var asked := Log(st, ask);
    QuietLog(st, ask);
    CancelQuiet(asked, answer.cancelAccepted);
    QuietTrans(st, asked, CancelPrompt(asked, answer.cancelAccepted).0);
    var result := ReplyObject(answer.reply);
    if result.Some? {
      var outcome := Or(Get(result.value, "outcome"), Obj(map[]));
      if outcome.Obj? && Get(outcome, "outcome") == Str("selected") && IsStr(Get(outcome, "optionId"), {"approve", "deny"}) {
        var told := Permission(PyStr(id), Get(outcome, "optionId") == Str("approve"));
        assert (asked.trace + [told])[|st.trace|] == ask;
        QuietLog(asked, told);
        QuietTrans(st, asked, Log(asked, told));
      }
    }
  }

  lemma AskQuiet(st: Prompt, text: string)
    ensures QuietStep(st, Ask(st, text))
  {
    QuietLog(st, Send(TextMessage(text), Question, st.session.runId));
  }

  lemma AskUserQuiet(env: Env, st: Prompt, event: Json, answer: Answer)
    ensures QuietStep(st, AskUser(env, st, event, answer).0)
  {
    var id := InteractionId(event);
    AskQuiet(WaitForAnswer(st, id), QuestionText(event) + "\n\nPlease reply to continue.");
    ElicitQuiet(st, id, answer);
  }

  lemma InteractWithQuiet(env: Env, st: Prompt, event: Json, answer: Answer)
    ensures QuietStep(st, InteractWith(env, st, event, answer).0)
  {
    AskQuiet(st, QuestionText(event) + "\n\nComplete this Spec stage decision in V8OS Admin.");
    AskUserQuiet(env, st, event, answer);
    PermissionQuiet(st, InteractionId(event), answer);
  }

  /** `_interaction` delivers no answer text, announces no tool, and passes on only what the client replied. */
  lemma InteractQuiet(env: Env, st: Prompt, event: Json)
    ensures QuietStep(st, Interact(env, st, event).0)
  {
    InteractWithQuiet(env, st, event, env.answers(st.asked));
    CountQuiet(st, InteractWith(env, st, event, env.answers(st.asked)).0);
  }

  lemma CountQuiet(st: Prompt, after: Prompt)
    requires QuietStep(st, after)
    ensures QuietStep(st, after.(asked := st.asked + 1))
  {
  }

  lemma InteractKeeps(env: Env, st: Prompt, event: Json, from: nat)
    requires Inv(st, from)
    ensures Inv(Interact(env, st, event).0, from)
  {
    InteractQuiet(env, st, event);
    QuietKeeps(st, Interact(env, st, event).0, from);
  }

  lemma LogInteraction(st: Prompt, kind: string, key: string, from: nat)
    requires Inv(st, from) && (kind, key) !in st.seenInteractions
    ensures Inv(Log(st.(seenInteractions := st.seenInteractions + {(kind, key)}), Interaction(kind, key)), from)
  {
    var a := Interaction(kind, key);
    var trace := st.trace + [a];
    assert trace[..|st.trace|] == st.trace;
    forall run ensures TextFor(trace, run) == TextFor(st.trace, run) {
      assert TextFor(st.trace, run) + "" == TextFor(st.trace, run);
    }
    assert SentUpdates(trace) == SentUpdates(st.trace);
    var keys := InteractionKeys(st.trace);
    assert InteractionKeys(trace) == keys + [(kind, key)];
    assert forall i :: 0 <= i < |keys| ==> keys[i] in keys;
    forall k | from <= k < |trace| ensures Authorized(trace, k) {
      if k < |st.trace| {
        assert Authorized(st.trace, k);
      }
    }
  }

  lemma OnInteractionKeeps(env: Env, st: Prompt, event: Json, from: nat)
    requires Inv(st, from) && EventKind(event).Str?
    ensures Inv(OnInteraction(env, st, event).0, from)
  {
    var kind, key := EventKind(event).s, InteractionKey(event);
    if StillPending(event) && (kind, key) !in st.seenInteractions {
      LogInteraction(st, kind, key, from);
      var marked := Log(st.(seenInteractions := st.seenInteractions + {(kind, key)}), Interaction(kind, key));
      InteractKeeps(env, marked, event, from);
      var after := Interact(env, marked, event).0;
      SessionIrrelevant(after, after.(resumed := true), from);
    }
  }

  lemma OnDoneKeeps(env: Env, st: Prompt, event: Json, from: nat)
    requires Inv(st, from)
    ensures Inv(OnDone(env, st, event).0, from)
  {
    hide Inv, DoneStatus, Interact;
    SessionIrrelevant(st, st.(resumed := true), from);
    if !st.resumed && DoneStatus(event) in {"waiting_approval", "waiting_input"} && env.pendings(st.asked).Some? {
      InteractKeeps(env, st, env.pendings(st.asked).value, from);
      var after := Interact(env, st, env.pendings(st.asked).value).0;
      SessionIrrelevant(after, after.(resumed := true), from);
    }
  }

  /** What one more sent update adds to the readings of a trace. */
  lemma SendTrace(trace: seq<Action>, update: Update, origin: Origin, run: Json, from: nat)
    requires WellFormedTools(SentUpdates(trace)) && AllAuthorized(trace, from)
    requires update.Tool? ==> update.first == (update.toolId !in ToolIds(SentUpdates(trace)))
    ensures var a := Send(update, origin, run); var more := trace + [a];
      && (forall other :: TextFor(more, other) == TextFor(trace, other) + ActionText(a, other))
      && WellFormedTools(SentUpdates(more)) && ToolIds(SentUpdates(more)) == ToolIds(SentUpdates(trace)) + Announced(update)
      && InteractionKeys(more) == InteractionKeys(trace)
      && AllAuthorized(more, from)
  {
    var more := trace + [Send(update, origin, run)];
    assert more[..|trace|] == trace;
    AppendKeepsTools(SentUpdates(trace), update);
    assert InteractionKeys(trace) + [] == InteractionKeys(trace);
    forall k | from <= k < |more| ensures Authorized(more, k) {
      if k < |trace| {
        AuthorizedPrefix(trace, more, k);
      }
    }
  }

  /** Sending an answer chunk and recording its text as delivered for the current run. */
  lemma LogChunk(st: Prompt, update: Update, origin: Origin, from: nat)
    requires Inv(st, from) && !origin.Question? && update.Chunk? && update.role == Assistant
    ensures var run := st.session.runId;
      Inv(Log(st.(delivered := st.delivered[run := Delivered(st, run) + update.text]), Send(update, origin, run)), from)
  {
    var run := st.session.runId;
    SendTrace(st.trace, update, origin, run, from);
    var next := Log(st.(delivered := st.delivered[run := Delivered(st, run) + update.text]), Send(update, origin, run));
    forall other ensures Delivered(next, other) == TextFor(next.trace, other) {
      assert Delivered(st, other) == TextFor(st.trace, other);
    }
  }

  /** Sending anything else leaves the delivered answers as they are. */
  lemma LogOther(st: Prompt, update: Update, from: nat)
    requires Inv(st, from) && !(update.Chunk? && update.role == Assistant)
    requires update.Tool? ==> update.first == (update.toolId !in st.seenTools)
    ensures Inv(Log(st.(seenTools := st.seenTools + Announced(update)), Send(update, Streamed, st.session.runId)), from)
  {
    SendTrace(st.trace, update, Streamed, st.session.runId, from);
    var next := Log(st.(seenTools := st.seenTools + Announced(update)), Send(update, Streamed, st.session.runId));
    forall other ensures Delivered(next, other) == TextFor(next.trace, other) {
      assert Delivered(st, other) == TextFor(st.trace, other);
    }
  }

  lemma OnUpdateKeeps(st: Prompt, event: Json, from: nat)
    requires Inv(st, from)
    ensures Inv(OnUpdate(st, event).0, from)
  {
    var p := RuntimeUpdate(event, st.seenTools);
    if p.Emit? {
      RuntimeUpdateOpens(event, st.seenTools);
      if p.update.Chunk? && p.update.role == Assistant {
        LogChunk(st, p.update, Streamed, from);
        assert st.seenTools + {} == st.seenTools;
      } else {
        LogOther(st, p.update, from);
      }
    }
  }

  lemma CatchUpKeeps(st: Prompt, data: Json, from: nat)
    requires Inv(st, from)
    requires StoredText(data, st.session.runId) != "" ==>
               StartsWith(StoredText(data, st.session.runId), Delivered(st, st.session.runId))
    ensures Inv(CatchUpText(st, data), from)
  {
    var run := st.session.runId;
    var chunks := StoredChunks(HistoryUpdates(data).updates, run);
    CatchUpSend(st, JoinTexts(chunks), LastMessageId(chunks), from);
  }

  lemma CatchUpSend(st: Prompt, stored: string, messageId: Json, from: nat)
    requires Inv(st, from) && (stored != "" ==> StartsWith(stored, Delivered(st, st.session.runId)))
    ensures var run := st.session.runId; var live := Delivered(st, run);
      |stored| > |live| ==>
        Inv(Log(st, Send(Chunk(Assistant, stored[|live|..], messageId, Null), CatchUp, run))
            .(delivered := st.delivered[run := stored]), from)
  {
    var live := Delivered(st, st.session.runId);
    if |stored| > |live| {
      LogChunk(st, Chunk(Assistant, stored[|live|..], messageId, Null), CatchUp, from);
      assert live + stored[|live|..] == stored;
    }
  }

  lemma OnSnapshotKeeps(st: Prompt, data: Json, from: nat)
    requires Inv(st, from)
    ensures Inv(OnSnapshot(st, data).0, from)
  {
    if OnSnapshot(st, data).1.EndStream? {
      CatchUpKeeps(st, data, from);
    }
  }

  lemma LearnKeeps(env: Env, st: Prompt, event: Json, from: nat)
    requires Inv(st, from)
    ensures Inv(LearnRun(env, st, event).0, from)
  {
    QuietKeeps(st, LearnRun(env, st, event).0, from);
  }

  lemma DispatchKeeps(env: Env, st: Prompt, event: Json, from: nat)
    requires Inv(st, from)
    ensures Inv(Dispatch(env, st, event).0, from)
  {
    var kind := EventKind(event);
    if Hashable(kind) {
      if IsStr(kind, {"approval_requested", "ask_user"}) {
        OnInteractionKeeps(env, st, event, from);
      } else if kind == Str("done") {
        OnDoneKeeps(env, st, event, from);
      } else {
        OnUpdateKeeps(st, event, from);
      }
    }
  }

  lemma HandleKeeps(env: Env, st: Prompt, event: Json, from: nat)
    requires Inv(st, from)
    ensures Inv(HandleEvent(env, st, event).0, from)
  {
    if event.Obj? {
      var (bound, ok) := LearnRun(env, st, event);
      LearnKeeps(env, st, event, from);
      if ok {
        if EventKind(event) == Str("snapshot") {
          OnSnapshotKeeps(bound, EventData(event), from);
        } else if !Truthy(EventIdentity(event)) {
          DispatchKeeps(env, bound, event, from);
        } else {
          var accepted := bound.(seenEvents := bound.seenEvents + {SetElement(EventIdentity(event))});
          SessionIrrelevant(bound, accepted, from);
          DispatchKeeps(env, accepted, event, from);
        }
      }
    }
  }

  lemma {:induction false} RunStreamKeeps(env: Env, st: Prompt, events: seq<Json>, from: nat)
    requires Inv(st, from)
    ensures Inv(RunStream(env, st, events).0, from)
    decreases |events|
  {
    hide HandleEvent;
    if events != [] {
      HandleKeeps(env, st, events[0], from);
      RunStreamKeeps(env, HandleEvent(env, st, events[0]).0, events[1..], from);
    }
  }

  lemma EndOfStreamKeeps(env: Env, st: Prompt, stream: Stream, from: nat)
    requires Inv(st, from)
    ensures Inv(EndOfStream(env, st, stream).prompt, from)
  {
    hide HandleEvent;
    RunStreamKeeps(env, st, stream.events, from);
    var after := RunStream(env, st, stream.events).0;
    SessionIrrelevant(after, after.(resumed := false), from);
  }

  lemma {:induction false} RunStreamsKeeps(env: Env, st: Prompt, streams: seq<Stream>, from: nat)
    requires Inv(st, from)
    ensures Inv(RunStreams(env, st, streams).0, from)
    decreases |streams|
  {
    hide EndOfStream;
    if streams != [] {
      EndOfStreamKeeps(env, st, streams[0], from);
      RunStreamsKeeps(env, EndOfStream(env, st, streams[0]).prompt, streams[1..], from);
    }
  }

  lemma FreshKeeps(session: Session)
    ensures Inv(Fresh(session), 0)
  {
    assert SentUpdates([]) == [];
  }

  lemma AnswerKeeps(env: Env, session: Session, text: string)
    requires Truthy(session.pendingInput) && !Truthy(session.pendingApproval)
    ensures Inv(StartPrompt(env, session, text).0, 1)
  {
    hide Interact, PyStr, Get, Or, Truthy;
    var st := Fresh(session);
    FreshKeeps(session);
    var told := Log(st, AnswerUser(PyStr(Get(session.pendingInput, "id")), text));
    QuietTrace(st.trace, told.trace);
    assert Inv(told, 1) by { hide WellFormedTools, Distinct, Authorized; }
    hide Inv;
    SessionIrrelevant(told, StartPrompt(env, session, text).0, 1);
  }

  /** Actions before the first stream: at most the typed answer to a pending question, which is
      the prompt's own text. */
  lemma StartKeeps(env: Env, session: Session, text: string)
    ensures var st := StartPrompt(env, session, text).0;
      Inv(st, if Truthy(session.pendingInput) && !Truthy(session.pendingApproval) then 1 else 0)
  {
    hide Inv, Interact, Truthy;
    var st := Fresh(session);
    FreshKeeps(session);
    if Truthy(session.pendingApproval) {
      var event := Obj(map["type" := Str("approval_requested"), "data" := session.pendingApproval]);
      InteractKeeps(env, st, event, 0);
      var after := Interact(env, st, event).0;
      SessionIrrelevant(after, after.(session := after.session.(pendingApproval := Null)), 0);
    } else if Truthy(session.pendingInput) {
      AnswerKeeps(env, session, text);
    } else {
      SessionIrrelevant(st, st.(session := session.(runId := Null)), 0);
    }
  }

  lemma PromptKeeps(env: Env, session: Session, text: string, streams: seq<Stream>)
    ensures Inv(RunPrompt(env, session, text, streams).0,
                if Truthy(session.pendingInput) && !Truthy(session.pendingApproval) then 1 else 0)
  {
    hide HandleEvent;
    var from := if Truthy(session.pendingInput) && !Truthy(session.pendingApproval) then 1 else 0;
    StartKeeps(env, session, text);
    RunStreamsKeeps(env, StartPrompt(env, session, text).0, streams, from);
  }

  // Main results about traces.

  /** In any prompt each tool id is announced by exactly one `tool_call`, before its updates; tool,
      activity and side-runtime ids share one set of announced ids. */
  lemma {:induction false} PromptToolTrace(env: Env, session: Session, text: string, streams: seq<Stream>)
    ensures WellFormedTools(SentUpdates(RunPrompt(env, session, text, streams).0.trace))
  {
    PromptKeeps(env, session, text, streams);
  }

  /** Each event-borne interaction reaches `_interaction` at most once per prompt, however often
      streams are reopened and replayed. */
  lemma {:induction false} InteractionsOnce(env: Env, session: Session, text: string, streams: seq<Stream>)
    ensures Distinct(InteractionKeys(RunPrompt(env, session, text, streams).0.trace))
  {
    PromptKeeps(env, session, text, streams);
  }

  /** The backend is told of an approval, a refusal or an answer only when the client gave exactly
      that reply to a request for exactly that interaction; the one other answer is the prompt's
      own text, to a question that was pending when the prompt started. */
  lemma {:induction false} AnswersAuthorized(env: Env, session: Session, text: string, streams: seq<Stream>, k: nat)
    requires k < |RunPrompt(env, session, text, streams).0.trace|
    ensures var trace := RunPrompt(env, session, text, streams).0.trace;
      Authorized(trace, k)
      || (k == 0 && Truthy(session.pendingInput) && !Truthy(session.pendingApproval)
          && trace[0] == AnswerUser(PyStr(Get(session.pendingInput, "id")), text))
  {
    PromptKeeps(env, session, text, streams);
    if k == 0 && Truthy(session.pendingInput) && !Truthy(session.pendingApproval) {
      var (st, ended) := StartPrompt(env, session, text);
      RunStreamsExtends(env, st, streams);
    }
  }

  lemma HandleExtends(env: Env, st: Prompt, event: Json)
    ensures st.trace <= HandleEvent(env, st, event).0.trace
  {
    hide Dispatch, EventIdentity, EventKind, EventRunId, Hashable, HistoryUpdates, StoredText, EventData;
    if event.Obj? {
      var bound := LearnRun(env, st, event).0;
      var accepted := bound.(seenEvents := bound.seenEvents + {SetElement(EventIdentity(event))});
      DispatchExtends(env, bound, event);
      DispatchExtends(env, accepted, event);
    }
  }

  lemma OnInteractionExtends(env: Env, st: Prompt, event: Json)
    requires EventKind(event).Str?
    ensures st.trace <= OnInteraction(env, st, event).0.trace
  {
    var kind, key := EventKind(event).s, InteractionKey(event);
    InteractQuiet(env, Log(st.(seenInteractions := st.seenInteractions + {(kind, key)}), Interaction(kind, key)), event);
  }

  lemma OnDoneExtends(env: Env, st: Prompt, event: Json)
    ensures st.trace <= OnDone(env, st, event).0.trace
  {
    hide Interact, DoneStatus, InteractionKeys, ToolIds, SentUpdates, TextFor;
    if env.pendings(st.asked).Some? {
      InteractQuiet(env, st, env.pendings(st.asked).value);
    }
  }

  lemma DispatchExtends(env: Env, st: Prompt, event: Json)
    ensures st.trace <= Dispatch(env, st, event).0.trace
  {
    hide OnInteraction, OnDone, EventKind, Hashable, RuntimeUpdate, EventData;
    if IsStr(EventKind(event), {"approval_requested", "ask_user"}) {
      OnInteractionExtends(env, st, event);
    } else {
      OnDoneExtends(env, st, event);
    }
  }

  lemma {:induction false} RunStreamExtends(env: Env, st: Prompt, events: seq<Json>)
    ensures st.trace <= RunStream(env, st, events).0.trace
    decreases |events|
  {
    hide HandleEvent;
    if events != [] {
      HandleExtends(env, st, events[0]);
      RunStreamExtends(env, HandleEvent(env, st, events[0]).0, events[1..]);
    }
  }

  /** Streams only add to the trace. */
  lemma {:induction false} RunStreamsExtends(env: Env, st: Prompt, streams: seq<Stream>)
    ensures st.trace <= RunStreams(env, st, streams).0.trace
    decreases |streams|
  {
    if streams != [] {
      RunStreamExtends(env, st, streams[0].events);
      RunStreamsExtends(env, EndOfStream(env, st, streams[0]).prompt, streams[1..]);
    }
  }
}
