/** A prompt as the bridge runs it: session fields, de-duplication sets and delivered text updated
    in place by nested loops. Every method is proved against the specification in `AcpBridge`. */
module AcpSessions {
  import opened PyText
  import opened PyJson
  import opened AcpContent
  import opened AcpBridge

  class AcpSession {
    var currentRunId: Json
    var pendingInput: Json
    var pendingApproval: Json
    var promptLocked: bool

    ghost function View(): Session
      reads this
    {
      Session(currentRunId, pendingInput, pendingApproval)
    }

    constructor (runId: Json, pendingInput: Json, pendingApproval: Json)
      ensures View() == Session(runId, pendingInput, pendingApproval) && !promptLocked
    {
      currentRunId := runId;
      this.pendingInput := pendingInput;
      this.pendingApproval := pendingApproval;
      promptLocked := false;
    }
  }

  /** The local variables of one prompt and the actions it has taken. */
  class PromptRun {
    const session: AcpSession
    const env: Env
    var seenTools: set<string>
    var seenEvents: set<Json>
    var seenInteractions: set<(string, string)>
    var delivered: map<Json, string>
    var resumed: bool
    var asked: nat
    var trace: seq<Action>

    ghost function View(): Prompt
      reads this, session
    {
      Prompt(session.View(), seenTools, seenEvents, seenInteractions, delivered, resumed, asked, trace)
    }

    constructor (session: AcpSession, env: Env)
      ensures this.session == session && this.env == env && View() == Fresh(session.View())
    {
      this.session := session;
      this.env := env;
      seenTools, seenEvents, seenInteractions := {}, {}, {};
      delivered := map[];
      resumed := false;
      asked := 0;
      trace := [];
    }

    method Record(a: Action)
      modifies this`trace
      ensures View() == Log(old(View()), a)
    {
      trace := trace + [a];
    }

    method SendUpdate(update: Update, origin: Origin)
      modifies this`trace
      ensures View() == Log(old(View()), Send(update, origin, old(session.currentRunId)))
    {
      trace := trace + [Send(update, origin, session.currentRunId)];
    }

    method Cancel(accepted: bool) returns (outcome: Outcome)
      modifies this`trace
      ensures (View(), outcome) == CancelPrompt(old(View()), accepted)
    {
      outcome := Resuming;
      if Truthy(session.currentRunId) {
        trace := trace + [CancelRun(session.currentRunId)];
        if !accepted { outcome := Raised; }
      }
    }

    method Resume(response: Option<Json>) returns (outcome: Outcome)
      modifies session`currentRunId
      ensures (View(), outcome) == ResumeWith(old(View()), response)
    {
      if response.None? || !response.value.Obj? { return Raised; }
      var r := response.value;
      if Get(r, "ok") == Bool(false) || Get(r, "resume_scheduled") == Bool(false) { return Raised; }
      session.currentRunId := Or(Or(Get(r, "resumed_run_id"), Get(r, "runId")), session.currentRunId);
      outcome := Resuming;
    }

    method ElicitAnswer(id: Json, answer: Answer) returns (outcome: Outcome)
      modifies this`trace, session
      ensures (View(), outcome) == Elicit(old(View()), id, answer)
      ensures session.promptLocked == old(session.promptLocked)
    {
      Record(AskClient("elicitation/create", id, answer.reply));
      if answer.reply.NoReply? {
        outcome := Cancel(answer.cancelAccepted);
        return;
      }
      var replied := ReplyObject(answer.reply);
      if replied.None? { return Raised; }
      var result := replied.value;
      if Get(result, "action") != Str("accept") {
        session.pendingInput := Obj(map["id" := id]);
        return InputRequired;
      }
      var content := Or(Get(result, "content"), Obj(map[]));
      if !content.Obj? { return Raised; }
      var text := Get(content, "answer");
      if !text.Str? || Strip(text.s) == "" { return Raised; }
      Record(AnswerUser(PyStr(id), text.s));
      outcome := Resume(answer.backend);
    }

    method AskPermission(id: Json, answer: Answer) returns (outcome: Outcome)
      modifies this`trace, session
      ensures (View(), outcome) == RequestPermission(old(View()), id, answer)
      ensures session.promptLocked == old(session.promptLocked)
    {
      Record(AskClient("session/request_permission", id, answer.reply));
      if answer.reply.NoReply? {
        outcome := Cancel(answer.cancelAccepted);
        return;
      }
      var replied := ReplyObject(answer.reply);
      if replied.None? { return Raised; }
      var chosen := Or(Get(replied.value, "outcome"), Obj(map[]));
      if !chosen.Obj? { return Raised; }
      if Get(chosen, "outcome") == Str("cancelled") {
        outcome := Cancel(answer.cancelAccepted);
        return;
      }
      if Get(chosen, "outcome") != Str("selected") || !IsStr(Get(chosen, "optionId"), {"approve", "deny"}) { return Raised; }
      var approved := Get(chosen, "optionId") == Str("approve");
      Record(Permission(PyStr(id), approved));
      var backend := answer.backend;
      if backend.None? || !backend.value.Obj? || Get(backend.value, "ok") == Bool(false) { return Raised; }
      if !approved { return Refused; }
      outcome := Resume(backend);
    }

    /** The branch of `_interaction` that asks the user. */
    method QuestionUser(event: Json, answer: Answer) returns (outcome: Outcome)
      modifies this`trace, session
      ensures (View(), outcome) == AskUser(env, old(View()), event, answer)
      ensures session.promptLocked == old(session.promptLocked)
    {
      hide Elicit, QuestionText, InteractionId, GetOr, Get, Or, PyStr;
      var id := InteractionId(event);
      var elicitation := Or(Get(env.capabilities, "elicitation"), Obj(map[]));
      if !elicitation.Obj? { return Raised; }
      if Get(elicitation, "form") == Null {
        session.pendingInput := Obj(map["id" := id]);
        SendUpdate(TextMessage(QuestionText(event) + "\n\nPlease reply to continue."), Question);
        return InputRequired;
      }
      outcome := ElicitAnswer(id, answer);
    }

    /** `_interaction`. */
    method RunInteraction(event: Json) returns (outcome: Outcome)
      modifies this`trace, this`asked, session
      ensures (View(), outcome) == Interact(env, old(View()), event)
      ensures session.promptLocked == old(session.promptLocked)
    {
      hide AskUser, RequestPermission, QuestionText, IsSpecDecision, InteractionId, EventKind, GetOr, PyStr, Get, Or;
      var answer := env.answers(asked);
      var before := asked;
      if !Truthy(InteractionId(event)) {
        outcome := Raised;
      } else if IsSpecDecision(event) {
        SendUpdate(TextMessage(QuestionText(event) + "\n\nComplete this Spec stage decision in V8OS Admin."), Question);
        outcome := Raised;
      } else if EventKind(event) == Str("ask_user") {
        outcome := QuestionUser(event, answer);
      } else {
        outcome := AskPermission(InteractionId(event), answer);
      }
      asked := before + 1;
    }

    method BindRun(event: Json) returns (ok: bool)
      modifies this`trace, session`currentRunId
      ensures (View(), ok) == LearnRun(env, old(View()), event)
    {
      ok := true;
      var runId := EventRunId(event);
      if runId != "" && !Truthy(session.currentRunId) {
        session.currentRunId := Str(runId);
        if env.cancelSeen {
          Record(CancelRun(session.currentRunId));
          ok := env.cancelAccepted;
        }
      }
    }

    method HandleSnapshot(data: Json) returns (signal: Signal)
      modifies this`trace, this`delivered
      ensures (View(), signal) == OnSnapshot(old(View()), data)
    {
      var run := SnapshotRun(data);
      if !run.Obj? { return Raise; }
      var current := session.currentRunId;
      if SnapshotRunId(data) != current { return Next; }
      var state := Get(run, "status");
      if !Hashable(state) { return Raise; }
      if !IsStr(state, RunTerminal()) { return Next; }
      var updates, failed := CollectHistoryUpdates(data);
      if failed { return Raise; }
      var chunks := StoredChunks(updates, current);
      var stored := JoinTexts(chunks);
      var live := if current in delivered then delivered[current] else "";
      if stored != "" && !StartsWith(stored, live) { return Raise; }
      if |stored| > |live| {
        SendUpdate(Chunk(Assistant, stored[|live|..], LastMessageId(chunks), Null), CatchUp);
        delivered := delivered[current := stored];
      }
      return EndStream(state.s);
    }

    method HandleInteraction(event: Json) returns (signal: Signal)
      requires EventKind(event).Str?
      modifies this, session
      ensures (View(), signal) == OnInteraction(env, old(View()), event)
      ensures session.promptLocked == old(session.promptLocked)
    {
      hide Interact;
      if !StillPending(event) { return Next; }
      var kind, key := EventKind(event).s, InteractionKey(event);
      if (kind, key) in seenInteractions { return Next; }
      seenInteractions := seenInteractions + {(kind, key)};
      Record(Interaction(kind, key));
      var outcome := RunInteraction(event);
      match outcome {
        case InputRequired => signal := WaitForInput;
        case Refused => signal := EndStream("refusal");
        case Resuming =>
          resumed := true;
          signal := Next;
        case Raised => signal := Raise;
      }
    }

    method HandleDone(event: Json) returns (signal: Signal)
      modifies this, session
      ensures (View(), signal) == OnDone(env, old(View()), event)
      ensures session.promptLocked == old(session.promptLocked)
    {
      hide Interact;
      var status := DoneStatus(event);
      if !resumed && status in {"waiting_approval", "waiting_input"} {
        var pending := env.pendings(asked);
        if pending.None? { return Raise; }
        var outcome := RunInteraction(pending.value);
        match outcome {
          case InputRequired => return WaitForInput;
          case Refused => return EndStream("refusal");
          case Raised => return Raise;
          case Resuming => resumed := true;
        }
      }
      if resumed || status in {"running", "queued", "waiting_runtime"} {
        resumed := true;
        return EndStream("");
      }
      return EndStream(if status == "" then "unknown" else status);
    }

    method HandleUpdate(event: Json) returns (signal: Signal)
      modifies this`trace, this`delivered, this`seenTools
      ensures (View(), signal) == OnUpdate(old(View()), event)
    {
      match RuntimeUpdate(event, seenTools) {
        case Invalid => return Raise;
        case Nothing => return Next;
        case Emit(update) =>
          var run := session.currentRunId;
          seenTools := seenTools + Announced(update);
          if update.Chunk? && update.role == Assistant {
            delivered := delivered[run := (if run in delivered then delivered[run] else "") + update.text];
          }
          SendUpdate(update, Streamed);
          return Next;
      }
    }

    /** The body of the event loop. */
    method Handle(event: Json) returns (signal: Signal)
      modifies this, session
      ensures (View(), signal) == HandleEvent(env, old(View()), event)
      ensures session.promptLocked == old(session.promptLocked)
    {
      hide LearnRun, OnSnapshot, OnInteraction, OnDone, OnUpdate, EventIdentity, EventKind, EventRunId;
      if !event.Obj? { return Raise; }
      var ok := BindRun(event);
      if !ok { return Raise; }
      var kind, runId := EventKind(event), EventRunId(event);
      if kind == Str("snapshot") {
        signal := HandleSnapshot(EventData(event));
        return;
      }
      if Truthy(session.currentRunId) && runId != "" && Str(runId) != session.currentRunId { return Next; }
      var identity := EventIdentity(event);
      if Truthy(identity) {
        if !Hashable(identity) { return Raise; }
        if SetElement(identity) in seenEvents { return Next; }
        seenEvents := seenEvents + {SetElement(identity)};
      }
      if !Hashable(kind) { return Raise; }
      if IsStr(kind, {"approval_requested", "ask_user"}) {
        signal := HandleInteraction(event);
      } else if kind == Str("error") {
        signal := Raise;
      } else if kind == Str("done") {
        signal := HandleDone(event);
      } else {
        signal := HandleUpdate(event);
      }
    }

    /** The three ways to start; `ended` when the prompt is over before any stream is read. */
    method Start(text: string) returns (ended: Option<Result>)
      requires View() == Fresh(session.View())
      modifies this, session
      ensures (View(), ended) == StartPrompt(env, old(session.View()), text)
      ensures session.promptLocked == old(session.promptLocked)
    {
      hide Interact;
      if Truthy(session.pendingApproval) {
        var outcome := RunInteraction(Obj(map["type" := Str("approval_requested"), "data" := session.pendingApproval]));
        if outcome.Raised? { return Some(Error(EventFailed)); }
        session.pendingApproval := Null;
        return if outcome.Refused? then Some(RefusedPending) else None;
      }
      if Truthy(session.pendingInput) {
        Record(AnswerUser(PyStr(Get(session.pendingInput, "id")), text));
        var response := env.inputResponse;
        if response.None? || !response.value.Obj? || Get(response.value, "ok") == Bool(false) {
          return Some(Error(EventFailed));
        }
        session.pendingInput := Null;
        session.currentRunId :=
          Or(Or(Get(response.value, "resumed_run_id"), Get(response.value, "runId")), session.currentRunId);
        return None;
      }
      session.currentRunId := Null;
      return None;
    }

    /** The nested loops: streams, and events within a stream. */
    method ReadStreams(streams: seq<Stream>) returns (result: Result)
      modifies this, session
      ensures (View(), result) == RunStreams(env, old(View()), streams)
      ensures session.promptLocked == old(session.promptLocked)
    {
      hide HandleEvent;
      for i := 0 to |streams|
        invariant RunStreams(env, View(), streams[i..]) == RunStreams(env, old(View()), streams)
        invariant session.promptLocked == old(session.promptLocked)
      {
        assert streams[i..][0] == streams[i] && streams[i..][1..] == streams[i + 1..];
        var signal := ReadStream(streams[i].events);
        var terminal := "";
        match signal {
          case Raise => return Error(EventFailed);
          case WaitForInput => return WaitingInput;
          case EndStream(status) => terminal := status;
          case Next =>
            if streams[i].broke { return Error(StreamBroke); }
        }
        if terminal != "" {
          if terminal in {"failed", "error", "interrupted", "aborted"} { return Error(RunFailed); }
          if terminal !in Confirmed() { return Error(NotConfirmed); }
          return Stopped(StopReason(terminal), session.currentRunId, terminal);
        }
        if !resumed { return Error(OutcomeUnknown); }
        resumed := false;
      }
      return StillOpen;
    }

    method ReadStream(events: seq<Json>) returns (signal: Signal)
      modifies this, session
      ensures (View(), signal) == RunStream(env, old(View()), events)
      ensures session.promptLocked == old(session.promptLocked)
    {
      hide HandleEvent;
      for j := 0 to |events|
        invariant RunStream(env, View(), events[j..]) == RunStream(env, old(View()), events)
        invariant session.promptLocked == old(session.promptLocked)
      {
        assert events[j..][0] == events[j] && events[j..][1..] == events[j + 1..];
        var handled := Handle(events[j]);
        if !handled.Next? { return handled; }
      }
      return Next;
    }
  }

  /** `session/prompt`: refused while another prompt runs (`None`); otherwise the prompt runs as
      specified, and the session is free again whichever way it ends. */
  method SessionPrompt(session: AcpSession, env: Env, text: string, streams: seq<Stream>)
    returns (result: Option<Result>, trace: seq<Action>)
    modifies session
    ensures old(session.promptLocked) ==>
      result == None && trace == [] && session.promptLocked && session.View() == old(session.View())
    ensures !old(session.promptLocked) ==>
      var (final, end) := RunPrompt(env, old(session.View()), text, streams);
      result == Some(end) && trace == final.trace && session.View() == final.session && !session.promptLocked
  {
    hide RunStreams, StartPrompt;
    if session.promptLocked { return None, []; }
    session.promptLocked := true;
    var run := new PromptRun(session, env);
    result := run.Start(text);
    if result.None? {
      var end := run.ReadStreams(streams);
      result := Some(end);
    }
    session.promptLocked := false;
    trace := run.trace;
  }
}
