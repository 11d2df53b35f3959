/** One `session/prompt` of the ACP bridge: the specification of a prompt as a function of its
    event streams and of the answers of the client and the backend. */
module AcpBridge {
  import opened PyText
  import opened PyJson
  import opened AcpContent

  /** The session fields a prompt reads and writes; `Null` where there is no value. */
  datatype Session = Session(runId: Json, pendingInput: Json, pendingApproval: Json)

  datatype Origin = Streamed | CatchUp | Question

  /** The client's reply to a request: none before the prompt was cancelled, an error, or a result. */
  datatype Reply = NoReply | ReplyError | ReplyResult(result: Json)

  /** What one interaction meets: the client's reply, the backend's response (`None` when the call
      raised), and whether the backend accepts a cancel. */
  datatype Answer = Answer(reply: Reply, backend: Option<Json>, cancelAccepted: bool)

  /** Everything a prompt depends on besides its event streams. `cancelSeen` is the cancel flag at
      the moment the run id is learned; the k-th interaction meets `answers(k)`, and the k-th
      look-up of a pending interaction yields `pendings(k)` (`None` when it raised). */
  datatype Env = Env(capabilities: Json, cancelSeen: bool, cancelAccepted: bool, inputResponse: Option<Json>,
                     answers: nat -> Answer, pendings: nat -> Option<Json>)

  /** What a prompt does, in order. `run` is the session's run id at that moment. */
  datatype Action =
    | Send(update: Update, origin: Origin, run: Json)
    | Interaction(kind: string, key: string)
    | AskClient(request: string, subject: Json, reply: Reply)
    | AnswerUser(interaction: string, answer: string)
    | Permission(interaction: string, approved: bool)
    | CancelRun(run: Json)

  datatype Prompt = Prompt(session: Session, seenTools: set<string>, seenEvents: set<Json>,
                           seenInteractions: set<(string, string)>, delivered: map<Json, string>, resumed: bool,
                           asked: nat, trace: seq<Action>)

  datatype Failure = EventFailed | RunFailed | NotConfirmed | OutcomeUnknown | StreamBroke

  /** How a prompt ends; `StillOpen` when its streams are exhausted and it waits for another. */
  datatype Result =
    | Stopped(stopReason: string, runId: Json, status: string)
    | WaitingInput
    | RefusedPending
    | Error(failure: Failure)
    | StillOpen

  /** How the event loop goes on after one event. */
  datatype Signal = Next | EndStream(terminal: string) | WaitForInput | Raise

  datatype Outcome = InputRequired | Resuming | Refused | Raised

  function Log(st: Prompt, a: Action): Prompt {
    st.(trace := st.trace + [a])
  }

  // Interactions.

  function InteractionRequest(data: Json): Json {
    if Get(data, "request").Obj? then Get(data, "request") else data
  }

  function InteractionId(event: Json): Json {
    var data := EventData(event);
    Or(Or(Or(Get(data, "id"), Get(data, "approvalId")), Get(data, "interactionId")),
       Get(InteractionRequest(data), "interactionId"))
  }

  function QuestionText(event: Json): string {
    var data := EventData(event);
    var request := InteractionRequest(data);
    PyStr(Or(Or(Or(Or(Get(request, "question"), Get(request, "summary")), Get(request, "reason")), Get(data, "title")),
             Str("V8OS needs your input.")))
  }

  predicate IsSpecDecision(event: Json) {
    var data := EventData(event);
    StartsWith(StrOrEmpty(Or(Or(Get(data, "approvalKind"), Get(data, "approval_kind")),
                             Get(InteractionRequest(data), "approvalKind"))), "spec")
  }

  function TextMessage(text: string): Update {
    Chunk(Assistant, text, Null, Null)
  }

  function Ask(st: Prompt, text: string): Prompt {
    Log(st, Send(TextMessage(text), Question, st.session.runId))
  }

  /** `session_cancel` from the prompt itself. */
  function CancelPrompt(st: Prompt, accepted: bool): (Prompt, Outcome) {
    if !Truthy(st.session.runId) then (st, Resuming)
    else (Log(st, CancelRun(st.session.runId)), if accepted then Resuming else Raised)
  }

  /** After the backend took the answer: the run it resumed becomes the session's run. */
  function ResumeWith(st: Prompt, response: Option<Json>): (Prompt, Outcome) {
    if response.None? || !response.value.Obj? then (st, Raised)
    else
      var r := response.value;
      if Get(r, "ok") == Bool(false) || Get(r, "resume_scheduled") == Bool(false) then (st, Raised)
      else (st.(session := st.session.(runId := Or(Or(Get(r, "resumed_run_id"), Get(r, "runId")), st.session.runId))), Resuming)
  }

  /** The reply's result as an object; `None` when the client's result is no object. */
  function ReplyObject(reply: Reply): Option<Json> {
    if reply.ReplyResult? && reply.result == Null then Some(Obj(map[]))
    else if reply.ReplyResult? && reply.result.Obj? then Some(reply.result)
    else None
  }

  function WaitForAnswer(st: Prompt, id: Json): Prompt {
    st.(session := st.session.(pendingInput := Obj(map["id" := id])))
  }

  function Elicit(st: Prompt, id: Json, answer: Answer): (Prompt, Outcome) {
    var asked := Log(st, AskClient("elicitation/create", id, answer.reply));
    if answer.reply.NoReply? then CancelPrompt(asked, answer.cancelAccepted)
    else match ReplyObject(answer.reply)
      case None => (asked, Raised)
      case Some(result) =>
        var content := Or(Get(result, "content"), Obj(map[]));
        if Get(result, "action") != Str("accept") then (WaitForAnswer(asked, id), InputRequired)
        else if !content.Obj? || !Get(content, "answer").Str? || Strip(Get(content, "answer").s) == "" then (asked, Raised)
        else ResumeWith(Log(asked, AnswerUser(PyStr(id), Get(content, "answer").s)), answer.backend)
  }

  function RequestPermission(st: Prompt, id: Json, answer: Answer): (Prompt, Outcome) {
    var asked := Log(st, AskClient("session/request_permission", id, answer.reply));
    if answer.reply.NoReply? then CancelPrompt(asked, answer.cancelAccepted)
    else match ReplyObject(answer.reply)
      case None => (asked, Raised)
      case Some(result) =>
        var outcome := Or(Get(result, "outcome"), Obj(map[]));
        if !outcome.Obj? then (asked, Raised)
        else if Get(outcome, "outcome") == Str("cancelled") then CancelPrompt(asked, answer.cancelAccepted)
        else if Get(outcome, "outcome") != Str("selected") || !IsStr(Get(outcome, "optionId"), {"approve", "deny"}) then
          (asked, Raised)
        else
          var approved := Get(outcome, "optionId") == Str("approve");
          var told := Log(asked, Permission(PyStr(id), approved));
          if answer.backend.None? || !answer.backend.value.Obj? || Get(answer.backend.value, "ok") == Bool(false) then (told, Raised)
          else if !approved then (told, Refused)
          else ResumeWith(told, answer.backend)
  }

  /** A question to the user: by elicitation when the client has it, as a text message otherwise. */
  function AskUser(env: Env, st: Prompt, event: Json, answer: Answer): (Prompt, Outcome) {
    var id := InteractionId(event);
    var elicitation := Or(Get(env.capabilities, "elicitation"), Obj(map[]));
    if !elicitation.Obj? then (st, Raised)
    else if Get(elicitation, "form") == Null then
      (Ask(WaitForAnswer(st, id), QuestionText(event) + "\n\nPlease reply to continue."), InputRequired)
    else Elicit(st, id, answer)
  }

  function InteractWith(env: Env, st: Prompt, event: Json, answer: Answer): (Prompt, Outcome) {
    if !Truthy(InteractionId(event)) then (st, Raised)
    else if IsSpecDecision(event) then
      (Ask(st, QuestionText(event) + "\n\nComplete this Spec stage decision in V8OS Admin."), Raised)
    else if EventKind(event) == Str("ask_user") then AskUser(env, st, event, answer)
    else RequestPermission(st, InteractionId(event), answer)
  }

  /** One call of `_interaction`; calls are counted, so that each meets its own answer. */
  function Interact(env: Env, st: Prompt, event: Json): (Prompt, Outcome) {
    var (after, outcome) := InteractWith(env, st, event, env.answers(st.asked));
    (after.(asked := st.asked + 1), outcome)
  }

  // Events.

  function EventIdentity(event: Json): Json {
    Or(Or(Get(event, "eventId"), Get(event, "event_id")), Get(event, "seq"))
  }

  /** The first event that names a run binds a prompt that has none, and honours an earlier cancel. */
  function LearnRun(env: Env, st: Prompt, event: Json): (Prompt, bool) {
    var runId := EventRunId(event);
    if runId == "" || Truthy(st.session.runId) then (st, true)
    else
      var bound := st.(session := st.session.(runId := Str(runId)));
      if env.cancelSeen then (Log(bound, CancelRun(Str(runId))), env.cancelAccepted) else (bound, true)
  }

  function RunTerminal(): set<string> {
    {"completed", "succeeded", "finished", "failed", "cancelled", "canceled"}
  }

  /** The stored answer chunks of one run, in history order. */
  function StoredChunks(updates: seq<Update>, run: Json): seq<Update> {
    if updates == [] then []
    else
      var u := updates[0];
      (if u.Chunk? && u.role == Assistant && u.runId == run then [u] else []) + StoredChunks(updates[1..], run)
  }

  function JoinTexts(updates: seq<Update>): string {
    if updates == [] then ""
    else (if updates[0].Chunk? then updates[0].text else "") + JoinTexts(updates[1..])
  }

  function StoredText(data: Json, run: Json): string {
    JoinTexts(StoredChunks(HistoryUpdates(data).updates, run))
  }

  function Delivered(st: Prompt, run: Json): string {
    if run in st.delivered then st.delivered[run] else ""
  }

  function SnapshotRun(data: Json): Json {
    Or(Get(data, "currentRun"), Obj(map[]))
  }

  function SnapshotRunId(data: Json): Json {
    Or(Get(SnapshotRun(data), "id"), Get(SnapshotRun(data), "runId"))
  }

  function LastMessageId(chunks: seq<Update>): Json {
    if chunks == [] || !chunks[|chunks| - 1].Chunk? then Null else Or(chunks[|chunks| - 1].messageId, Null)
  }

  /** Sends the part of the stored answer that was not delivered live. */
  function CatchUpText(st: Prompt, data: Json): Prompt {
    var run := st.session.runId;
    var chunks := StoredChunks(HistoryUpdates(data).updates, run);
    var stored, live := JoinTexts(chunks), Delivered(st, run);
    if |stored| <= |live| then st
    else
      Log(st, Send(Chunk(Assistant, stored[|live|..], LastMessageId(chunks), Null), CatchUp, run))
      .(delivered := st.delivered[run := stored])
  }

  function OnSnapshot(st: Prompt, data: Json): (Prompt, Signal) {
    var run := SnapshotRun(data);
    var current := st.session.runId;
    if !run.Obj? then (st, Raise)
    else if SnapshotRunId(data) != current then (st, Next)
    else if !Hashable(Get(run, "status")) then (st, Raise)
    else if !IsStr(Get(run, "status"), RunTerminal()) then (st, Next)
    else if HistoryUpdates(data).failed then (st, Raise)
    else if StoredText(data, current) != "" && !StartsWith(StoredText(data, current), Delivered(st, current)) then (st, Raise)
    else (CatchUpText(st, data), EndStream(Get(run, "status").s))
  }

  function InteractionKey(event: Json): string {
    var data := EventData(event);
    StrOrEmpty(Or(Or(Get(data, "id"), Get(data, "approvalId")), Get(data, "interactionId")))
  }

  predicate StillPending(event: Json) {
    PyStr(Or(Or(Get(event, "status"), Get(EventData(event), "status")), Str("pending")))
      in {"pending", "waiting", "open", "requested"}
  }

  /** What follows a call of `_interaction`. */
  function AfterInteraction(st: Prompt, outcome: Outcome): (Prompt, Signal) {
    match outcome
    case InputRequired => (st, WaitForInput)
    case Refused => (st, EndStream("refusal"))
    case Resuming => (st.(resumed := true), Next)
    case Raised => (st, Raise)
  }

  function OnInteraction(env: Env, st: Prompt, event: Json): (Prompt, Signal)
    requires EventKind(event).Str?
  {
    var kind, key := EventKind(event).s, InteractionKey(event);
    if !StillPending(event) || (kind, key) in st.seenInteractions then (st, Next)
    else
      var marked := Log(st.(seenInteractions := st.seenInteractions + {(kind, key)}), Interaction(kind, key));
      var (after, outcome) := Interact(env, marked, event);
      AfterInteraction(after, outcome)
  }

  function DoneStatus(event: Json): string {
    StrOrEmpty(Or(Or(Get(event, "status"), Get(EventData(event), "status")), Get(EventData(event), "state")))
  }

  function OnDone(env: Env, st: Prompt, event: Json): (Prompt, Signal) {
    var status := DoneStatus(event);
    if !st.resumed && status in {"waiting_approval", "waiting_input"} then
      match env.pendings(st.asked)
      case None => (st, Raise)
      case Some(pending) =>
        var (after, outcome) := Interact(env, st, pending);
        var (next, signal) := AfterInteraction(after, outcome);
        (next, if signal.Next? then EndStream("") else signal)
    else if st.resumed || status in {"running", "queued", "waiting_runtime"} then (st.(resumed := true), EndStream(""))
    else (st, EndStream(if status == "" then "unknown" else status))
  }

  /** Everything that is not snapshot, interaction, error or done is projected and sent. */
  function OnUpdate(st: Prompt, event: Json): (Prompt, Signal) {
    match RuntimeUpdate(event, st.seenTools)
    case Invalid => (st, Raise)
    case Nothing => (st, Next)
    case Emit(update) =>
      var run := st.session.runId;
      var sent := Log(st.(seenTools := st.seenTools + Announced(update)), Send(update, Streamed, run));
      (if update.Chunk? && update.role == Assistant then sent.(delivered := st.delivered[run := Delivered(st, run) + update.text])
       else sent, Next)
  }

  /** An event that has passed run filtering and de-duplication. */
  function Dispatch(env: Env, st: Prompt, event: Json): (Prompt, Signal) {
    var kind := EventKind(event);
    if !Hashable(kind) then (st, Raise)
    else if IsStr(kind, {"approval_requested", "ask_user"}) then OnInteraction(env, st, event)
    else if kind == Str("error") then (st, Raise)
    else if kind == Str("done") then OnDone(env, st, event)
    else OnUpdate(st, event)
  }

  predicate OtherRun(st: Prompt, event: Json) {
    Truthy(st.session.runId) && EventRunId(event) != "" && Str(EventRunId(event)) != st.session.runId
  }

  /** One turn of the event loop. */
  function HandleEvent(env: Env, st: Prompt, event: Json): (Prompt, Signal) {
    if !event.Obj? then (st, Raise)
    else
      var (bound, ok) := LearnRun(env, st, event);
      var identity := EventIdentity(event);
      if !ok then (bound, Raise)
      else if EventKind(event) == Str("snapshot") then OnSnapshot(bound, EventData(event))
      else if OtherRun(bound, event) then (bound, Next)
      else if !Truthy(identity) then Dispatch(env, bound, event)
      else if !Hashable(identity) then (bound, Raise)
      else if SetElement(identity) in bound.seenEvents then (bound, Next)
      else Dispatch(env, bound.(seenEvents := bound.seenEvents + {SetElement(identity)}), event)
  }

  /** The event loop over one stream, until the stream ends or an event ends it. */
  function RunStream(env: Env, st: Prompt, events: seq<Json>): (Prompt, Signal)
    decreases |events|
  {
    if events == [] then (st, Next)
    else
      var (after, signal) := HandleEvent(env, st, events[0]);
      if signal.Next? then RunStream(env, after, events[1..]) else (after, signal)
  }

  // Streams.

  /** The events of one stream; `broke` when reading it raised after them. */
  datatype Stream = Stream(events: seq<Json>, broke: bool)

  datatype StreamEnd = Reopen(prompt: Prompt) | Finished(prompt: Prompt, result: Result)

  function Confirmed(): set<string> {
    {"completed", "succeeded", "finished", "cancelled", "canceled", "refusal", "end_turn", "max_tokens", "max_turn_requests"}
  }

  function StopReason(terminal: string): string {
    if terminal in {"cancelled", "canceled"} then "cancelled"
    else if terminal == "refusal" then "refusal"
    else if terminal in {"max_tokens", "max_turn_requests"} then terminal
    else "end_turn"
  }

  /** What a prompt makes of the way its stream ended. */
  function CloseStream(st: Prompt, terminal: string): StreamEnd {
    if terminal != "" then
      Finished(st,
        if terminal in {"failed", "error", "interrupted", "aborted"} then Error(RunFailed)
        else if terminal !in Confirmed() then Error(NotConfirmed)
        else Stopped(StopReason(terminal), st.session.runId, terminal))
    else if !st.resumed then Finished(st, Error(OutcomeUnknown))
    else Reopen(st.(resumed := false))
  }

  function EndOfStream(env: Env, st: Prompt, stream: Stream): StreamEnd {
    var (after, signal) := RunStream(env, st, stream.events);
    match signal
    case Raise => Finished(after, Error(EventFailed))
    case WaitForInput => Finished(after, WaitingInput)
    case EndStream(terminal) => CloseStream(after, terminal)
    case Next => if stream.broke then Finished(after, Error(StreamBroke)) else CloseStream(after, "")
  }

  function RunStreams(env: Env, st: Prompt, streams: seq<Stream>): (Prompt, Result)
    decreases |streams|
  {
    if streams == [] then (st, StillOpen)
    else match EndOfStream(env, st, streams[0])
      case Finished(after, result) => (after, result)
      case Reopen(after) => RunStreams(env, after, streams[1..])
  }

  /** A prompt that has just started: nothing seen, nothing delivered. */
  function Fresh(session: Session): Prompt {
    Prompt(session, {}, {}, {}, map[], false, 0, [])
  }

  /** The three ways a prompt starts; a result when it ends before any stream is read. */
  function StartPrompt(env: Env, session: Session, text: string): (Prompt, Option<Result>) {
    var st := Fresh(session);
    if Truthy(session.pendingApproval) then
      var event := Obj(map["type" := Str("approval_requested"), "data" := session.pendingApproval]);
      var (after, outcome) := Interact(env, st, event);
      if outcome.Raised? then (after, Some(Error(EventFailed)))
      else
        var settled := after.(session := after.session.(pendingApproval := Null));
        (settled, if outcome.Refused? then Some(RefusedPending) else None)
    else if Truthy(session.pendingInput) then
      var told := Log(st, AnswerUser(PyStr(Get(session.pendingInput, "id")), text));
      if env.inputResponse.None? || !env.inputResponse.value.Obj? || Get(env.inputResponse.value, "ok") == Bool(false) then
        (told, Some(Error(EventFailed)))
      else
        var r := env.inputResponse.value;
        var runId := Or(Or(Get(r, "resumed_run_id"), Get(r, "runId")), session.runId);
        (told.(session := session.(pendingInput := Null, runId := runId)), None)
    else (st.(session := session.(runId := Null)), None)
  }

  /** A whole prompt: `text` is the user's message and `streams` the event streams it reads in turn. */
  function RunPrompt(env: Env, session: Session, text: string, streams: seq<Stream>): (Prompt, Result) {
    var (st, ended) := StartPrompt(env, session, text);
    if ended.Some? then (st, ended.value) else RunStreams(env, st, streams)
  }
}
