/** One interaction with the user, told from the event, the client's answer and the backend's response:
    what is asked, what is passed on, how the prompt goes on and which run it then belongs to. */
module AcpInteractions {
  import opened PyText
  import opened PyJson
  import opened AcpContent
  import opened AcpBridge
  import opened AcpFields
  import opened AcpBridgeProofs
  import opened AcpCancels

  // What the client and the backend say.

  predicate Has(j: Json, key: string, value: Json) {
    j.Obj? && key in j.fields && j.fields[key] == value
  }

  /** The client sent a result that does not accept. */
  predicate Declines(reply: Reply) {
    reply.ReplyResult? && (reply.result == Null || (reply.result.Obj? && !Has(reply.result, "action", Str("accept"))))
  }

  /** The backend took the answer. */
  predicate Takes(response: Option<Json>) {
    response.Some? && response.value.Obj? && !Has(response.value, "ok", Bool(false))
  }

  /** And it scheduled the run to go on. */
  predicate GoesOn(response: Option<Json>) {
    Takes(response) && !Has(response.value, "resume_scheduled", Bool(false))
  }

  /** `run` is the run the response names, or else the one known before. */
  predicate NamesRun(response: Json, before: Json, run: Json) {
    var resumed, plain := Get(response, "resumed_run_id"), Get(response, "runId");
    && (Truthy(resumed) ==> run == resumed)
    && (!Truthy(resumed) && Truthy(plain) ==> run == plain)
    && (!Truthy(resumed) && !Truthy(plain) ==> run == before)
  }

  // What happens.

  /** The request was given up: the known run is cancelled, and the prompt goes on unless that fails. */
  predicate GaveUp(st: Prompt, ask: Action, accepted: bool, after: Prompt, outcome: Outcome) {
    && after == st.(trace := st.trace + [ask] + if Truthy(st.session.runId) then [CancelRun(st.session.runId)] else [])
    && outcome == if Truthy(st.session.runId) && !accepted then Raised else Resuming
  }

  /** The answer was sent: the prompt goes on with the run the backend resumed, or fails. */
  predicate WentOn(st: Prompt, sent: seq<Action>, backend: Option<Json>, after: Prompt, outcome: Outcome) {
    && after == st.(trace := st.trace + sent, session := st.session.(runId := after.session.runId))
    && (outcome == Resuming <==> GoesOn(backend)) && (outcome == Raised <==> !GoesOn(backend))
    && (if GoesOn(backend) then NamesRun(backend.value, st.session.runId, after.session.runId)
        else after.session.runId == st.session.runId)
  }

  /** An elicitation: the typed text goes to the backend, a declined one leaves the question pending, and
      any other answer fails the prompt. */
  lemma {:induction false} ElicitationExactly(st: Prompt, id: Json, answer: Answer)
    ensures var (after, outcome) := Elicit(st, id, answer);
      var ask := AskClient("elicitation/create", id, answer.reply);
      && (answer.reply.NoReply? ==> GaveUp(st, ask, answer.cancelAccepted, after, outcome))
      && (Declines(answer.reply) ==>
            after == st.(trace := st.trace + [ask], session := st.session.(pendingInput := Obj(map["id" := id]))) && outcome == InputRequired)
      && (forall text :: Accepts(answer.reply, text) ==>
            WentOn(st, [ask, AnswerUser(PyStr(id), text)], answer.backend, after, outcome))
      && (!answer.reply.NoReply? && !Declines(answer.reply) && (forall text :: !Accepts(answer.reply, text)) ==>
            after == st.(trace := st.trace + [ask]) && outcome == Raised)
  {
    hide Elicit, GaveUp, WentOn, Accepts, Declines;
    if answer.reply.NoReply? {
      ElicitationGivenUp(st, id, answer);
    } else if Declines(answer.reply) {
      ElicitationDeclined(st, id, answer);
    } else if text :| Accepts(answer.reply, text) {
      ElicitationAccepted(st, id, answer, text);
    } else {
      ElicitationFailed(st, id, answer);
    }
  }

  lemma ElicitationGivenUp(st: Prompt, id: Json, answer: Answer)
    requires answer.reply.NoReply?
    ensures var (after, outcome) := Elicit(st, id, answer);
      GaveUp(st, AskClient("elicitation/create", id, answer.reply), answer.cancelAccepted, after, outcome)
    ensures !Declines(answer.reply) && forall text :: !Accepts(answer.reply, text)
  {
  }

  lemma ElicitationDeclined(st: Prompt, id: Json, answer: Answer)
    requires Declines(answer.reply)
    ensures Elicit(st, id, answer)
      == (st.(trace := st.trace + [AskClient("elicitation/create", id, answer.reply)],
              session := st.session.(pendingInput := Obj(map["id" := id]))), InputRequired)
    ensures forall text :: !Accepts(answer.reply, text)
  {
    hide Strip, ResumeWith;
  }

  lemma ElicitationAccepted(st: Prompt, id: Json, answer: Answer, text: string)
    requires Accepts(answer.reply, text)
    ensures var (after, outcome) := Elicit(st, id, answer);
      WentOn(st, [AskClient("elicitation/create", id, answer.reply), AnswerUser(PyStr(id), text)], answer.backend, after, outcome)
    ensures forall other :: Accepts(answer.reply, other) ==> other == text
  {
    hide Strip, ResumeWith, WentOn, PyStr;
    var asked := Log(st, AskClient("elicitation/create", id, answer.reply));
    ResumeExactly(st, Log(asked, AnswerUser(PyStr(id), text)), [AskClient("elicitation/create", id, answer.reply), AnswerUser(PyStr(id), text)],
                  answer.backend);
  }

  lemma ElicitationFailed(st: Prompt, id: Json, answer: Answer)
    requires !answer.reply.NoReply? && !Declines(answer.reply) && forall text :: !Accepts(answer.reply, text)
    ensures Elicit(st, id, answer) == (st.(trace := st.trace + [AskClient("elicitation/create", id, answer.reply)]), Raised)
  {
    hide Strip, ResumeWith;
    if answer.reply.ReplyResult? && answer.reply.result.Obj? {
      var content := Get(answer.reply.result, "content");
      if content.Obj? && Get(content, "answer").Str? { var typed := Accepts(answer.reply, Get(content, "answer").s); }
    }
  }

  lemma ResumeExactly(st: Prompt, told: Prompt, sent: seq<Action>, backend: Option<Json>)
    requires told == st.(trace := st.trace + sent)
    ensures WentOn(st, sent, backend, ResumeWith(told, backend).0, ResumeWith(told, backend).1)
  {
  }

  /** A permission: the selected option goes to the backend; a denial it took ends the prompt as refused,
      an approval it took lets the run go on, a cancelled request cancels the run, and any other answer
      fails the prompt. */
  lemma {:induction false} PermissionExactly(st: Prompt, id: Json, answer: Answer)
    ensures var (after, outcome) := RequestPermission(st, id, answer);
      var ask := AskClient("session/request_permission", id, answer.reply);
      && (GivesUp(answer.reply) ==> GaveUp(st, ask, answer.cancelAccepted, after, outcome))
      && (Selects(answer.reply, "deny") ==>
            && after == st.(trace := st.trace + [ask, Permission(PyStr(id), false)])
            && outcome == if Takes(answer.backend) then Refused else Raised)
      && (Selects(answer.reply, "approve") ==>
            WentOn(st, [ask, Permission(PyStr(id), true)], answer.backend, after, outcome))
      && (!GivesUp(answer.reply) && !Selects(answer.reply, "deny") && !Selects(answer.reply, "approve") ==>
            after == st.(trace := st.trace + [ask]) && outcome == Raised)
  {
    hide RequestPermission, GaveUp, WentOn, Selects, GivesUp, Takes;
    if GivesUp(answer.reply) {
      PermissionGivenUp(st, id, answer);
    } else if Selects(answer.reply, "deny") {
      PermissionDenied(st, id, answer);
    } else if Selects(answer.reply, "approve") {
      PermissionApproved(st, id, answer);
    } else {
      PermissionFailed(st, id, answer);
    }
  }

  lemma PermissionGivenUp(st: Prompt, id: Json, answer: Answer)
    requires GivesUp(answer.reply)
    ensures var (after, outcome) := RequestPermission(st, id, answer);
      GaveUp(st, AskClient("session/request_permission", id, answer.reply), answer.cancelAccepted, after, outcome)
    ensures !Selects(answer.reply, "deny") && !Selects(answer.reply, "approve")
  {
    hide ResumeWith;
  }

  lemma PermissionDenied(st: Prompt, id: Json, answer: Answer)
    requires Selects(answer.reply, "deny")
    ensures RequestPermission(st, id, answer)
      == (st.(trace := st.trace + [AskClient("session/request_permission", id, answer.reply), Permission(PyStr(id), false)]),
          if Takes(answer.backend) then Refused else Raised)
    ensures !Selects(answer.reply, "approve")
  {
    hide ResumeWith, CancelPrompt, PyStr;
    var ask, told := AskClient("session/request_permission", id, answer.reply), Permission(PyStr(id), false);
    assert st.trace + [ask] + [told] == st.trace + [ask, told];
  }

  lemma PermissionApproved(st: Prompt, id: Json, answer: Answer)
    requires Selects(answer.reply, "approve")
    ensures var (after, outcome) := RequestPermission(st, id, answer);
      WentOn(st, [AskClient("session/request_permission", id, answer.reply), Permission(PyStr(id), true)], answer.backend, after, outcome)
  {
    hide WentOn, CancelPrompt, PyStr;
    var asked := Log(st, AskClient("session/request_permission", id, answer.reply));
    ResumeExactly(st, Log(asked, Permission(PyStr(id), true)), [AskClient("session/request_permission", id, answer.reply), Permission(PyStr(id), true)],
                  answer.backend);
  }

  lemma PermissionFailed(st: Prompt, id: Json, answer: Answer)
    requires !GivesUp(answer.reply) && !Selects(answer.reply, "deny") && !Selects(answer.reply, "approve")
    ensures RequestPermission(st, id, answer) == (st.(trace := st.trace + [AskClient("session/request_permission", id, answer.reply)]), Raised)
  {
    hide ResumeWith, CancelPrompt, PyStr;
  }



  // Which interaction an event is.

  /** The request of an event: its `request` object, or else its data. */
  function RequestOf(event: Json): Json {
    if Get(EventData(event), "request").Obj? then Get(EventData(event), "request") else EventData(event)
  }

  function SubjectOf(event: Json): Json {
    var data := EventData(event);
    FirstOf([Get(data, "id"), Get(data, "approvalId"), Get(data, "interactionId"), Get(RequestOf(event), "interactionId")])
  }

  /** What the user is asked. */
  function WordsOf(event: Json): string {
    var request := RequestOf(event);
    PyStr(FirstOf([Get(request, "question"), Get(request, "summary"), Get(request, "reason"),
                   Get(EventData(event), "title"), Str("V8OS needs your input.")]))
  }

  lemma SubjectExactly(event: Json)
    ensures InteractionId(event) == SubjectOf(event) && QuestionText(event) == WordsOf(event)
  {
    hide Or, FirstOf, Get, PyStr;
    var data, request := EventData(event), RequestOf(event);
    FirstOfFour(Get(data, "id"), Get(data, "approvalId"), Get(data, "interactionId"), Get(request, "interactionId"));
    FirstOfFive(Get(request, "question"), Get(request, "summary"), Get(request, "reason"), Get(data, "title"), Str("V8OS needs your input."));
  }

  /** A spec-stage decision, which the client cannot take. */
  predicate DecidesSpec(event: Json) {
    var kind := FirstOf([Get(EventData(event), "approvalKind"), Get(EventData(event), "approval_kind"), Get(RequestOf(event), "approvalKind")]);
    Truthy(kind) && |PyStr(kind)| >= 4 && PyStr(kind)[..4] == "spec"
  }

  lemma SpecExactly(event: Json)
    ensures IsSpecDecision(event) <==> DecidesSpec(event)
  {
    var data := EventData(event);
    var a, b, c := Get(data, "approvalKind"), Get(data, "approval_kind"), Get(RequestOf(event), "approvalKind");
    FirstOfThree(a, b, c);
  }

  /** The client can be asked by a form. */
  predicate CanElicit(capabilities: Json) {
    capabilities.Obj? && "elicitation" in capabilities.fields
    && capabilities.fields["elicitation"].Obj? && Get(capabilities.fields["elicitation"], "form") != Null
  }

  function Says(st: Prompt, text: string): Prompt {
    st.(trace := st.trace + [Send(Chunk(Assistant, text, Null, Null), Question, st.session.runId)])
  }

  /** One call of `_interaction`: which of these things it does, and that it uses up one answer. */
  lemma {:induction false} InteractionExactly(env: Env, st: Prompt, event: Json)
    ensures var (after, outcome) := Interact(env, st, event);
      var id, answer := SubjectOf(event), env.answers(st.asked);
      && after.asked == st.asked + 1
      && (after.(asked := st.asked), outcome)
         == if !Truthy(id) then (st, Raised)
            else if DecidesSpec(event) then (Says(st, WordsOf(event) + "\n\nComplete this Spec stage decision in V8OS Admin."), Raised)
            else if EventKind(event) != Str("ask_user") then RequestPermission(st, id, answer)
            else if Truthy(Get(env.capabilities, "elicitation")) && !Get(env.capabilities, "elicitation").Obj? then (st, Raised)
            else if CanElicit(env.capabilities) then Elicit(st, id, answer)
            else (Says(st, WordsOf(event) + "\n\nPlease reply to continue.").(session := st.session.(pendingInput := Obj(map["id" := id]))), InputRequired)
  {
    hide Elicit, RequestPermission, QuestionText, InteractionId, IsSpecDecision, DecidesSpec, SubjectOf, WordsOf, EventKind;
    SubjectExactly(event);
    SpecExactly(event);
    AskedOnce(env, st, event);
  }

  lemma AskedOnce(env: Env, st: Prompt, event: Json)
    ensures InteractWith(env, st, event, env.answers(st.asked)).0.asked == st.asked
  {
    hide QuestionText, InteractionId, IsSpecDecision, EventKind, AskUser, RequestPermission, Get, Or, PyStr, GetOr, Truthy;
    AskUserAsked(env, st, event, env.answers(st.asked));
    PermissionAsked(st, InteractionId(event), env.answers(st.asked));
  }

  lemma AskUserAsked(env: Env, st: Prompt, event: Json, answer: Answer)
    ensures AskUser(env, st, event, answer).0.asked == st.asked
  {
    hide QuestionText, InteractionId, Elicit, Get, Or, PyStr, GetOr, Truthy;
    ElicitAsked(st, InteractionId(event), answer);
  }

  lemma ElicitAsked(st: Prompt, id: Json, answer: Answer)
    ensures Elicit(st, id, answer).0.asked == st.asked
  {
    hide ReplyObject, Get, Strip, PyStr;
  }

  lemma PermissionAsked(st: Prompt, id: Json, answer: Answer)
    ensures RequestPermission(st, id, answer).0.asked == st.asked
  {
    hide ReplyObject, Get, IsStr, PyStr;
  }

  // How a prompt starts.

  /** A prompt with nothing pending starts without a run; one with a pending question sends its text as
      the answer, and one with a pending approval asks for it again. The pending entry is dropped exactly
      when the answer was taken, and only then are streams read, unless the approval was denied. */
  lemma {:induction false} StartExactly(env: Env, session: Session, text: string)
    ensures var (st, ended) := StartPrompt(env, session, text);
      && (!Truthy(session.pendingApproval) && !Truthy(session.pendingInput) ==>
            st == Fresh(session.(runId := Null)) && ended == None)
      && (!Truthy(session.pendingApproval) && Truthy(session.pendingInput) ==>
            && st.trace == [AnswerUser(PyStr(Get(session.pendingInput, "id")), text)] && st == Fresh(st.session).(trace := st.trace)
            && ended == (if Takes(env.inputResponse) then None else Some(Error(EventFailed)))
            && st.session.pendingApproval == session.pendingApproval
            && st.session.pendingInput == (if Takes(env.inputResponse) then Null else session.pendingInput)
            && (if Takes(env.inputResponse) then NamesRun(env.inputResponse.value, session.runId, st.session.runId)
                else st.session.runId == session.runId))
      && (Truthy(session.pendingApproval) ==>
            var asked := Obj(map["type" := Str("approval_requested"), "data" := session.pendingApproval]);
            var (after, outcome) := Interact(env, Fresh(session), asked);
            && (outcome == Raised ==> st == after && ended == Some(Error(EventFailed)))
            && (outcome != Raised ==>
                  && st == after.(session := after.session.(pendingApproval := Null))
                  && ended == if outcome == Refused then Some(RefusedPending) else None))
  {
    hide Interact, PyStr;
  }
}
