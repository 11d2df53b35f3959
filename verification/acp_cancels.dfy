/** Cancels and answers over whole prompts: why a cancel is sent, that an earlier cancel request is
    honoured when the run becomes known, and that what the client answers is passed on. */
module AcpCancels {
  import opened PyText
  import opened PyJson
  import opened AcpContent
  import opened AcpBridge
  import opened AcpBridgeProofs
  import opened AcpBridgeOutcomes
  import Race = CancelRace

  /** The client gave up a request: no reply before the prompt was cancelled, or a cancelled one. */
  predicate GivesUp(reply: Reply) {
    || reply.NoReply?
    || (reply.ReplyResult? && reply.result.Obj? && Get(Get(reply.result, "outcome"), "outcome") == Str("cancelled"))
  }

  /** The action follows a request that the client gave up. */
  predicate AfterGivingUp(trace: seq<Action>, k: nat)
    requires k < |trace|
  {
    k > 0 && trace[k - 1].AskClient? && GivesUp(trace[k - 1].reply)
  }

  /** Cancels that the client did not cause by giving up a request. */
  function OwnCancels(trace: seq<Action>): nat {
    if trace == [] then 0
    else
      OwnCancels(trace[..|trace| - 1])
      + if trace[|trace| - 1].CancelRun? && !AfterGivingUp(trace, |trace| - 1) then 1 else 0
  }

  predicate NextIs(trace: seq<Action>, k: nat, a: Action) { k + 1 < |trace| && trace[k + 1] == a }

  /** What the client answered at `k` is passed on at once. */
  ghost predicate PassedOn(trace: seq<Action>, k: nat)
    requires k < |trace|
  {
    trace[k].AskClient? ==>
      && (trace[k].request == "session/request_permission" ==>
            && (Selects(trace[k].reply, "approve") ==> NextIs(trace, k, Permission(PyStr(trace[k].subject), true)))
            && (Selects(trace[k].reply, "deny") ==> NextIs(trace, k, Permission(PyStr(trace[k].subject), false))))
      && (trace[k].request == "elicitation/create" ==>
            forall text: string :: Accepts(trace[k].reply, text) ==> NextIs(trace, k, AnswerUser(PyStr(trace[k].subject), text)))
  }

  ghost predicate AllPassedOn(trace: seq<Action>) {
    forall k {:trigger PassedOn(trace, k)} :: 0 <= k < |trace| ==> PassedOn(trace, k)
  }

  // Growing traces.

  lemma OwnAppend(trace: seq<Action>, a: Action)
    ensures OwnCancels(trace + [a])
         == OwnCancels(trace)
            + if a.CancelRun? && !(trace != [] && trace[|trace| - 1].AskClient? && GivesUp(trace[|trace| - 1].reply)) then 1 else 0
  {
    hide GivesUp;
    assert (trace + [a])[..|trace|] == trace;
  }

  lemma PassedAppend(trace: seq<Action>, a: Action)
    requires AllPassedOn(trace) && PassedOn([a], 0)
    ensures AllPassedOn(trace + [a])
  {
    hide Selects, Accepts;
    forall k: nat | k < |trace + [a]| ensures PassedOn(trace + [a], k) {
      if k < |trace| {
        assert PassedOn(trace, k);
        PassedLonger(trace, k, trace + [a]);
      } else {
        assert (trace + [a])[k] == [a][0];
      }
    }
  }

  lemma PassedLonger(trace: seq<Action>, k: nat, more: seq<Action>)
    requires k < |trace| && PassedOn(trace, k) && trace <= more
    ensures PassedOn(more, k)
  {
    hide Selects, Accepts;
    assert k + 1 < |trace| ==> more[k + 1] == trace[k + 1];
  }

  lemma PassedAppendTwo(trace: seq<Action>, a: Action, b: Action)
    requires AllPassedOn(trace) && PassedOn([a, b], 0) && PassedOn([b], 0)
    ensures AllPassedOn(trace + [a] + [b])
  {
    hide Selects, Accepts;
    var more := trace + [a] + [b];
    forall k: nat | k < |more| ensures PassedOn(more, k) {
      if k < |trace| {
        assert PassedOn(trace, k);
        PassedLonger(trace, k, more);
      } else if k == |trace| {
        assert more[k] == [a, b][0] && more[k + 1] == [a, b][1];
      } else {
        assert more[k] == [b][0];
      }
    }
  }

  /** A part of a prompt that sends no cancel of its own and leaves no answer behind. */
  ghost predicate Orderly(a: Prompt, b: Prompt) {
    OwnCancels(b.trace) == OwnCancels(a.trace) && (AllPassedOn(a.trace) ==> AllPassedOn(b.trace))
  }

  lemma LogOrderly(st: Prompt, a: Action)
    requires !a.CancelRun? && !a.AskClient?
    ensures Orderly(st, Log(st, a))
  {
    OwnAppend(st.trace, a);
    assert PassedOn([a], 0);
    if AllPassedOn(st.trace) { PassedAppend(st.trace, a); }
  }

  /** Asking, and then at most one action that is the answer passed on or a cancel after giving up. */
  lemma AskOrderly(st: Prompt, ask: Action, next: Option<Action>)
    requires ask.AskClient?
    requires next.Some? ==> !next.value.AskClient? && (next.value.CancelRun? ==> GivesUp(ask.reply))
    requires PassedOn(if next.Some? then [ask, next.value] else [ask], 0)
    ensures var asked := Log(st, ask); Orderly(st, if next.Some? then Log(asked, next.value) else asked)
  {
    hide GivesUp, Selects, Accepts;
    OwnAppend(st.trace, ask);
    if next.None? {
      if AllPassedOn(st.trace) { PassedAppend(st.trace, ask); }
    } else {
      var b := next.value;
      OwnAppend(st.trace + [ask], b);
      assert PassedOn([b], 0);
      if AllPassedOn(st.trace) { PassedAppendTwo(st.trace, ask, b); }
    }
  }

  lemma SameTrace(a: Prompt, b: Prompt, c: Prompt)
    requires Orderly(a, b) && c.trace == b.trace
    ensures Orderly(a, c)
  {
    hide OwnCancels, AllPassedOn;
  }

  // Interactions.

  lemma GivenUpNotPassed(ask: Action)
    requires ask.AskClient? && GivesUp(ask.reply)
    requires ask.reply.ReplyResult? ==> ask.request == "session/request_permission"
    ensures PassedOn([ask], 0) && forall run :: PassedOn([ask, CancelRun(run)], 0)
  {
    if ask.reply.ReplyResult? {
      assert ReplyObject(ask.reply) == Some(ask.reply.result);
    } else {
      assert ReplyObject(ask.reply) == None;
      assert forall option :: !Selects(ask.reply, option);
      assert forall text :: !Accepts(ask.reply, text);
    }
  }

  lemma CancelOrderly(st: Prompt, ask: Action, accepted: bool)
    requires ask.AskClient? && GivesUp(ask.reply)
    requires ask.reply.ReplyResult? ==> ask.request == "session/request_permission"
    ensures Orderly(st, CancelPrompt(Log(st, ask), accepted).0)
  {
    hide GivesUp, PassedOn;
    GivenUpNotPassed(ask);
    AskOrderly(st, ask, None);
    AskOrderly(st, ask, Some(CancelRun(st.session.runId)));
  }

  lemma ElicitOrderly(st: Prompt, id: Json, answer: Answer)
    ensures Orderly(st, Elicit(st, id, answer).0)
  {
    var ask := AskClient("elicitation/create", id, answer.reply);
    var result := ReplyObject(answer.reply);
    hide Orderly;
    if answer.reply.NoReply? {
      CancelOrderly(st, ask, answer.cancelAccepted);
    } else if result.None? {
      assert PassedOn([ask], 0);
      AskOrderly(st, ask, None);
    } else {
      var content := Or(Get(result.value, "content"), Obj(map[]));
      if Get(result.value, "action") == Str("accept") && content.Obj? && Get(content, "answer").Str? && Strip(Get(content, "answer").s) != "" {
        var told := AnswerUser(PyStr(id), Get(content, "answer").s);
        assert content == Get(result.value, "content");
        assert PassedOn([ask, told], 0);
        AskOrderly(st, ask, Some(told));
        SameTrace(st, Log(Log(st, ask), told), Elicit(st, id, answer).0);
      } else {
        assert forall text :: !Accepts(answer.reply, text);
        assert PassedOn([ask], 0);
        AskOrderly(st, ask, None);
        SameTrace(st, Log(st, ask), Elicit(st, id, answer).0);
      }
    }
  }

  lemma PermissionOrderly(st: Prompt, id: Json, answer: Answer)
    ensures Orderly(st, RequestPermission(st, id, answer).0)
  {
    var ask := AskClient("session/request_permission", id, answer.reply);
    var result := ReplyObject(answer.reply);
    hide Orderly;
    if answer.reply.NoReply? {
      CancelOrderly(st, ask, answer.cancelAccepted);
    } else if result.None? {
      assert PassedOn([ask], 0);
      AskOrderly(st, ask, None);
    } else {
      var outcome := Or(Get(result.value, "outcome"), Obj(map[]));
      if outcome.Obj? && Get(outcome, "outcome") == Str("cancelled") {
        assert outcome == Get(result.value, "outcome");
        CancelOrderly(st, ask, answer.cancelAccepted);
      } else if outcome.Obj? && Get(outcome, "outcome") == Str("selected") && IsStr(Get(outcome, "optionId"), {"approve", "deny"}) {
        var told := Permission(PyStr(id), Get(outcome, "optionId") == Str("approve"));
        assert outcome == Get(result.value, "outcome");
        assert PassedOn([ask, told], 0);
        AskOrderly(st, ask, Some(told));
        SameTrace(st, Log(Log(st, ask), told), RequestPermission(st, id, answer).0);
      } else {
        assert !Selects(answer.reply, "approve") && !Selects(answer.reply, "deny");
        assert PassedOn([ask], 0);
        AskOrderly(st, ask, None);
        SameTrace(st, Log(st, ask), RequestPermission(st, id, answer).0);
      }
    }
  }

  lemma InteractOrderly(env: Env, st: Prompt, event: Json)
    ensures Orderly(st, Interact(env, st, event).0)
  {
    hide Orderly, Elicit, RequestPermission, QuestionText, IsSpecDecision, InteractionId, EventKind, GetOr, Truthy;
    var id, answer := InteractionId(event), env.answers(st.asked);
    ElicitOrderly(st, id, answer);
    PermissionOrderly(st, id, answer);
    var waiting := Send(TextMessage(QuestionText(event) + "\n\nPlease reply to continue."), Question, st.session.runId);
    var deciding := Send(TextMessage(QuestionText(event) + "\n\nComplete this Spec stage decision in V8OS Admin."), Question, st.session.runId);
    LogOrderly(st, waiting);
    LogOrderly(st, deciding);
    NothingOrderly(st);
    var after := Interact(env, st, event).0;
    var cause := if after.trace == st.trace then st
                 else if after.trace == Log(st, waiting).trace then Log(st, waiting)
                 else if after.trace == Log(st, deciding).trace then Log(st, deciding)
                 else if after.trace == Elicit(st, id, answer).0.trace then Elicit(st, id, answer).0
                 else RequestPermission(st, id, answer).0;
    SameTrace(st, cause, after);
  }

  lemma NothingOrderly(st: Prompt)
    ensures Orderly(st, st)
  {
  }

  lemma OrderlyTrans(a: Prompt, b: Prompt, c: Prompt)
    requires Orderly(a, b) && Orderly(b, c)
    ensures Orderly(a, c)
  {
    hide OwnCancels, AllPassedOn;
  }

  lemma OnInteractionOrderly(env: Env, st: Prompt, event: Json)
    requires EventKind(event).Str?
    ensures Orderly(st, OnInteraction(env, st, event).0)
  {
    hide Orderly, Interact, EventKind, InteractionKey, StillPending;
    var kind, key := EventKind(event).s, InteractionKey(event);
    var seen := st.(seenInteractions := st.seenInteractions + {(kind, key)});
    var marked := Log(seen, Interaction(kind, key));
    NothingOrderly(st);
    LogOrderly(st, Interaction(kind, key));
    SameTrace(st, Log(st, Interaction(kind, key)), marked);
    InteractOrderly(env, marked, event);
    OrderlyTrans(st, marked, Interact(env, marked, event).0);
    SameTrace(st, if OnInteraction(env, st, event).0.trace == st.trace then st else Interact(env, marked, event).0, OnInteraction(env, st, event).0);
  }

  lemma OnDoneOrderly(env: Env, st: Prompt, event: Json)
    ensures Orderly(st, OnDone(env, st, event).0)
  {
    hide Orderly, Interact, DoneStatus;
    NothingOrderly(st);
    if env.pendings(st.asked).Some? {
      InteractOrderly(env, st, env.pendings(st.asked).value);
      var after := Interact(env, st, env.pendings(st.asked).value).0;
      SameTrace(st, if OnDone(env, st, event).0.trace == st.trace then st else after, OnDone(env, st, event).0);
    } else {
      SameTrace(st, st, OnDone(env, st, event).0);
    }
  }

  lemma OnUpdateOrderly(st: Prompt, event: Json)
    ensures Orderly(st, OnUpdate(st, event).0)
  {
    hide Orderly, RuntimeUpdate, Announced;
    NothingOrderly(st);
    var p := RuntimeUpdate(event, st.seenTools);
    if p.Emit? {
      LogOrderly(st, Send(p.update, Streamed, st.session.runId));
      SameTrace(st, Log(st, Send(p.update, Streamed, st.session.runId)), OnUpdate(st, event).0);
    }
  }

  lemma DispatchOrderly(env: Env, st: Prompt, event: Json)
    ensures Orderly(st, Dispatch(env, st, event).0)
  {
    hide Orderly, OnInteraction, OnDone, OnUpdate, EventKind;
    NothingOrderly(st);
    if EventKind(event).Str? { OnInteractionOrderly(env, st, event); }
    OnDoneOrderly(env, st, event);
    OnUpdateOrderly(st, event);
  }

  lemma OnSnapshotOrderly(st: Prompt, data: Json)
    ensures Orderly(st, OnSnapshot(st, data).0)
  {
    hide Orderly, HistoryUpdates, StoredText, StoredChunks, JoinTexts, SnapshotRun, SnapshotRunId, LastMessageId, GetOr;
    NothingOrderly(st);
    var chunks := StoredChunks(HistoryUpdates(data).updates, st.session.runId);
    var stored, live := JoinTexts(chunks), Delivered(st, st.session.runId);
    if |stored| > |live| {
      var send := Send(Chunk(Assistant, stored[|live|..], LastMessageId(chunks), Null), CatchUp, st.session.runId);
      LogOrderly(st, send);
      SameTrace(st, if OnSnapshot(st, data).0.trace == st.trace then st else Log(st, send), OnSnapshot(st, data).0);
    }
  }

  // The whole prompt.

  /** A prompt sends at most one cancel of its own, only if it was cancelled before it knew its run, and
      passes on every answer. */
  ghost predicate CancelInv(env: Env, st: Prompt) {
    && (OwnCancels(st.trace) == 0 || (OwnCancels(st.trace) == 1 && env.cancelSeen && Truthy(st.session.runId)))
    && AllPassedOn(st.trace)
  }

  lemma LearnKeepsCancels(env: Env, st: Prompt, event: Json)
    requires CancelInv(env, st)
    ensures CancelInv(env, Bound(env, st, event))
  {
    hide EventRunId;
    var a := CancelRun(Str(EventRunId(event)));
    OwnAppend(st.trace, a);
    assert PassedOn([a], 0);
    PassedAppend(st.trace, a);
  }

  lemma OrderlyKeeps(env: Env, st: Prompt, next: Prompt)
    requires CancelInv(env, st) && Orderly(st, next) && (Truthy(st.session.runId) ==> Truthy(next.session.runId))
    ensures CancelInv(env, next)
  {
    hide OwnCancels, AllPassedOn, Truthy;
  }

  lemma HandleKeepsCancels(env: Env, st: Prompt, event: Json)
    requires CancelInv(env, st)
    ensures CancelInv(env, HandleEvent(env, st, event).0)
  {
    hide CancelInv, Orderly, Dispatch, OnSnapshot, EventIdentity, EventKind, LearnRun, Truthy, OtherRun, Hashable;
    if event.Obj? {
      var bound := Bound(env, st, event);
      var accepted := bound.(seenEvents := bound.seenEvents + {SetElement(EventIdentity(event))});
      LearnKeepsCancels(env, st, event);
      OnSnapshotOrderly(bound, EventData(event));
      SnapshotKnown(bound, EventData(event));
      OrderlyKeeps(env, bound, OnSnapshot(bound, EventData(event)).0);
      DispatchOrderly(env, bound, event);
      DispatchKnown(env, bound, event);
      OrderlyKeeps(env, bound, Dispatch(env, bound, event).0);
      NothingOrderly(bound);
      SameTrace(bound, bound, accepted);
      OrderlyKeeps(env, bound, accepted);
      DispatchOrderly(env, accepted, event);
      DispatchKnown(env, accepted, event);
      OrderlyKeeps(env, accepted, Dispatch(env, accepted, event).0);
    }
  }

  lemma SnapshotKnown(st: Prompt, data: Json)
    ensures OnSnapshot(st, data).0.session == st.session
  {
    hide HistoryUpdates, StoredText, StoredChunks, JoinTexts, GetOr;
  }

  lemma {:induction false} StreamKeepsCancels(env: Env, st: Prompt, events: seq<Json>)
    requires CancelInv(env, st)
    ensures CancelInv(env, RunStream(env, st, events).0)
    decreases |events|
  {
    hide HandleEvent, CancelInv;
    if events != [] {
      HandleKeepsCancels(env, st, events[0]);
      StreamKeepsCancels(env, HandleEvent(env, st, events[0]).0, events[1..]);
    }
  }

  lemma {:induction false} StreamsKeepCancels(env: Env, st: Prompt, streams: seq<Stream>)
    requires CancelInv(env, st)
    ensures CancelInv(env, RunStreams(env, st, streams).0)
    decreases |streams|
  {
    hide RunStream;
    if streams != [] {
      StreamKeepsCancels(env, st, streams[0].events);
      var end := EndOfStream(env, st, streams[0]);
      if end.Reopen? { StreamsKeepCancels(env, end.prompt, streams[1..]); }
    }
  }

  lemma StartKeepsCancels(env: Env, session: Session, text: string)
    ensures CancelInv(env, StartPrompt(env, session, text).0)
  {
    hide Orderly, Interact, GetOr;
    var st := Fresh(session);
    NothingOrderly(st);
    assert CancelInv(env, st);
    var start := StartPrompt(env, session, text).0;
    if Truthy(session.pendingApproval) {
      var event := Obj(map["type" := Str("approval_requested"), "data" := session.pendingApproval]);
      InteractOrderly(env, st, event);
      SameTrace(st, Interact(env, st, event).0, start);
      ZeroStays(env, st, start);
    } else if Truthy(session.pendingInput) {
      LogOrderly(st, AnswerUser(PyStr(Get(session.pendingInput, "id")), text));
      SameTrace(st, Log(st, AnswerUser(PyStr(Get(session.pendingInput, "id")), text)), start);
      ZeroStays(env, st, start);
    } else {
      SameTrace(st, st, start);
      ZeroStays(env, st, start);
    }
  }

  lemma ZeroStays(env: Env, st: Prompt, next: Prompt)
    requires st.trace == [] && Orderly(st, next)
    ensures CancelInv(env, next)
  {
  }

  /** Every answer the client gives is passed on to the backend at once, and the prompt sends at most one
      cancel that no given-up request caused, and that one only if it was cancelled before its run was known. */
  lemma {:induction false} AnswersArePassedOn(env: Env, session: Session, text: string, streams: seq<Stream>)
    ensures var trace := RunPrompt(env, session, text, streams).0.trace;
      AllPassedOn(trace) && OwnCancels(trace) <= if env.cancelSeen then 1 else 0
  {
    hide AllPassedOn, OwnCancels, RunStreams, StartPrompt;
    StartKeepsCancels(env, session, text);
    StreamsKeepCancels(env, StartPrompt(env, session, text).0, streams);
  }

  // Learning the run.

  /** What a reached event does stays at the front of what the prompt does. */
  lemma EventExtends(env: Env, st: Prompt, streams: seq<Stream>, i: nat, j: nat)
    requires i < |streams| && j < |streams[i].events| && AtEvent(env, st, streams, i, j).Some?
    ensures HandleEvent(env, AtEvent(env, st, streams, i, j).value, streams[i].events[j]).0.trace <= RunStreams(env, st, streams).0.trace
  {
    hide HandleEvent;
    var x, s := AtStream(env, st, streams, i).value, AtEvent(env, st, streams, i, j).value;
    var rest := streams[i].events[j..];
    StreamFromEvent(env, st, streams, i, j);
    assert rest[0] == streams[i].events[j];
    var (after, signal) := HandleEvent(env, s, rest[0]);
    RunStreamExtends(env, after, rest[1..]);
    assert after.trace <= RunStream(env, x, streams[i].events).0.trace;
    assert streams[i..][0] == streams[i];
    var end := EndOfStream(env, x, streams[i]);
    if end.Reopen? { RunStreamsExtends(env, end.prompt, streams[i..][1..]); }
    RunStreamsFrom(env, st, streams, i);
  }

  /** An earlier cancel is honoured. When a prompt that knows no run reaches an event that names one, then,
      if it was cancelled before, the very next thing it does is to cancel that run, and it fails if the
      backend refuses; if it was not, it sends no cancel there. */
  lemma {:induction false} CancelOnLearning(env: Env, session: Session, text: string, streams: seq<Stream>, i: nat, j: nat, s: Prompt, e: Json)
    requires StartPrompt(env, session, text).1.None?
    requires AtEvent(env, StartPrompt(env, session, text).0, streams, i, j) == Some(s)
    requires j < |streams[i].events| && e == streams[i].events[j]
    requires e.Obj? && EventRunId(e) != "" && !Truthy(s.session.runId)
    ensures var (final, result) := RunPrompt(env, session, text, streams); var cancel := CancelRun(Str(EventRunId(e)));
      if env.cancelSeen then
        s.trace + [cancel] <= final.trace && (!env.cancelAccepted ==> final.trace == s.trace + [cancel] && result == Error(EventFailed))
      else s.trace <= final.trace && OwnCancels(final.trace) == 0
  {
    hide EventRunId, AtEvent, RunStreams, StartPrompt, OwnCancels;
    var st := StartPrompt(env, session, text).0;
    AnswersArePassedOn(env, session, text, streams);
    ReachedIn(env, st, streams, i, j);
    EventExtends(env, st, streams, i, j);
    HandleExtends(env, s, e);
    if env.cancelSeen { LearningCancels(env, s, e); }
    if env.cancelSeen && !env.cancelAccepted { EventEndsPrompt(env, st, streams, i, j, s, e); }
  }

  lemma ReachedIn(env: Env, st: Prompt, streams: seq<Stream>, i: nat, j: nat)
    requires AtEvent(env, st, streams, i, j).Some?
    ensures i < |streams| && j <= |streams[i].events|
  {
  }

  lemma LearningCancels(env: Env, s: Prompt, e: Json)
    requires e.Obj? && EventRunId(e) != "" && !Truthy(s.session.runId) && env.cancelSeen
    ensures var (after, signal) := HandleEvent(env, s, e); var cancel := CancelRun(Str(EventRunId(e)));
      && s.trace + [cancel] <= after.trace
      && (!env.cancelAccepted ==> after.trace == s.trace + [cancel] && signal.Raise?)
  {
    hide Dispatch, OnSnapshot, EventIdentity, EventKind, EventRunId, OtherRun;
    var bound := Bound(env, s, e);
    var accepted := bound.(seenEvents := bound.seenEvents + {SetElement(EventIdentity(e))});
    DispatchExtends(env, bound, e);
    DispatchExtends(env, accepted, e);
    SnapshotExtends(bound, EventData(e));
  }

  lemma SnapshotExtends(st: Prompt, data: Json)
    ensures st.trace <= OnSnapshot(st, data).0.trace
  {
    hide HistoryUpdates, StoredText, StoredChunks, JoinTexts, GetOr;
  }

  // The prompt thread of the race is this prompt.

  /** The prompt thread of `CancelRace` from learning the run to reading on, undisturbed. */
  function LearnAlone(s: Race.State, run: string): Race.State
    requires s.prompt.BeforeLearn?
  {
    var learned := Race.StepPrompt(Race.StepPrompt(s, run), run);
    if learned.prompt.Reading? then learned
    else Race.StepPrompt(Race.StepPrompt(Race.StepPrompt(learned, run), run), run)
  }

  /** The prompt and the prompt thread of the race do the same when the run is learned: they send the same
      cancels and end up knowing the same run. */
  lemma RaceAgrees(env: Env, st: Prompt, event: Json, s: Race.State)
    requires !Truthy(st.session.runId) && EventRunId(event) != ""
    requires s.prompt.BeforeLearn? && s.flag == env.cancelSeen
    ensures var run, after, bound := EventRunId(event), LearnAlone(s, EventRunId(event)), Bound(env, st, event);
      && after.prompt.Reading? && after.runId == Some(run) && bound.session.runId == Str(run)
      && (if env.cancelSeen then after.calls == s.calls + [run] && bound.trace == st.trace + [CancelRun(Str(run))]
          else after.calls == s.calls && bound.trace == st.trace)
  {
    hide EventRunId;
  }
}
