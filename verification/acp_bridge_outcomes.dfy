/** How prompts end, what they have delivered by then, and what replayed events change. */
module AcpBridgeOutcomes {
  import opened PyText
  import opened PyJson
  import opened AcpContent
  import opened AcpBridge
  import opened AcpBridgeProofs

  // Positions in a prompt.

  /** The prompt when it starts reading stream `i`, if it gets there. */
  function AtStream(env: Env, st: Prompt, streams: seq<Stream>, i: nat): Option<Prompt>
    decreases i
  {
    if i == 0 then Some(st)
    else if streams == [] then None
    else match EndOfStream(env, st, streams[0])
      case Reopen(after) => AtStream(env, after, streams[1..], i - 1)
      case Finished(_, _) => None
  }

  /** The prompt when it is about to handle event `j` of stream `i`, if it gets there. */
  function AtEvent(env: Env, st: Prompt, streams: seq<Stream>, i: nat, j: nat): Option<Prompt> {
    if i >= |streams| || j > |streams[i].events| || AtStream(env, st, streams, i).None? then None
    else
      var (before, signal) := RunStream(env, AtStream(env, st, streams, i).value, streams[i].events[..j]);
      if signal.Next? then Some(before) else None
  }

  lemma {:induction false} RunStreamAppend(env: Env, st: Prompt, a: seq<Json>, b: seq<Json>)
    ensures var (after, signal) := RunStream(env, st, a);
      RunStream(env, st, a + b) == if signal.Next? then RunStream(env, after, b) else (after, signal)
    decreases |a|
  {
    hide HandleEvent;
    if a == [] {
      assert a + b == b;
    } else {
      assert (a + b)[0] == a[0] && (a + b)[1..] == a[1..] + b;
      RunStreamAppend(env, HandleEvent(env, st, a[0]).0, a[1..], b);
    }
  }

  lemma {:induction false} RunStreamsFrom(env: Env, st: Prompt, streams: seq<Stream>, i: nat)
    requires i <= |streams| && AtStream(env, st, streams, i).Some?
    ensures RunStreams(env, st, streams) == RunStreams(env, AtStream(env, st, streams, i).value, streams[i..])
    decreases i
  {
    hide EndOfStream;
    if i > 0 {
      var after := EndOfStream(env, st, streams[0]).prompt;
      RunStreamsFrom(env, after, streams[1..], i - 1);
      assert streams[1..][i - 1..] == streams[i..];
    } else {
      assert streams[0..] == streams;
    }
  }

  /** Event `j` of stream `i`, once reached, continues the stream from the state it is reached in. */
  lemma StreamFromEvent(env: Env, st: Prompt, streams: seq<Stream>, i: nat, j: nat)
    requires AtEvent(env, st, streams, i, j).Some?
    ensures RunStream(env, AtStream(env, st, streams, i).value, streams[i].events)
         == RunStream(env, AtEvent(env, st, streams, i, j).value, streams[i].events[j..])
  {
    hide HandleEvent;
    var events := streams[i].events;
    assert events == events[..j] + events[j..];
    RunStreamAppend(env, AtStream(env, st, streams, i).value, events[..j], events[j..]);
  }

  /** The first event after a stream is resumed ends it when it is not passed over. */
  lemma RunStreamEnds(env: Env, st: Prompt, events: seq<Json>)
    requires events != [] && !HandleEvent(env, st, events[0]).1.Next?
    ensures RunStream(env, st, events) == HandleEvent(env, st, events[0])
  {
    hide HandleEvent;
  }

  lemma RunStreamsEnds(env: Env, st: Prompt, streams: seq<Stream>)
    requires streams != [] && EndOfStream(env, st, streams[0]).Finished?
    ensures RunStreams(env, st, streams)
         == (EndOfStream(env, st, streams[0]).prompt, EndOfStream(env, st, streams[0]).result)
  {
    hide EndOfStream;
  }

  /** An event that ends its stream and is not followed by another stream ends the prompt. */
  lemma EventEndsPrompt(env: Env, st: Prompt, streams: seq<Stream>, i: nat, j: nat, s: Prompt, e: Json)
    requires AtEvent(env, st, streams, i, j) == Some(s) && j < |streams[i].events| && e == streams[i].events[j]
    requires HandleEvent(env, s, e).1.Raise? || (HandleEvent(env, s, e).1.EndStream? && HandleEvent(env, s, e).1.terminal != "")
    ensures var (after, signal) := HandleEvent(env, s, e);
      RunStreams(env, st, streams)
        == if signal.Raise? then (after, Error(EventFailed)) else (after, CloseStream(after, signal.terminal).result)
  {
    hide HandleEvent;
    var x := AtStream(env, st, streams, i).value;
    StreamFromEvent(env, st, streams, i, j);
    assert streams[i].events[j..][0] == e;
    RunStreamEnds(env, s, streams[i].events[j..]);
    assert streams[i..][0] == streams[i];
    RunStreamsEnds(env, x, streams[i..]);
    RunStreamsFrom(env, st, streams, i);
  }

  lemma {:induction false} AtStreamKeeps(env: Env, st: Prompt, streams: seq<Stream>, i: nat, from: nat)
    requires Inv(st, from) && AtStream(env, st, streams, i).Some?
    ensures Inv(AtStream(env, st, streams, i).value, from)
    decreases i
  {
    hide EndOfStream;
    if i > 0 {
      EndOfStreamKeeps(env, st, streams[0], from);
      AtStreamKeeps(env, EndOfStream(env, st, streams[0]).prompt, streams[1..], i - 1, from);
    }
  }

  lemma AtEventKeeps(env: Env, st: Prompt, streams: seq<Stream>, i: nat, j: nat, from: nat)
    requires Inv(st, from) && AtEvent(env, st, streams, i, j).Some?
    ensures Inv(AtEvent(env, st, streams, i, j).value, from)
  {
    hide HandleEvent;
    AtStreamKeeps(env, st, streams, i, from);
    RunStreamKeeps(env, AtStream(env, st, streams, i).value, streams[i].events[..j], from);
  }

  // Live text and history.

  /** A snapshot that reports the prompt's own run as terminal, with a readable history. */
  predicate TerminalSnapshot(st: Prompt, event: Json) {
    && event.Obj? && EventKind(event) == Str("snapshot")
    && SnapshotRun(EventData(event)).Obj? && SnapshotRunId(EventData(event)) == st.session.runId
    && IsStr(Get(SnapshotRun(EventData(event)), "status"), RunTerminal())
    && !HistoryUpdates(EventData(event)).failed
  }

  /** The prompt after learning the run of the event at hand. */
  function Bound(env: Env, st: Prompt, event: Json): Prompt {
    LearnRun(env, st, event).0
  }

  /** What a prompt in state `final` with `result` owes to its history after meeting the snapshot
      `e` in state `s`. */
  ghost predicate MatchesHistory(s: Prompt, e: Json, bound: Prompt, final: Prompt, result: Result) {
    var run := bound.session.runId;
    var stored := StoredText(EventData(e), run);
    if StartsWith(stored, TextFor(s.trace, run)) then
      TextFor(final.trace, run) == stored && (result.Stopped? || result == Error(RunFailed))
    else final == bound && result == Error(EventFailed)
  }

  /** Live text equals history. When a prompt reaches a terminal snapshot `e` of its run, in state
      `s`, with a non-empty stored answer, then either what it delivered live is a prefix of the
      stored answer, and the live chunks and the catch-up suffix it has sent for that run
      concatenate exactly to the stored answer; or it is not, and the prompt fails and sends
      nothing more. Either way the prompt is over. */
  lemma {:induction false} LiveTextEqualsHistory(env: Env, session: Session, text: string, streams: seq<Stream>, i: nat, j: nat,
                              s: Prompt, e: Json)
    requires StartPrompt(env, session, text).1.None?
    requires AtEvent(env, StartPrompt(env, session, text).0, streams, i, j) == Some(s)
    requires j < |streams[i].events| && e == streams[i].events[j]
    requires LearnRun(env, s, e).1 && TerminalSnapshot(Bound(env, s, e), e)
    requires StoredText(EventData(e), Bound(env, s, e).session.runId) != ""
    ensures var (final, result) := RunPrompt(env, session, text, streams);
      MatchesHistory(s, e, Bound(env, s, e), final, result)
  {
    var st := StartPrompt(env, session, text).0;
    var from := if Truthy(session.pendingInput) && !Truthy(session.pendingApproval) then 1 else 0;
    StartKeeps(env, session, text);
    LiveTextFrom(env, st, streams, i, j, s, e, from);
    assert RunPrompt(env, session, text, streams) == RunStreams(env, st, streams);
  }

  lemma LiveTextFrom(env: Env, st: Prompt, streams: seq<Stream>, i: nat, j: nat, s: Prompt, e: Json, from: nat)
    requires Inv(st, from)
    requires AtEvent(env, st, streams, i, j) == Some(s) && j < |streams[i].events| && e == streams[i].events[j]
    requires LearnRun(env, s, e).1 && TerminalSnapshot(Bound(env, s, e), e)
    requires StoredText(EventData(e), Bound(env, s, e).session.runId) != ""
    ensures var (final, result) := RunStreams(env, st, streams); MatchesHistory(s, e, Bound(env, s, e), final, result)
  {
    hide HandleEvent, AtEvent, RunStreams, Inv, TerminalSnapshot, StoredText, TextFor;
    AtEventKeeps(env, st, streams, i, j, from);
    TerminalSnapshotHandled(env, s, e, from);
    EventEndsPrompt(env, st, streams, i, j, s, e);
    var (after, signal) := HandleEvent(env, s, e);
    if signal.EndStream? {
      assert CloseStream(after, signal.terminal).prompt == after;
    }
  }

  /** What handling a terminal snapshot with a stored answer does. */
  lemma TerminalSnapshotHandled(env: Env, s: Prompt, e: Json, from: nat)
    requires Inv(s, from) && LearnRun(env, s, e).1 && TerminalSnapshot(Bound(env, s, e), e)
    requires StoredText(EventData(e), Bound(env, s, e).session.runId) != ""
    ensures var bound := Bound(env, s, e);
      var stored := StoredText(EventData(e), bound.session.runId);
      var (after, signal) := HandleEvent(env, s, e);
      if StartsWith(stored, TextFor(s.trace, bound.session.runId)) then
        TextFor(after.trace, bound.session.runId) == stored && signal.EndStream? && signal.terminal in RunTerminal()
      else after == bound && signal.Raise?
  {
    LearnKeeps(env, s, e, from);
    QuietTrace(s.trace, Bound(env, s, e).trace);
    SnapshotText(Bound(env, s, e), e, from);
  }

  lemma SnapshotText(st: Prompt, event: Json, from: nat)
    requires Inv(st, from) && TerminalSnapshot(st, event)
    requires StoredText(EventData(event), st.session.runId) != ""
    ensures var run := st.session.runId;
      var stored := StoredText(EventData(event), run);
      var (after, signal) := OnSnapshot(st, EventData(event));
      if StartsWith(stored, TextFor(st.trace, run)) then
        TextFor(after.trace, run) == stored && signal.EndStream? && signal.terminal in RunTerminal()
      else after == st && signal.Raise?
  {
    var data, run := EventData(event), st.session.runId;
    assert Delivered(st, run) == TextFor(st.trace, run);
    if StartsWith(StoredText(data, run), Delivered(st, run)) {
      CatchUpKeeps(st, data, from);
      CatchUpDelivers(st, data);
      assert Delivered(CatchUpText(st, data), run) == TextFor(CatchUpText(st, data).trace, run);
    }
  }

  lemma CatchUpDelivers(st: Prompt, data: Json)
    requires StartsWith(StoredText(data, st.session.runId), Delivered(st, st.session.runId))
    ensures Delivered(CatchUpText(st, data), st.session.runId) == StoredText(data, st.session.runId)
  {
  }

  /** All answer text a trace delivered, for whatever run. */
  function AnswerText(trace: seq<Action>): string {
    if trace == [] then ""
    else
      var a := trace[|trace| - 1];
      AnswerText(trace[..|trace| - 1]) + (if a.Send? then ActionText(a, a.run) else "")
  }

  /** Once the run is known before the first answer chunk, the text for the run is all answer text. */
  lemma {:induction false} SingleRunText(trace: seq<Action>, run: Json)
    requires forall a <- trace :: a.Send? && ActionText(a, a.run) != "" ==> a.run == run
    ensures AnswerText(trace) == TextFor(trace, run)
  {
    if trace != [] {
      SingleRunText(trace[..|trace| - 1], run);
    }
  }

  // Earned completion.

  /** What entitles a prompt to report `status`, in the state in which it meets the event: a
      terminal snapshot of its own run, a `done` event of its own run that is not superseded by a
      resumed interaction, or the client's refusal of a permission. */
  predicate Earned(env: Env, st: Prompt, event: Json, status: string) {
    var bound, after := Bound(env, st, event), HandleEvent(env, st, event).0;
    || (TerminalSnapshot(bound, event) && Get(SnapshotRun(EventData(event)), "status") == Str(status))
    || (EventKind(event) == Str("done") && !OtherRun(bound, event) && !bound.resumed && DoneStatus(event) == status)
    || (status == "refusal" && RefusedLast(after))
  }

  /** The last thing done was to pass the client's refusal on to the backend. */
  predicate RefusedLast(st: Prompt) {
    st.trace != [] && st.trace[|st.trace| - 1].Permission? && !st.trace[|st.trace| - 1].approved
  }

  lemma ElicitNeverRefused(st: Prompt, id: Json, answer: Answer)
    ensures !Elicit(st, id, answer).1.Refused?
  {
  }

  lemma PermissionRefused(st: Prompt, id: Json, answer: Answer)
    ensures RequestPermission(st, id, answer).1.Refused? ==> RefusedLast(RequestPermission(st, id, answer).0)
  {
  }

  lemma RefusalRecorded(env: Env, st: Prompt, event: Json)
    ensures Interact(env, st, event).1.Refused? ==> RefusedLast(Interact(env, st, event).0)
  {
    hide Elicit, RequestPermission;
    ElicitNeverRefused(st, InteractionId(event), env.answers(st.asked));
    PermissionRefused(st, InteractionId(event), env.answers(st.asked));
  }

  lemma InteractionSignal(env: Env, st: Prompt, event: Json)
    requires EventKind(event).Str?
    ensures var (after, signal) := OnInteraction(env, st, event);
      signal.EndStream? ==> signal.terminal == "refusal" && RefusedLast(after)
  {
    var kind, key := EventKind(event).s, InteractionKey(event);
    RefusalRecorded(env, Log(st.(seenInteractions := st.seenInteractions + {(kind, key)}), Interaction(kind, key)), event);
  }

  lemma DoneSignal(env: Env, st: Prompt, event: Json)
    ensures var (after, signal) := OnDone(env, st, event);
      signal.EndStream? && signal.terminal != "" && signal.terminal in Confirmed() ==>
        (!st.resumed && DoneStatus(event) == signal.terminal) || (signal.terminal == "refusal" && RefusedLast(after))
  {
    hide Interact, DoneStatus;
    if env.pendings(st.asked).Some? {
      RefusalRecorded(env, st, env.pendings(st.asked).value);
    }
  }

  lemma DispatchSignal(env: Env, st: Prompt, event: Json)
    ensures var (after, signal) := Dispatch(env, st, event);
      signal.EndStream? && signal.terminal != "" && signal.terminal in Confirmed() ==>
        (EventKind(event) == Str("done") && !st.resumed && DoneStatus(event) == signal.terminal)
        || (signal.terminal == "refusal" && RefusedLast(after))
  {
    if IsStr(EventKind(event), {"approval_requested", "ask_user"}) {
      InteractionSignal(env, st, event);
    } else if EventKind(event) == Str("done") {
      DoneSignal(env, st, event);
    }
  }

  lemma EndSignalEarned(env: Env, st: Prompt, event: Json)
    ensures var signal := HandleEvent(env, st, event).1;
      signal.EndStream? && signal.terminal != "" && signal.terminal in Confirmed() ==> Earned(env, st, event, signal.terminal)
  {
    if event.Obj? && LearnRun(env, st, event).1 && EventKind(event) != Str("snapshot") {
      var bound := Bound(env, st, event);
      if Truthy(EventIdentity(event)) {
        DispatchSignal(env, bound.(seenEvents := bound.seenEvents + {SetElement(EventIdentity(event))}), event);
      } else {
        DispatchSignal(env, bound, event);
      }
    }
  }

  /** The event that ended a stream with a status. */
  lemma {:induction false} EndingEvent(env: Env, st: Prompt, events: seq<Json>) returns (j: nat)
    requires !RunStream(env, st, events).1.Next?
    ensures j < |events| && RunStream(env, st, events[..j]).1.Next?
    ensures RunStream(env, st, events) == HandleEvent(env, RunStream(env, st, events[..j]).0, events[j])
    decreases |events|
  {
    hide HandleEvent;
    var (after, signal) := HandleEvent(env, st, events[0]);
    if signal.Next? {
      var k := EndingEvent(env, after, events[1..]);
      j := k + 1;
      assert events[..j][0] == events[0] && events[..j][1..] == events[1..][..k];
    } else {
      j := 0;
    }
  }

  ghost predicate EarnedAt(env: Env, st: Prompt, streams: seq<Stream>, i: nat, j: nat, result: Result) {
    && result.Stopped? && result.status in Confirmed() && result.stopReason == StopReason(result.status)
    && i < |streams| && j < |streams[i].events| && AtEvent(env, st, streams, i, j).Some?
    && Earned(env, AtEvent(env, st, streams, i, j).value, streams[i].events[j], result.status)
  }

  lemma EarnedInFirstStream(env: Env, st: Prompt, streams: seq<Stream>) returns (j: nat)
    requires streams != [] && EndOfStream(env, st, streams[0]).Finished? && EndOfStream(env, st, streams[0]).result.Stopped?
    ensures EarnedAt(env, st, streams, 0, j, EndOfStream(env, st, streams[0]).result)
  {
    hide HandleEvent, Earned;
    j := EndingEvent(env, st, streams[0].events);
    EndSignalEarned(env, RunStream(env, st, streams[0].events[..j]).0, streams[0].events[j]);
  }

  /** No unearned completion. Over all event sequences and any number of reopened streams, a prompt
      reports a completion only with a confirmed status that some event it reached had earned. */
  lemma {:induction false} NoUnearnedCompletion(env: Env, st: Prompt, streams: seq<Stream>) returns (i: nat, j: nat)
    requires RunStreams(env, st, streams).1.Stopped?
    ensures EarnedAt(env, st, streams, i, j, RunStreams(env, st, streams).1)
    decreases |streams|
  {
    hide HandleEvent, RunStream, Earned;
    match EndOfStream(env, st, streams[0]) {
      case Finished(_, _) =>
        i := 0;
        j := EarnedInFirstStream(env, st, streams);
      case Reopen(after) =>
        i, j := NoUnearnedCompletion(env, after, streams[1..]);
        i := i + 1;
    }
  }

  // How a prompt ends.

  /** What an event's signal makes of the prompt, when it ends it. */
  function Verdict(after: Prompt, signal: Signal): Option<Result> {
    match signal
    case Next => None
    case Raise => Some(Error(EventFailed))
    case WaitForInput => Some(WaitingInput)
    case EndStream(terminal) => if terminal == "" then None else Some(CloseStream(after, terminal).result)
  }

  /** Event `j` of stream `i` is reached and ends the prompt with `result`. */
  ghost predicate Decides(env: Env, st: Prompt, streams: seq<Stream>, i: nat, j: nat, result: Result) {
    && i < |streams| && j < |streams[i].events| && AtEvent(env, st, streams, i, j).Some?
    && var (after, signal) := HandleEvent(env, AtEvent(env, st, streams, i, j).value, streams[i].events[j]);
       Verdict(after, signal) == Some(result)
  }

  /** Stream `i` is reached and ends by itself, broken off or with no interaction left to resume;
      `result` is what the prompt makes of that. */
  ghost predicate RunsOut(env: Env, st: Prompt, streams: seq<Stream>, i: nat, result: Result) {
    && i < |streams| && AtStream(env, st, streams, i).Some?
    && result == Error(if streams[i].broke then StreamBroke else OutcomeUnknown)
    && var (after, signal) := RunStream(env, AtStream(env, st, streams, i).value, streams[i].events);
       signal.Next? && (streams[i].broke || !after.resumed)
  }

  lemma DecidedResult(env: Env, st: Prompt, streams: seq<Stream>, i: nat, j: nat, result: Result)
    requires Decides(env, st, streams, i, j, result)
    ensures RunStreams(env, st, streams).1 == result
  {
    hide HandleEvent, CloseStream;
    var x, s := AtStream(env, st, streams, i).value, AtEvent(env, st, streams, i, j).value;
    StreamFromEvent(env, st, streams, i, j);
    assert streams[i].events[j..][0] == streams[i].events[j];
    RunStreamEnds(env, s, streams[i].events[j..]);
    assert streams[i..][0] == streams[i];
    CloseFinishes(env, x, streams[i]);
    RunStreamsEnds(env, x, streams[i..]);
    RunStreamsFrom(env, st, streams, i);
  }

  /** A signal with a verdict finishes the prompt with it. */
  lemma CloseFinishes(env: Env, x: Prompt, stream: Stream)
    requires var (after, signal) := RunStream(env, x, stream.events); Verdict(after, signal).Some?
    ensures var (after, signal) := RunStream(env, x, stream.events);
      EndOfStream(env, x, stream).Finished? && EndOfStream(env, x, stream).result == Verdict(after, signal).value
  {
    hide RunStream;
  }

  lemma RunsOutResult(env: Env, st: Prompt, streams: seq<Stream>, i: nat, result: Result)
    requires RunsOut(env, st, streams, i, result)
    ensures RunStreams(env, st, streams).1 == result
  {
    hide RunStream;
    assert streams[i..][0] == streams[i];
    RunStreamsEnds(env, AtStream(env, st, streams, i).value, streams[i..]);
    RunStreamsFrom(env, st, streams, i);
  }

  /** An event that ends its stream without a status leaves an interaction to resume. */
  lemma SilentSignalResumes(env: Env, st: Prompt, event: Json)
    ensures HandleEvent(env, st, event).1 == EndStream("") ==> HandleEvent(env, st, event).0.resumed
  {
    hide Interact, RuntimeUpdate, HistoryUpdates, StoredText, CatchUpText, LearnRun;
    if event.Obj? && EventKind(event) != Str("snapshot") && Hashable(EventKind(event)) {
      var bound := Bound(env, st, event);
      DispatchResumes(env, bound, event);
      DispatchResumes(env, bound.(seenEvents := bound.seenEvents + {SetElement(EventIdentity(event))}), event);
    }
  }

  lemma DispatchResumes(env: Env, st: Prompt, event: Json)
    ensures Dispatch(env, st, event).1 == EndStream("") ==> Dispatch(env, st, event).0.resumed
  {
    hide Interact, RuntimeUpdate;
  }

  /** Why one stream finished a prompt. */
  lemma FinishedCause(env: Env, st: Prompt, stream: Stream) returns (j: nat)
    requires EndOfStream(env, st, stream).Finished?
    ensures var (after, signal) := RunStream(env, st, stream.events); var result := EndOfStream(env, st, stream).result;
      || (signal.Next? && (stream.broke || !after.resumed) && result == Error(if stream.broke then StreamBroke else OutcomeUnknown))
      || (j < |stream.events| && RunStream(env, st, stream.events[..j]).1.Next?
          && var (last, end) := HandleEvent(env, RunStream(env, st, stream.events[..j]).0, stream.events[j]);
             Verdict(last, end) == Some(result))
  {
    hide HandleEvent;
    j := 0;
    var (after, signal) := RunStream(env, st, stream.events);
    if !signal.Next? {
      j := EndingEvent(env, st, stream.events);
      SilentSignalResumes(env, RunStream(env, st, stream.events[..j]).0, stream.events[j]);
    }
  }

  /** Every ending has its cause. */
  lemma {:induction false} ResultHasCause(env: Env, st: Prompt, streams: seq<Stream>) returns (i: nat, j: nat)
    requires !RunStreams(env, st, streams).1.StillOpen?
    ensures var result := RunStreams(env, st, streams).1;
      Decides(env, st, streams, i, j, result) || RunsOut(env, st, streams, i, result)
    decreases |streams|
  {
    hide HandleEvent, RunStream, Verdict;
    match EndOfStream(env, st, streams[0]) {
      case Finished(_, _) =>
        i := 0;
        j := FinishedCause(env, st, streams[0]);
      case Reopen(after) =>
        i, j := ResultHasCause(env, after, streams[1..]);
        assert AtStream(env, after, streams[1..], i) == AtStream(env, st, streams, i + 1);
        assert AtEvent(env, after, streams[1..], i, j) == AtEvent(env, st, streams, i + 1, j);
        i := i + 1;
    }
  }

  /** How a prompt ends, for all event sequences and any number of reopened streams: it ends with a
      result if and only if a reached event decided that result or a reached stream ran out to it. */
  lemma {:induction false} PromptEndsExactly(env: Env, st: Prompt, streams: seq<Stream>, result: Result)
    requires !result.StillOpen?
    ensures RunStreams(env, st, streams).1 == result <==>
      || (exists i: nat, j: nat :: Decides(env, st, streams, i, j, result))
      || (exists i: nat :: RunsOut(env, st, streams, i, result))
  {
    hide Decides, RunsOut, RunStreams;
    if RunStreams(env, st, streams).1 == result {
      var i, j := ResultHasCause(env, st, streams);
    }
    forall i: nat, j: nat | Decides(env, st, streams, i, j, result) ensures RunStreams(env, st, streams).1 == result {
      DecidedResult(env, st, streams, i, j, result);
    }
    forall i: nat | RunsOut(env, st, streams, i, result) ensures RunStreams(env, st, streams).1 == result {
      RunsOutResult(env, st, streams, i, result);
    }
  }

  /** The status with which the reached event `j` of stream `i` ends its stream; `None` when it does not. */
  function EndStatus(env: Env, st: Prompt, streams: seq<Stream>, i: nat, j: nat): Option<string> {
    if i >= |streams| || j >= |streams[i].events| || AtEvent(env, st, streams, i, j).None? then None
    else
      var signal := HandleEvent(env, AtEvent(env, st, streams, i, j).value, streams[i].events[j]).1;
      if signal.EndStream? && signal.terminal != "" then Some(signal.terminal) else None
  }

  function FailedStatuses(): set<string> {
    {"failed", "error", "interrupted", "aborted"}
  }

  /** The event's status is one that fails the prompt with `failure`. */
  predicate FailsWith(env: Env, st: Prompt, streams: seq<Stream>, i: nat, j: nat, failure: Failure) {
    && EndStatus(env, st, streams, i, j).Some?
    && var status := EndStatus(env, st, streams, i, j).value;
       (failure.RunFailed? && status in FailedStatuses())
       || (failure.NotConfirmed? && status !in FailedStatuses() + Confirmed())
  }

  /** The outcome is unknown exactly when a stream ends by itself with nothing left to resume; the run
      has failed exactly when an event ends its stream with a failed status; and completion is not
      confirmed exactly when one ends it with a status that is neither failed nor confirmed. */
  lemma {:induction false} PromptFailsExactly(env: Env, st: Prompt, streams: seq<Stream>)
    ensures var result := RunStreams(env, st, streams).1;
      && (result == Error(OutcomeUnknown) <==> exists i: nat :: RunsOut(env, st, streams, i, Error(OutcomeUnknown)))
      && (result == Error(StreamBroke) <==> exists i: nat :: RunsOut(env, st, streams, i, Error(StreamBroke)))
      && (result == Error(RunFailed) <==> exists i: nat, j: nat :: FailsWith(env, st, streams, i, j, RunFailed))
      && (result == Error(NotConfirmed) <==> exists i: nat, j: nat :: FailsWith(env, st, streams, i, j, NotConfirmed))
  {
    hide Decides, RunsOut, RunStreams, EndStatus;
    PromptEndsExactly(env, st, streams, Error(OutcomeUnknown));
    PromptEndsExactly(env, st, streams, Error(StreamBroke));
    PromptEndsExactly(env, st, streams, Error(RunFailed));
    PromptEndsExactly(env, st, streams, Error(NotConfirmed));
    forall i: nat, failure: Failure | RunsOut(env, st, streams, i, Error(failure))
      ensures failure.OutcomeUnknown? || failure.StreamBroke?
    {
      RunsOutKind(env, st, streams, i, failure);
    }
    forall i: nat, j: nat, failure: Failure | Decides(env, st, streams, i, j, Error(failure)) && !failure.EventFailed?
      ensures FailsWith(env, st, streams, i, j, failure) && (failure.RunFailed? || failure.NotConfirmed?)
    {
      DecidingStatus(env, st, streams, i, j, failure);
    }
    forall i: nat, j: nat, failure: Failure | FailsWith(env, st, streams, i, j, failure)
      ensures Decides(env, st, streams, i, j, Error(failure))
    {
      StatusDecides(env, st, streams, i, j, failure);
    }
  }

  lemma RunsOutKind(env: Env, st: Prompt, streams: seq<Stream>, i: nat, failure: Failure)
    requires RunsOut(env, st, streams, i, Error(failure))
    ensures failure.OutcomeUnknown? || failure.StreamBroke?
  {
    hide RunStream, AtStream;
  }

  lemma DecidingStatus(env: Env, st: Prompt, streams: seq<Stream>, i: nat, j: nat, failure: Failure)
    requires Decides(env, st, streams, i, j, Error(failure)) && !failure.EventFailed?
    ensures FailsWith(env, st, streams, i, j, failure) && (failure.RunFailed? || failure.NotConfirmed?)
  {
    hide HandleEvent, AtEvent;
  }

  lemma StatusDecides(env: Env, st: Prompt, streams: seq<Stream>, i: nat, j: nat, failure: Failure)
    requires FailsWith(env, st, streams, i, j, failure)
    ensures Decides(env, st, streams, i, j, Error(failure))
  {
    hide HandleEvent, AtEvent;
  }

  // Replayed events.

  /** A non-snapshot event whose identity was accepted before. */
  predicate Replayed(st: Prompt, event: Json) {
    && event.Obj? && EventKind(event) != Str("snapshot")
    && Truthy(EventIdentity(event)) && Hashable(EventIdentity(event))
    && SetElement(EventIdentity(event)) in st.seenEvents
  }

  /** Handling a replayed event does nothing at all if and only if it cannot bind the prompt to a
      run: the prompt knows its run, or the event names none. */
  lemma {:induction false} ReplayedIsIgnored(env: Env, st: Prompt, event: Json)
    requires Replayed(st, event)
    ensures HandleEvent(env, st, event) == (st, Next) <==> (Truthy(st.session.runId) || EventRunId(event) == "")
  {
    if !Truthy(st.session.runId) && EventRunId(event) != "" {
      assert Bound(env, st, event).session.runId == Str(EventRunId(event));
    }
  }

  function Erase(streams: seq<Stream>, i: nat, j: nat): seq<Stream>
    requires i < |streams| && j < |streams[i].events|
  {
    streams[i := streams[i].(events := streams[i].events[..j] + streams[i].events[j + 1..])]
  }

  /** An event that a prompt passes over, wherever it stands, can be deleted without any change. */
  lemma {:induction false} PassedOverErasure(env: Env, st: Prompt, streams: seq<Stream>, i: nat, j: nat)
    requires i < |streams| && j < |streams[i].events|
    requires AtEvent(env, st, streams, i, j).Some? ==>
      var s := AtEvent(env, st, streams, i, j).value; HandleEvent(env, s, streams[i].events[j]) == (s, Next)
    ensures RunStreams(env, st, Erase(streams, i, j)) == RunStreams(env, st, streams)
    decreases i
  {
    hide HandleEvent;
    var erased := Erase(streams, i, j);
    if i == 0 {
      var events := streams[0].events;
      var head, e, tail := events[..j], events[j], events[j + 1..];
      RunStreamAppend(env, st, head, tail);
      RunStreamAppend(env, st, head, [e] + tail);
      assert head + ([e] + tail) == events;
      assert ([e] + tail)[0] == e && ([e] + tail)[1..] == tail;
      assert RunStream(env, st, erased[0].events) == RunStream(env, st, events);
      assert erased[1..] == streams[1..];
    } else {
      assert erased[0] == streams[0] && erased[1..] == Erase(streams[1..], i - 1, j);
      match EndOfStream(env, st, streams[0]) {
        case Finished(_, _) =>
        case Reopen(after) =>
          assert AtEvent(env, after, streams[1..], i - 1, j) == AtEvent(env, st, streams, i, j);
          PassedOverErasure(env, after, streams[1..], i - 1, j);
      }
    }
  }

  /** Replay erasure. Deleting a replayed event from anywhere in the multi-stream event sequence
      changes neither the messages a prompt sends nor its result nor anything it remembers. */
  lemma {:induction false} ReplayErasure(env: Env, st: Prompt, streams: seq<Stream>, i: nat, j: nat)
    requires i < |streams| && j < |streams[i].events|
    requires AtEvent(env, st, streams, i, j).Some? ==>
      var s, e := AtEvent(env, st, streams, i, j).value, streams[i].events[j];
      Replayed(s, e) && (Truthy(s.session.runId) || EventRunId(e) == "")
    ensures RunStreams(env, st, Erase(streams, i, j)) == RunStreams(env, st, streams)
  {
    hide HandleEvent, AtEvent, RunStreams, Replayed, EventRunId;
    if AtEvent(env, st, streams, i, j).Some? {
      ReplayedIsIgnored(env, AtEvent(env, st, streams, i, j).value, streams[i].events[j]);
    }
    PassedOverErasure(env, st, streams, i, j);
  }

  /** Handling an event that names a run makes the run known, and a known run stays known. */
  lemma {:induction false} RunStaysKnown(env: Env, st: Prompt, event: Json)
    ensures var after := HandleEvent(env, st, event).0;
      (Truthy(st.session.runId) || (event.Obj? && EventRunId(event) != "") ==> Truthy(after.session.runId))
  {
    hide Dispatch, EventIdentity, EventKind, HistoryUpdates, StoredText, EventData, OtherRun, Hashable;
    if event.Obj? {
      var bound, ok := Bound(env, st, event), LearnRun(env, st, event).1;
      if ok && EventKind(event) != Str("snapshot") {
        var accepted := bound.(seenEvents := bound.seenEvents + {SetElement(EventIdentity(event))});
        DispatchKnown(env, bound, event);
        DispatchKnown(env, accepted, event);
      }
    }
  }

  lemma ElicitKnown(st: Prompt, id: Json, answer: Answer)
    ensures Truthy(st.session.runId) ==> Truthy(Elicit(st, id, answer).0.session.runId)
  {
  }

  lemma PermissionKnown(st: Prompt, id: Json, answer: Answer)
    ensures Truthy(st.session.runId) ==> Truthy(RequestPermission(st, id, answer).0.session.runId)
  {
  }

  lemma AskUserKnown(env: Env, st: Prompt, event: Json, answer: Answer)
    ensures Truthy(st.session.runId) ==> Truthy(AskUser(env, st, event, answer).0.session.runId)
  {
    hide Elicit, QuestionText, InteractionId, GetOr, Truthy;
    ElicitKnown(st, InteractionId(event), answer);
  }

  lemma InteractKnown(env: Env, st: Prompt, event: Json)
    ensures Truthy(st.session.runId) ==> Truthy(Interact(env, st, event).0.session.runId)
  {
    hide AskUser, RequestPermission, QuestionText, IsSpecDecision, InteractionId, GetOr, EventKind, Truthy;
    AskUserKnown(env, st, event, env.answers(st.asked));
    PermissionKnown(st, InteractionId(event), env.answers(st.asked));
  }

  lemma DispatchKnown(env: Env, st: Prompt, event: Json)
    ensures Truthy(st.session.runId) ==> Truthy(Dispatch(env, st, event).0.session.runId)
  {
    hide Interact, RuntimeUpdate, EventKind, EventData, GetOr, PyStr, InteractionKey, StillPending, DoneStatus;
    if IsStr(EventKind(event), {"approval_requested", "ask_user"}) {
      var kind, key := EventKind(event).s, InteractionKey(event);
      InteractKnown(env, Log(st.(seenInteractions := st.seenInteractions + {(kind, key)}), Interaction(kind, key)), event);
    } else if env.pendings(st.asked).Some? {
      InteractKnown(env, st, env.pendings(st.asked).value);
    }
  }

  // When replays can be erased.

  /** Whether the prompt with and without the event sends the same and ends alike, whatever follows. */
  ghost predicate SameWithout(env: Env, st: Prompt, event: Json, rest: seq<Json>) {
    var (a, resultA) := RunStreams(env, st, [Stream([event] + rest, false)]);
    var (b, resultB) := RunStreams(env, st, [Stream(rest, false)]);
    a.trace == b.trace && resultA == resultB
  }

  /** A snapshot that reports the run as completed, with an empty history. */
  function CompletedSnapshot(run: string): Json {
    Obj(map["type" := Str("snapshot"),
            "data" := Obj(map["currentRun" := Obj(map["id" := Str(run), "status" := Str("completed")])])])
  }

  lemma CompletedSnapshotHandled(env: Env, st: Prompt, run: string)
    requires run != ""
    ensures var (after, signal) := HandleEvent(env, st, CompletedSnapshot(run));
      if st.session.runId == Str(run) then after == st && signal == EndStream("completed") else after == st && signal == Next
  {
    var event := CompletedSnapshot(run);
    var data := EventData(event);
    assert EventRunId(event) == "" && EventKind(event) == Str("snapshot");
    assert data == Obj(map["currentRun" := Obj(map["id" := Str(run), "status" := Str("completed")])]);
    assert SnapshotRunId(data) == Str(run);
    assert HistoryUpdates(data) == Replay([], {}, false);
    assert StoredText(data, Str(run)) == "";
    assert CatchUpText(st, data) == st || st.session.runId != Str(run);
    hide CatchUpText, HistoryUpdates, StoredText, EventData, EventRunId, EventKind;
  }

  /** A replayed event can be erased in front of every continuation if and only if it cannot bind the
      prompt to a run; when it can, a snapshot of that run tells the two prompts apart. */
  lemma {:induction false} ReplayErasureExactly(env: Env, st: Prompt, event: Json)
    requires Replayed(st, event)
    ensures (forall rest :: SameWithout(env, st, event, rest)) <==> (Truthy(st.session.runId) || EventRunId(event) == "")
  {
    if Truthy(st.session.runId) || EventRunId(event) == "" {
      forall rest ensures SameWithout(env, st, event, rest) {
        var with := [Stream([event] + rest, false)];
        assert AtEvent(env, st, with, 0, 0) == Some(st) by { assert with[0].events[..0] == []; }
        assert Erase(with, 0, 0) == [Stream(rest, false)] by { assert with[0].events[..0] + with[0].events[1..] == rest; }
        ReplayErasure(env, st, with, 0, 0);
      }
    } else {
      BindingTellsApart(env, st, event);
    }
  }

  lemma BindingTellsApart(env: Env, st: Prompt, event: Json)
    requires Replayed(st, event) && !Truthy(st.session.runId) && EventRunId(event) != ""
    ensures !SameWithout(env, st, event, [CompletedSnapshot(EventRunId(event))])
  {
    hide CompletedSnapshot, HandleEvent, LearnRun, Replayed, EventRunId;
    var run := EventRunId(event);
    var rest := [CompletedSnapshot(run)];
    var bound, ok := Bound(env, st, event), LearnRun(env, st, event).1;
    ReplayBinds(env, st, event);
    CompletedSnapshotHandled(env, st, run);
    CompletedSnapshotHandled(env, bound, run);
    assert rest[1..] == [] && ([event] + rest)[1..] == rest;
    assert RunStream(env, st, rest) == (st, Next);
    assert RunStream(env, bound, rest) == (bound, EndStream("completed"));
    assert RunStream(env, st, [event] + rest) == if ok then (bound, EndStream("completed")) else (bound, Raise);
    hide RunStream;
    var with, without := [Stream([event] + rest, false)], [Stream(rest, false)];
    assert without[1..] == [];
    assert RunStreams(env, st, with).1 == if ok then Stopped("end_turn", Str(run), "completed") else Error(EventFailed);
    assert RunStreams(env, st, without).1 == if st.resumed then StillOpen else Error(OutcomeUnknown);
  }

  /** Handling a replayed event that names the first run binds the prompt to it and passes on. */
  lemma ReplayBinds(env: Env, st: Prompt, event: Json)
    requires Replayed(st, event) && !Truthy(st.session.runId) && EventRunId(event) != ""
    ensures var (bound, ok) := LearnRun(env, st, event);
      HandleEvent(env, st, event) == (bound, if ok then Next else Raise) && bound.session.runId == Str(EventRunId(event))
  {
    hide EventIdentity, EventKind, EventRunId, Dispatch, OnSnapshot;
  }

  function NumberedEvent(): Json { Obj(map["seq" := Num(1)]) }

  function NumberedRunEvent(): Json { Obj(map["seq" := Num(1), "runId" := Str("r")]) }

  function DoneEvent(): Json { Obj(map["type" := Str("done"), "status" := Str("completed")]) }

  lemma NumberedFacts()
    ensures var e := NumberedEvent(); e.Obj? && EventKind(e) == Null && EventRunId(e) == "" && EventIdentity(e) == Num(1)
    ensures RuntimeUpdate(NumberedEvent(), {}) == Nothing
  {
    hide RuntimeUpdate;
    assert EventData(NumberedEvent()) == Obj(map[]);
    NothingForNull(NumberedEvent(), {});
  }

  lemma NothingForNull(event: Json, seen: set<string>)
    requires EventKind(event) == Null
    ensures RuntimeUpdate(event, seen) == Nothing
  {
    hide EventKind, EventData, EventRunId, GetOr, PyStr;
  }

  lemma NumberedRunFacts()
    ensures var e := NumberedRunEvent(); e.Obj? && EventKind(e) == Null && EventRunId(e) == "r" && EventIdentity(e) == Num(1)
  {
    assert EventData(NumberedRunEvent()) == Obj(map[]);
  }

  lemma DoneFacts()
    ensures var e := DoneEvent(); e.Obj? && EventKind(e) == Str("done") && EventRunId(e) == "" && EventIdentity(e) == Null
    ensures DoneStatus(DoneEvent()) == "completed"
  {
    assert EventData(DoneEvent()) == Obj(map[]);
  }

  lemma NumberedHandled(env: Env, st: Prompt)
    requires st == Fresh(Session(Null, Null, Null))
    ensures HandleEvent(env, st, NumberedEvent()) == (st.(seenEvents := {Num(1)}), Next)
  {
    hide EventData, EventKind, EventRunId, EventIdentity, RuntimeUpdate, GetOr, NumberedEvent, NumberedRunEvent, DoneEvent, DoneStatus;
    NumberedFacts();
    assert st.seenEvents + {Num(1)} == {Num(1)};
  }

  lemma NumberedRunHandled(env: Env, st: Prompt)
    requires !env.cancelSeen && st.session.runId == Null && Num(1) in st.seenEvents
    ensures Replayed(st, NumberedRunEvent())
    ensures HandleEvent(env, st, NumberedRunEvent()) == (st.(session := st.session.(runId := Str("r"))), Next)
  {
    hide EventData, EventKind, EventRunId, EventIdentity, RuntimeUpdate, GetOr, NumberedEvent, NumberedRunEvent, DoneEvent, DoneStatus;
    NumberedRunFacts();
  }

  lemma DoneHandled(env: Env, st: Prompt)
    requires !st.resumed
    ensures HandleEvent(env, st, DoneEvent()) == (st, EndStream("completed"))
  {
    hide EventData, EventKind, EventRunId, EventIdentity, RuntimeUpdate, GetOr, NumberedEvent, NumberedRunEvent, DoneEvent, DoneStatus;
    DoneFacts();
  }

  /** A concrete prompt to which an accepted event is replayed with a run id it did not have before:
      erasing the replayed event changes what the prompt reports. */
  lemma {:induction false} ErasedReplayChangesResult(env: Env)
    requires !env.cancelSeen
    ensures var st := Fresh(Session(Null, Null, Null));
      var streams := [Stream([NumberedEvent(), NumberedRunEvent(), DoneEvent()], false)];
      && AtEvent(env, st, streams, 0, 1).Some? && Replayed(AtEvent(env, st, streams, 0, 1).value, NumberedRunEvent())
      && RunStreams(env, st, streams).1 == Stopped("end_turn", Str("r"), "completed")
      && RunStreams(env, st, Erase(streams, 0, 1)).1 == Stopped("end_turn", Null, "completed")
  {
    hide HandleEvent, Replayed, NumberedEvent, NumberedRunEvent, DoneEvent;
    var st := Fresh(Session(Null, Null, Null));
    var first, second, done := NumberedEvent(), NumberedRunEvent(), DoneEvent();
    var streams := [Stream([first, second, done], false)];
    var seen := st.(seenEvents := {Num(1)});
    var bound := seen.(session := seen.session.(runId := Str("r")));
    NumberedHandled(env, st);
    NumberedRunHandled(env, seen);
    DoneHandled(env, bound);
    DoneHandled(env, seen);
    assert RunStream(env, bound, [done]) == (bound, EndStream("completed")) && RunStream(env, seen, [done]) == (seen, EndStream("completed"));
    assert [second, done][1..] == [done];
    assert RunStream(env, seen, [second, done]) == (bound, EndStream("completed"));
    assert [first, second, done][1..] == [second, done] && [first, done][1..] == [done];
    assert RunStream(env, st, streams[0].events) == (bound, EndStream("completed"));
    assert streams[0].events[..1] == [first] && [first][1..] == [];
    assert RunStream(env, st, [first]) == (seen, Next);
    assert Erase(streams, 0, 1)[0].events == [first, done];
    assert RunStream(env, st, [first, done]) == (seen, EndStream("completed"));
  }

  // Copies of an event that was accepted earlier.

  /** Nothing the prompt has learned is forgotten: accepted identities, and that it has a run. */
  predicate Keeps(a: Prompt, b: Prompt) {
    a.seenEvents <= b.seenEvents && (Truthy(a.session.runId) ==> Truthy(b.session.runId))
  }

  lemma HandleKeepsKnown(env: Env, st: Prompt, event: Json)
    ensures Keeps(st, HandleEvent(env, st, event).0)
  {
    hide Dispatch, OnSnapshot, EventIdentity, EventKind, EventRunId;
    RunStaysKnown(env, st, event);
    if event.Obj? && LearnRun(env, st, event).1 {
      var bound := Bound(env, st, event);
      DispatchSeen(env, bound, event);
      DispatchSeen(env, bound.(seenEvents := bound.seenEvents + {SetElement(EventIdentity(event))}), event);
      SnapshotSeen(bound, EventData(event));
    }
  }

  lemma SnapshotSeen(st: Prompt, data: Json)
    ensures OnSnapshot(st, data).0.seenEvents == st.seenEvents
  {
  }

  lemma {:induction false} RunStreamKeepsKnown(env: Env, st: Prompt, events: seq<Json>)
    ensures Keeps(st, RunStream(env, st, events).0)
    decreases |events|
  {
    hide HandleEvent;
    if events != [] {
      HandleKeepsKnown(env, st, events[0]);
      RunStreamKeepsKnown(env, HandleEvent(env, st, events[0]).0, events[1..]);
    }
  }

  lemma {:induction false} AtStreamKeepsKnown(env: Env, st: Prompt, streams: seq<Stream>, i: nat, k: nat)
    requires i <= k <= |streams| && AtStream(env, st, streams, k).Some?
    ensures AtStream(env, st, streams, i).Some? && Keeps(AtStream(env, st, streams, i).value, AtStream(env, st, streams, k).value)
    decreases k
  {
    hide HandleEvent, RunStream;
    if i < k {
      AtStreamStep(env, st, streams, k);
      AtStreamKeepsKnown(env, st, streams, i, k - 1);
      RunStreamKeepsKnown(env, AtStream(env, st, streams, k - 1).value, streams[k - 1].events);
    }
  }

  /** Position `(i, j)` comes before `(k, l)`. */
  predicate Before(i: nat, j: nat, k: nat, l: nat) { i < k || (i == k && j < l) }

  /** What was learned by handling an earlier event is still known at a later one. */
  lemma LaterKeepsKnown(env: Env, st: Prompt, streams: seq<Stream>, i: nat, j: nat, k: nat, l: nat)
    requires i < |streams| && j < |streams[i].events| && Before(i, j, k, l)
    requires AtEvent(env, st, streams, i, j).Some? && AtEvent(env, st, streams, k, l).Some?
    ensures Keeps(HandleEvent(env, AtEvent(env, st, streams, i, j).value, streams[i].events[j]).0, AtEvent(env, st, streams, k, l).value)
  {
    hide HandleEvent, Keeps;
    var s, events := AtEvent(env, st, streams, i, j).value, streams[i].events;
    var x := AtStream(env, st, streams, i).value;
    if i == k {
      RestKeepsKnown(env, x, events[..j], s, events[j], events[j + 1..l]);
      assert events[..l] == events[..j] + ([events[j]] + events[j + 1..l]);
    } else {
      RestKeepsKnown(env, x, events[..j], s, events[j], events[j + 1..]);
      assert events == events[..j] + ([events[j]] + events[j + 1..]);
      AtStreamKeepsKnown(env, st, streams, i + 1, k);
      AtStreamStep(env, st, streams, i + 1);
      RunStreamKeepsKnown(env, AtStream(env, st, streams, k).value, streams[k].events[..l]);
      EndKeeps(env, x, streams[i]);
      KeepsTrans(HandleEvent(env, s, events[j]).0, RunStream(env, x, events).0, AtStream(env, st, streams, i + 1).value);
      KeepsTrans(HandleEvent(env, s, events[j]).0, AtStream(env, st, streams, i + 1).value, AtStream(env, st, streams, k).value);
      KeepsTrans(HandleEvent(env, s, events[j]).0, AtStream(env, st, streams, k).value, AtEvent(env, st, streams, k, l).value);
    }
  }

  lemma KeepsTrans(a: Prompt, b: Prompt, c: Prompt)
    requires Keeps(a, b) && Keeps(b, c)
    ensures Keeps(a, c)
  {
  }

  lemma EndKeeps(env: Env, st: Prompt, stream: Stream)
    ensures Keeps(RunStream(env, st, stream.events).0, EndOfStream(env, st, stream).prompt)
  {
    hide RunStream;
  }

  /** After `head`, an event and a tail, the prompt still knows what it knew after the event. */
  lemma RestKeepsKnown(env: Env, x: Prompt, head: seq<Json>, s: Prompt, event: Json, tail: seq<Json>)
    requires RunStream(env, x, head) == (s, Next)
    ensures Keeps(HandleEvent(env, s, event).0, RunStream(env, x, head + ([event] + tail)).0)
  {
    hide HandleEvent;
    RunStreamAppend(env, x, head, [event] + tail);
    assert ([event] + tail)[0] == event && ([event] + tail)[1..] == tail;
    RunStreamKeepsKnown(env, HandleEvent(env, s, event).0, tail);
  }

  /** The event gets past run filtering with an identity, so its identity is accepted if it was not before. */
  predicate AcceptsEvent(env: Env, st: Prompt, event: Json) {
    && event.Obj? && EventKind(event) != Str("snapshot") && LearnRun(env, st, event).1 && !OtherRun(Bound(env, st, event), event)
    && Truthy(EventIdentity(event)) && Hashable(EventIdentity(event))
  }

  lemma AcceptedAndBound(env: Env, st: Prompt, event: Json)
    requires AcceptsEvent(env, st, event)
    ensures var after := HandleEvent(env, st, event).0;
      SetElement(EventIdentity(event)) in after.seenEvents && (Truthy(after.session.runId) || EventRunId(event) == "")
  {
    hide Dispatch, EventIdentity, EventKind, EventRunId;
    RunStaysKnown(env, st, event);
    var bound := Bound(env, st, event);
    DispatchSeen(env, bound.(seenEvents := bound.seenEvents + {SetElement(EventIdentity(event))}), event);
  }

  /** Erasing copies. When a prompt has accepted an event, every later copy of it, in the same or in a
      reopened stream, can be deleted without changing what the prompt sends, its result, or anything
      it remembers. */
  lemma {:induction false} CopyErasure(env: Env, st: Prompt, streams: seq<Stream>, i: nat, j: nat, k: nat, l: nat)
    requires i < |streams| && j < |streams[i].events| && k < |streams| && l < |streams[k].events| && Before(i, j, k, l)
    requires streams[k].events[l] == streams[i].events[j]
    requires AtEvent(env, st, streams, i, j).Some? && AcceptsEvent(env, AtEvent(env, st, streams, i, j).value, streams[i].events[j])
    ensures RunStreams(env, st, Erase(streams, k, l)) == RunStreams(env, st, streams)
  {
    hide HandleEvent, EventIdentity, EventKind, EventRunId, AtEvent, RunStreams;
    if AtEvent(env, st, streams, k, l).Some? {
      AcceptedAndBound(env, AtEvent(env, st, streams, i, j).value, streams[i].events[j]);
      LaterKeepsKnown(env, st, streams, i, j, k, l);
    }
    ReplayErasure(env, st, streams, k, l);
  }

  // Identities accepted so far.

  /** The identities of the events that de-duplication looks at. */
  function Identities(events: seq<Json>): set<Json> {
    set e <- events | e.Obj? && EventKind(e) != Str("snapshot") && Truthy(EventIdentity(e)) :: SetElement(EventIdentity(e))
  }

  lemma DispatchSeen(env: Env, st: Prompt, event: Json)
    ensures Dispatch(env, st, event).0.seenEvents == st.seenEvents
  {
    hide Interact, RuntimeUpdate, EventKind, EventData, GetOr, PyStr, InteractionKey, StillPending, DoneStatus;
    if IsStr(EventKind(event), {"approval_requested", "ask_user"}) {
      var kind, key := EventKind(event).s, InteractionKey(event);
      InteractQuiet(env, Log(st.(seenInteractions := st.seenInteractions + {(kind, key)}), Interaction(kind, key)), event);
    } else if env.pendings(st.asked).Some? {
      InteractQuiet(env, st, env.pendings(st.asked).value);
    }
  }

  lemma HandleSeen(env: Env, st: Prompt, event: Json)
    ensures HandleEvent(env, st, event).0.seenEvents <= st.seenEvents + Identities([event])
  {
    hide Dispatch, EventIdentity, EventKind, EventRunId, HistoryUpdates, StoredText, EventData;
    if event.Obj? && LearnRun(env, st, event).1 && EventKind(event) != Str("snapshot") {
      assert event in [event];
      var bound := Bound(env, st, event);
      DispatchSeen(env, bound, event);
      DispatchSeen(env, bound.(seenEvents := bound.seenEvents + {SetElement(EventIdentity(event))}), event);
    }
  }

  lemma {:induction false} RunStreamSeen(env: Env, st: Prompt, events: seq<Json>)
    ensures RunStream(env, st, events).0.seenEvents <= st.seenEvents + Identities(events)
    decreases |events|
  {
    hide HandleEvent;
    if events != [] {
      HandleSeen(env, st, events[0]);
      RunStreamSeen(env, HandleEvent(env, st, events[0]).0, events[1..]);
    }
  }

  /** All events of the streams before stream `i`. */
  function EventsBefore(streams: seq<Stream>, i: nat): seq<Json>
    requires i <= |streams|
  {
    if i == 0 then [] else EventsBefore(streams, i - 1) + streams[i - 1].events
  }

  lemma {:induction false} AtStreamSeen(env: Env, st: Prompt, streams: seq<Stream>, i: nat)
    requires i <= |streams| && AtStream(env, st, streams, i).Some?
    ensures AtStream(env, st, streams, i).value.seenEvents <= st.seenEvents + Identities(EventsBefore(streams, i))
    decreases i
  {
    hide HandleEvent;
    if i > 0 {
      AtStreamStep(env, st, streams, i);
      AtStreamSeen(env, st, streams, i - 1);
      RunStreamSeen(env, AtStream(env, st, streams, i - 1).value, streams[i - 1].events);
    }
  }

  /** Stream `i` starts in the state stream `i - 1` left when it was closed. */
  lemma {:induction false} AtStreamStep(env: Env, st: Prompt, streams: seq<Stream>, i: nat)
    requires 0 < i <= |streams| && AtStream(env, st, streams, i).Some?
    ensures AtStream(env, st, streams, i - 1).Some?
    ensures AtStream(env, st, streams, i).value == EndOfStream(env, AtStream(env, st, streams, i - 1).value, streams[i - 1]).prompt
    decreases i
  {
    hide EndOfStream;
    if i > 1 {
      AtStreamStep(env, EndOfStream(env, st, streams[0]).prompt, streams[1..], i - 1);
    }
  }

  /** An identity a prompt has accepted when it reaches an event was accepted before the streams
      began or is carried by an earlier event of the streams. */
  lemma {:induction false} AcceptedIdentities(env: Env, st: Prompt, streams: seq<Stream>, i: nat, j: nat)
    requires AtEvent(env, st, streams, i, j).Some?
    ensures AtEvent(env, st, streams, i, j).value.seenEvents
         <= st.seenEvents + Identities(EventsBefore(streams, i) + streams[i].events[..j])
  {
    hide HandleEvent, EndOfStream;
    AtStreamSeen(env, st, streams, i);
    RunStreamSeen(env, AtStream(env, st, streams, i).value, streams[i].events[..j]);
  }
}
