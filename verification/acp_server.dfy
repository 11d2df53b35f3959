/** Correlation of client replies with the requests that wait for them. */
module ReplyRouting {
  import opened PyText
  import opened PyJson

  /** What a waiting request shares with the reader thread: an event and a response dictionary. */
  datatype Slot = Slot(ready: bool, response: map<string, Json>)

  /** A message of the client that answers a request of the bridge: no method, an id, and a result
      or an error. */
  predicate IsReply(payload: map<string, Json>) {
    var j := Obj(payload);
    Get(j, "jsonrpc") == Str("2.0") && Get(j, "method") == Null && Get(j, "id") != Null
    && ("result" in payload || "error" in payload)
  }

  function ReplyId(payload: map<string, Json>): string {
    PyStr(Get(Obj(payload), "id"))
  }

  /** Routing merges the reply into the slot of its id and wakes the waiter; a reply nobody waits
      for is dropped. */
  function Route(pending: map<string, Slot>, payload: map<string, Json>): map<string, Slot> {
    var id := ReplyId(payload);
    if !IsReply(payload) || id !in pending then pending
    else pending[id := Slot(true, pending[id].response + payload)]
  }

  /** A request thread: waiting on its event, awake with the event set, holding the response it
      read, or gone after it removed its entry. */
  datatype Request = Waiting | Awake | Answered(response: map<string, Json>) | GaveUp | Gone

  /** `routed` are all messages received so far. */
  datatype State = State(pending: map<string, Slot>, requests: map<string, Request>, routed: seq<map<string, Json>>)

  datatype Step =
    | Ask(id: string)
    | Receive(payload: map<string, Json>)
    | Wake(id: string)
    | Read(id: string)
    | Cancel(id: string)
    | Leave(id: string)

  /** Request ids are fresh; a thread wakes only when its event is set. */
  predicate Enabled(s: State, step: Step) {
    match step
    case Ask(id) => id !in s.requests
    case Receive(_) => true
    case Wake(id) => id in s.requests && s.requests[id].Waiting? && id in s.pending && s.pending[id].ready
    case Read(id) => id in s.requests && s.requests[id].Awake? && id in s.pending
    case Cancel(id) => id in s.requests && s.requests[id].Waiting?
    case Leave(id) => id in s.requests && (s.requests[id].Answered? || s.requests[id].GaveUp?)
  }

  function Apply(s: State, step: Step): State {
    match step
    case Ask(id) => s.(pending := s.pending[id := Slot(false, map[])], requests := s.requests[id := Waiting])
    case Receive(p) => s.(pending := Route(s.pending, p), routed := s.routed + [p])
    case Wake(id) => s.(requests := s.requests[id := Awake])
    case Read(id) => if id in s.pending then s.(requests := s.requests[id := Answered(s.pending[id].response)]) else s
    case Cancel(id) => s.(requests := s.requests[id := GaveUp])
    case Leave(id) => s.(pending := s.pending - {id}, requests := s.requests[id := Gone])
  }

  function After(steps: seq<Step>): State {
    if steps == [] then State(map[], map[], []) else Apply(After(steps[..|steps| - 1]), steps[|steps| - 1])
  }

  /** The `_pending` table; each method is one section under its lock, and does to the table what the
      step of the whole system does to it. `s` is the system at that moment. */
  class PendingReplies {
    var pending: map<string, Slot>

    constructor ()
      ensures pending == After([]).pending
    {
      pending := map[];
    }

    method Register(ghost s: State, id: string)
      requires s.pending == pending
      modifies this
      ensures pending == Apply(s, Ask(id)).pending
    {
      pending := pending[id := Slot(false, map[])];
    }

    method HandleReply(ghost s: State, payload: map<string, Json>)
      requires s.pending == pending
      modifies this
      ensures pending == Apply(s, Receive(payload)).pending
    {
      var j := Obj(payload);
      if Get(j, "jsonrpc") != Str("2.0") || Get(j, "method") != Null || Get(j, "id") == Null { return; }
      if "result" !in payload && "error" !in payload { return; }
      var id := PyStr(Get(j, "id"));
      if id in pending {
        var slot := pending[id];
        pending := pending[id := Slot(true, slot.response + payload)];
      }
    }

    method Unregister(ghost s: State, id: string)
      requires s.pending == pending
      modifies this
      ensures pending == Apply(s, Leave(id)).pending
    {
      pending := pending - {id};
    }
  }

  ghost predicate Legal(steps: seq<Step>) {
    steps != [] ==> Legal(steps[..|steps| - 1]) && Enabled(After(steps[..|steps| - 1]), steps[|steps| - 1])
  }

  /** Every field of a response was sent in a reply addressed to this very request. */
  ghost predicate FromReplies(response: map<string, Json>, id: string, routed: seq<map<string, Json>>) {
    forall key <- response :: exists p <- routed :: IsReply(p) && ReplyId(p) == id && key in p && p[key] == response[key]
  }

  /** The entry and the request of one id. */
  ghost predicate IdCorrelated(s: State, id: string) {
    && (id in s.pending <==> id in s.requests && !s.requests[id].Gone?)
    && (id in s.pending ==>
          FromReplies(s.pending[id].response, id, s.routed) && (s.pending[id].ready ==> "id" in s.pending[id].response))
    && (id in s.requests && s.requests[id].Awake? ==> s.pending[id].ready)
    && (id in s.requests && s.requests[id].Answered? ==>
          FromReplies(s.requests[id].response, id, s.routed) && "id" in s.requests[id].response)
  }

  ghost predicate Correlated(s: State) {
    forall id :: IdCorrelated(s, id)
  }

  lemma RepliesGrow(response: map<string, Json>, id: string, routed: seq<map<string, Json>>, p: map<string, Json>)
    requires FromReplies(response, id, routed)
    ensures FromReplies(response, id, routed + [p])
    ensures IsReply(p) && ReplyId(p) == id ==> FromReplies(response + p, id, routed + [p])
  {
    forall key | key in response
      ensures exists q <- routed + [p] :: IsReply(q) && ReplyId(q) == id && key in q && q[key] == response[key]
    {
      var q :| q in routed && IsReply(q) && ReplyId(q) == id && key in q && q[key] == response[key];
      assert q in routed + [p];
    }
    assert p in routed + [p];
  }

  lemma ReceiveCorrelated(s: State, payload: map<string, Json>, id: string)
    requires IdCorrelated(s, id)
    ensures IdCorrelated(Apply(s, Receive(payload)), id)
  {
    hide FromReplies;
    if id in s.pending { RepliesGrow(s.pending[id].response, id, s.routed, payload); }
    if id in s.requests && s.requests[id].Answered? { RepliesGrow(s.requests[id].response, id, s.routed, payload); }
  }

  lemma StepCorrelated(s: State, step: Step)
    requires Correlated(s) && Enabled(s, step)
    ensures Correlated(Apply(s, step))
  {
    hide FromReplies, Route;
    forall id ensures IdCorrelated(Apply(s, step), id) {
      assert IdCorrelated(s, id);
      if step.Receive? {
        ReceiveCorrelated(s, step.payload, id);
      } else if step.Ask? {
        EmptyResponse(id, s.routed);
      }
    }
  }

  lemma EmptyResponse(id: string, routed: seq<map<string, Json>>)
    ensures FromReplies(map[], id, routed)
  {
  }

  /** In every interleaving of requests, replies, cancellations and reads: an id is registered
      exactly while its request waits, and the response a request reads is non-empty and made of
      replies addressed to its own id. */
  lemma {:induction false} RepliesReachTheirRequest(steps: seq<Step>)
    requires Legal(steps)
    ensures Correlated(After(steps))
  {
    if steps != [] {
      RepliesReachTheirRequest(steps[..|steps| - 1]);
      StepCorrelated(After(steps[..|steps| - 1]), steps[|steps| - 1]);
    }
  }

  /** A JSON-RPC answer: version 2.0, an id, no method, and a result or an error. */
  predicate Answers(payload: map<string, Json>, id: string) {
    && "jsonrpc" in payload && payload["jsonrpc"] == Str("2.0")
    && ("method" in payload ==> payload["method"] == Null)
    && "id" in payload && payload["id"] != Null && PyStr(payload["id"]) == id
    && ("result" in payload || "error" in payload)
  }

  /** A message wakes exactly the request it answers, and adds its fields to that request's response;
      every other entry, and every message that answers nothing, is left alone. */
  lemma {:induction false} ReceiveExactly(s: State, payload: map<string, Json>, id: string)
    ensures var s' := Apply(s, Receive(payload));
      && s'.requests == s.requests && s'.pending.Keys == s.pending.Keys
      && (id in s.pending ==>
            if Answers(payload, id) then
              && s'.pending[id].ready && s'.pending[id].response.Keys == s.pending[id].response.Keys + payload.Keys
              && (forall key <- payload :: s'.pending[id].response[key] == payload[key])
              && (forall key <- s.pending[id].response :: key !in payload ==> s'.pending[id].response[key] == s.pending[id].response[key])
            else s'.pending[id] == s.pending[id])
  {
  }

  lemma AfterSnoc(steps: seq<Step>, step: Step)
    ensures After(steps + [step]) == Apply(After(steps), step)
    ensures Legal(steps) && Enabled(After(steps), step) ==> Legal(steps + [step])
  {
    assert (steps + [step])[..|steps|] == steps;
  }

  /** No answer is lost: in every reachable state, a waiting request that is answered can wake and read,
      and then holds every field of the answer. */
  lemma {:induction false} AnswerIsDelivered(steps: seq<Step>, id: string, payload: map<string, Json>)
    requires Legal(steps) && id in After(steps).requests && After(steps).requests[id].Waiting? && Answers(payload, id)
    ensures var more := steps + [Receive(payload)] + [Wake(id)] + [Read(id)];
      && Legal(more) && id in After(more).requests && After(more).requests[id].Answered?
      && forall key <- payload ::
           key in After(more).requests[id].response && After(more).requests[id].response[key] == payload[key]
  {
    hide After, Legal, Route;
    assert IdCorrelated(After(steps), id) by { RepliesReachTheirRequest(steps); }
    ReceiveExactly(After(steps), payload, id);
    AfterSnoc(steps, Receive(payload));
    AfterSnoc(steps + [Receive(payload)], Wake(id));
    AfterSnoc(steps + [Receive(payload)] + [Wake(id)], Read(id));
  }
}

/** Admission of prompt workers by the stdio server. */
module WorkerAdmission {

  /** `workers` is the server's table; `live` maps each running worker thread to its session. */
  datatype State = State(workers: map<string, nat>, live: map<nat, string>)

  const CAPACITY := 8

  function Prune(workers: map<string, nat>, live: set<nat>): map<string, nat> {
    map key <- workers | workers[key] in live :: workers[key]
  }

  datatype Step = Request(session: string, thread: nat) | Exit(thread: nat)

  predicate Admitted(s: State, session: string) {
    session !in Prune(s.workers, s.live.Keys) && |Prune(s.workers, s.live.Keys)| < CAPACITY
  }

  function Apply(s: State, step: Step): State {
    match step
    case Request(session, thread) =>
      var pruned := Prune(s.workers, s.live.Keys);
      if Admitted(s, session) then State(pruned[session := thread], s.live[thread := session]) else State(pruned, s.live)
    case Exit(thread) => s.(live := s.live - {thread})
  }

  /** The table under the control of the reader thread. */
  class Server {
    var workers: map<string, nat>

    constructor ()
      ensures workers == map[]
    {
      workers := map[];
    }

    /** A prompt request does to the table what the step of the whole system does: finished workers are
        dropped, and a worker is started unless the session has one or all places are taken. */
    method Admit(session: string, live: map<nat, string>, thread: nat) returns (started: bool)
      modifies this
      ensures var s := State(old(workers), live);
        && started == Admitted(s, session) && workers == Apply(s, Request(session, thread)).workers
        && (started ==> Apply(s, Request(session, thread)).live == live[thread := session])
    {
      workers := map key <- workers | workers[key] in live.Keys :: workers[key];
      if session in workers || |workers| >= CAPACITY { return false; }
      workers := workers[session := thread];
      return true;
    }
  }

  function After(steps: seq<Step>): State {
    if steps == [] then State(map[], map[]) else Apply(After(steps[..|steps| - 1]), steps[|steps| - 1])
  }

  /** Each started worker is a new thread. */
  predicate FreshThreads(steps: seq<Step>) {
    forall i, j :: 0 <= i < j < |steps| && steps[i].Request? && steps[j].Request? ==> steps[i].thread != steps[j].thread
  }

  /** Every running worker is the one the table lists for its session. */
  ghost predicate Listed(s: State) {
    forall t <- s.live :: s.live[t] in s.workers && s.workers[s.live[t]] == t
  }

  lemma {:induction false} InjectiveSize(live: map<nat, string>)
    requires forall t, u :: t in live && u in live && live[t] == live[u] ==> t == u
    ensures |live.Values| == |live|
    decreases |live|
  {
    if live != map[] {
      var t :| t in live;
      var rest := live - {t};
      InjectiveSize(rest);
      forall v | v in live.Values ensures v in rest.Values + {live[t]} {
        var u :| u in live && live[u] == v;
        if u != t {
          assert u in rest && rest[u] == v;
        }
      }
      forall v | v in rest.Values ensures v in live.Values && v != live[t] {
        var u :| u in rest && rest[u] == v;
        assert u in live && live[u] == v && u != t;
      }
      assert live.Values == rest.Values + {live[t]};
      assert live.Keys == rest.Keys + {t};
      assert |live| == |rest| + 1;
    }
  }

  lemma SubsetSize(a: set<string>, b: set<string>)
    requires a <= b
    ensures |a| <= |b|
  {
    assert b == a + (b - a);
  }

  /** The running workers are at most as many as the pruned table lists. */
  lemma LiveBounded(s: State)
    requires Listed(s)
    ensures |s.live| <= |Prune(s.workers, s.live.Keys)|
  {
    InjectiveSize(s.live);
    SubsetSize(s.live.Values, Prune(s.workers, s.live.Keys).Keys);
  }

  lemma StartSize(s: State, session: string, thread: nat)
    requires Listed(s) && Admitted(s, session) && thread !in s.live
    ensures |s.live[thread := session]| <= CAPACITY
  {
    LiveBounded(s);
    assert s.live[thread := session].Keys == s.live.Keys + {thread};
    assert |s.live[thread := session]| == |s.live| + 1;
  }

  ghost predicate WithinLimits(s: State) {
    && |s.live| <= CAPACITY
    && (forall t, u :: t in s.live && u in s.live && t != u ==> s.live[t] != s.live[u])
  }

  lemma RequestKeepsLimits(s: State, session: string, thread: nat)
    requires Listed(s) && WithinLimits(s) && thread !in s.live
    ensures Listed(Apply(s, Request(session, thread))) && WithinLimits(Apply(s, Request(session, thread)))
  {
    if Admitted(s, session) {
      StartSize(s, session, thread);
    }
  }

  lemma ExitKeepsLimits(s: State, thread: nat)
    requires Listed(s) && WithinLimits(s)
    ensures Listed(Apply(s, Exit(thread))) && WithinLimits(Apply(s, Exit(thread)))
  {
    var rest := s.live - {thread};
    assert s.live.Keys == rest.Keys + (if thread in s.live then {thread} else {});
  }

  /** Live threads were started by an earlier request. */
  lemma {:induction false} LiveThreadsRequested(steps: seq<Step>, k: nat, t: nat) returns (i: nat)
    requires k <= |steps| && t in After(steps[..k]).live
    ensures i < k && steps[i].Request? && steps[i].thread == t
    decreases k
  {
    assert k > 0 && steps[..k][..k - 1] == steps[..k - 1];
    if t in After(steps[..k - 1]).live {
      i := LiveThreadsRequested(steps, k - 1, t);
    } else {
      i := k - 1;
    }
  }

  /** Over any sequence of prompt requests and worker exits, the server never has more than 8 live
      prompt workers, nor two for one session. */
  lemma {:induction false} AdmissionLimits(steps: seq<Step>)
    requires FreshThreads(steps)
    ensures Listed(After(steps)) && WithinLimits(After(steps))
  {
    if steps != [] {
      var before, last := steps[..|steps| - 1], steps[|steps| - 1];
      AdmissionLimits(before);
      match last {
        case Request(session, thread) =>
          if thread in After(before).live {
            var i := LiveThreadsRequested(steps, |steps| - 1, thread);
            assert false;
          }
          RequestKeepsLimits(After(before), session, thread);
        case Exit(thread) => ExitKeepsLimits(After(before), thread);
      }
    }
  }

  /** The table lists a running worker only for its own session. */
  ghost predicate OwnSession(s: State) {
    forall session <- s.workers :: s.workers[session] in s.live ==> s.live[s.workers[session]] == session
  }

  lemma {:induction false} TableIsExact(steps: seq<Step>)
    requires FreshThreads(steps)
    ensures OwnSession(After(steps))
  {
    if steps != [] {
      var before, last := steps[..|steps| - 1], steps[|steps| - 1];
      TableIsExact(before);
      if last.Request? && last.thread in After(before).live {
        var i := LiveThreadsRequested(steps, |steps| - 1, last.thread);
        assert false;
      }
    }
  }

  lemma PrunedIsLive(s: State)
    requires Listed(s) && OwnSession(s) && WithinLimits(s)
    ensures Prune(s.workers, s.live.Keys).Keys == s.live.Values
    ensures |Prune(s.workers, s.live.Keys)| == |s.live|
  {
    var pruned := Prune(s.workers, s.live.Keys);
    forall session | session in pruned ensures session in s.live.Values {
      assert s.live[s.workers[session]] == session;
    }
    forall session | session in s.live.Values ensures session in pruned {
      var t :| t in s.live && s.live[t] == session;
    }
    assert pruned.Keys == s.live.Values;
    InjectiveSize(s.live);
  }

  /** In every reachable state a prompt is admitted exactly when its session has no running worker and
      fewer than eight workers run; finished workers never stand in the way. */
  lemma {:induction false} AdmittedExactly(steps: seq<Step>, session: string)
    requires FreshThreads(steps)
    ensures var s := After(steps);
      Admitted(s, session) <==> (forall t <- s.live :: s.live[t] != session) && |s.live| < 8
  {
    hide After, FreshThreads;
    AdmissionLimits(steps);
    TableIsExact(steps);
    PrunedIsLive(After(steps));
    assert session in After(steps).live.Values <==> exists t <- After(steps).live :: After(steps).live[t] == session;
  }
}
