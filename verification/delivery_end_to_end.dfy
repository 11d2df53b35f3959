/** From the durable log to the prompt: frames printed by the session stream, decoded by the ACP
    backend, and de-duplicated by a prompt. */
module DeliveryEndToEnd {
  import opened PyText
  import opened PyJson
  import opened SessionEvents
  import opened DeliveryWorld
  import opened DeliveryOrder
  import opened AcpContent
  import opened AcpBridge
  import opened AcpBridgeOutcomes
  import Sse

  /** The event a prompt sees for a decoded frame. */
  function DecodedEvent(d: Sse.Decoded<Json>): Json {
    match d
    case Plain(value) => value
    case SnapshotEvent(value) => Obj(map["type" := Str("snapshot"), "data" := value])
    case StreamError => Obj(map["type" := Str("error"), "error" := Str("V8OS event stream failed.")])
  }

  function FrameEvent(f: Out): Json {
    DecodedEvent(Sse.Wrap(FrameName(f), FrameJson(f)))
  }

  function FrameEvents(frames: seq<Out>): seq<Json> {
    seq(|frames|, i requires 0 <= i < |frames| => FrameEvent(frames[i]))
  }

  function SseFrames(frames: seq<Out>): seq<Sse.Frame<Json>> {
    seq(|frames|, i requires 0 <= i < |frames| => ToSse(frames[i]))
  }

  function DecodedEvents(ds: seq<Sse.Decoded<Json>>): seq<Json> {
    seq(|ds|, i requires 0 <= i < |ds| => DecodedEvent(ds[i]))
  }

  /** The JSON library prints an object on one line and reads its own output back. Of other values,
      `null` say, nothing is asked: every frame is an object. */
  ghost predicate ObjectsPrintBack(codec: Sse.Codec<Json>) {
    forall j: Json :: j.Obj? ==> Sse.PrintsBack(codec, j)
  }

  predicate PlainNames(frames: seq<Out>) {
    forall f <- frames :: f.CodeFrame? ==> Sse.PlainName(f.name)
  }

  /** The bytes of a session stream decode to exactly the events of its frames, in order. */
  lemma {:induction false} WireRoundTrip(codec: Sse.Codec<Json>, session: string, frames: seq<Out>)
    requires ObjectsPrintBack(codec) && '\n' !in session && PlainNames(frames)
    ensures var d := Sse.DecodeText(codec, true, Sse.Start(), Sse.PrintFrames(codec, session, SseFrames(frames)));
      !d.failed && DecodedEvents(d.yielded) == FrameEvents(frames)
  {
    forall f | f in SseFrames(frames) ensures Sse.PlainName(f.name) && Sse.PrintsBack(codec, f.value) {
      var i :| 0 <= i < |frames| && ToSse(frames[i]) == f;
      FramePrintable(codec, frames[i], frames);
    }
    hide FrameJson, Sse.PrintsBack, Sse.PlainName, Sse.PrintFrames, ObjectsPrintBack;
    Sse.SseRoundTrip(codec, session, SseFrames(frames));
  }

  lemma FramePrintable(codec: Sse.Codec<Json>, f: Out, frames: seq<Out>)
    requires ObjectsPrintBack(codec) && PlainNames(frames) && f in frames
    ensures Sse.PlainName(ToSse(f).name) && Sse.PrintsBack(codec, ToSse(f).value)
  {
    hide Sse.PrintsBack;
    assert FrameJson(f).Obj?;
  }

  /** Event ids name one event each; an event without an id is known by its sequence number. */
  ghost predicate DistinctIds(history: map<nat, Event>) {
    forall m, n :: m in history && n in history && m != n && history[m].eventId != "" ==> history[m].eventId != history[n].eventId
  }

  function EventElement(e: Event): Json {
    if e.eventId != "" then Str(e.eventId) else Num(e.seqNo)
  }

  lemma RuntimeIdentity(e: Event)
    requires e.seqNo > 0
    ensures EventIdentity(FrameEvent(RuntimeFrame(e))) == EventElement(e)
    ensures SetElement(EventElement(e)) == EventElement(e) && Truthy(EventElement(e))
  {
  }

  lemma SingleIdentity(e: Json, x: Json)
    requires x in Identities([e])
    ensures x == SetElement(EventIdentity(e)) && EventKind(e) != Str("snapshot") && Truthy(EventIdentity(e))
  {
    hide EventIdentity, EventKind, SetElement, Truthy;
    assert forall y :: y in [e] ==> y == e;
  }

  /** The only identities de-duplication can meet: a runtime event's own, or a position a heartbeat reports. */
  lemma FrameIdentity(f: Out, x: Json)
    requires x in Identities([FrameEvent(f)])
    ensures f.RuntimeFrame? || f.HeartbeatFrame?
    ensures f.HeartbeatFrame? ==> x == Num(f.cursor)
    ensures f.RuntimeFrame? && f.event.seqNo > 0 ==> x == EventElement(f.event)
  {
    hide Identities;
    SingleIdentity(FrameEvent(f), x);
  }

  ghost predicate KnownRuntime(frames: seq<Out>, history: map<nat, Event>) {
    forall f <- frames :: f.RuntimeFrame? ==>
      f.event.seqNo > 0 && f.event.seqNo in history && history[f.event.seqNo] == f.event
  }

  /** An earlier frame, heartbeat or runtime event, does not carry a later event's identity. */
  lemma EarlierIdentityDiffers(frames: seq<Out>, history: map<nat, Event>, i: nat, k: nat)
    requires Increasing(frames) && DistinctIds(history) && KnownRuntime(frames, history)
    requires i < k < |frames| && frames[k].RuntimeFrame?
    ensures EventElement(frames[k].event) !in Identities([FrameEvent(frames[i])])
  {
    var x := EventElement(frames[k].event);
    if x in Identities([FrameEvent(frames[i])]) {
      hide EventIdentity, EventKind, FrameEvent, Identities;
      FrameIdentity(frames[i], x);
      assert frames[i] in frames && frames[k] in frames;
      IncreasingMeaning(frames, i, k);
      assert false;
    }
  }

  lemma IdentityCarrier(events: seq<Json>, x: Json) returns (i: nat)
    requires x in Identities(events)
    ensures i < |events| && x in Identities([events[i]])
  {
    var e :| e in events && e.Obj? && EventKind(e) != Str("snapshot") && Truthy(EventIdentity(e))
      && SetElement(EventIdentity(e)) == x;
    i :| 0 <= i < |events| && events[i] == e;
    assert e in [events[i]];
  }

  /** A runtime frame's identity is carried by no earlier frame, heartbeats included. */
  lemma {:induction false} IdentityIsNew(frames: seq<Out>, history: map<nat, Event>, k: nat)
    requires Increasing(frames) && DistinctIds(history) && KnownRuntime(frames, history)
    requires k < |frames| && frames[k].RuntimeFrame?
    ensures EventElement(frames[k].event) !in Identities(FrameEvents(frames[..k]))
  {
    hide FrameEvent, Identities, EventElement;
    var x := EventElement(frames[k].event);
    if x in Identities(FrameEvents(frames[..k])) {
      var i := IdentityCarrier(FrameEvents(frames[..k]), x);
      EarlierIdentityDiffers(frames, history, i, k);
      assert false;
    }
  }

  /** Where event `j` of stream `i` stands among all events of the streams. */
  function Position(streams: seq<Stream>, i: nat, j: nat): nat
    requires i < |streams| && j < |streams[i].events|
  {
    |EventsBefore(streams, i)| + j
  }

  lemma {:induction false} EventsBeforePrefix(streams: seq<Stream>, i: nat, k: nat)
    requires i <= k <= |streams|
    ensures EventsBefore(streams, i) <= EventsBefore(streams, k)
    decreases k
  {
    if i < k {
      EventsBeforePrefix(streams, i, k - 1);
    }
  }

  lemma PositionMeaning(streams: seq<Stream>, i: nat, j: nat)
    requires i < |streams| && j < |streams[i].events|
    ensures var all := EventsBefore(streams, |streams|); var p := Position(streams, i, j);
      p < |all| && all[p] == streams[i].events[j]
      && all[..p] == EventsBefore(streams, i) + streams[i].events[..j]
  {
    EventsBeforePrefix(streams, i + 1, |streams|);
    var all, some := EventsBefore(streams, |streams|), EventsBefore(streams, i) + streams[i].events;
    assert some == EventsBefore(streams, i + 1) && some <= all;
    var p := Position(streams, i, j);
    assert all[..p] == some[..p];
  }

  lemma {:induction false} ReplayFromPage(cursor: nat, events: seq<Event>)
    ensures forall f <- ReplayFrames(cursor, events) :: f.RuntimeFrame? && f.event in events && f.event.seqNo > cursor
    decreases |events|
  {
    if events != [] {
      ReplayFromPage(if events[0].seqNo <= cursor then cursor else events[0].seqNo, events[1..]);
    }
  }

  lemma PollFromPage(r: Reader, events: seq<Event>, latest: nat, s: Snapshot, clock: Clock)
    ensures forall f <- Poll(r, events, latest, s, clock).1 :: f.RuntimeFrame? ==> f.event in events && f.event.seqNo > 0
  {
    PollIsBodyThenBeat(r, events, latest, s, clock);
    ReplayFromPage(r.cursor, events);
  }

  lemma FinishKnown(w: World, s: Snapshot, clock: Clock, c: Contract)
    requires KnownRuntime(AllFrames(w), w.log.history) && Invariant(w) && Enabled(w, Finish(s, clock), c)
    ensures KnownRuntime(AllFrames(Apply(w, Finish(s, clock))), w.log.history)
  {
    hide Poll, Safe, Bounded, CoveredUpTo, ValidPage, ValidSnapshot;
    var k := w.conn.value;
    PollFromPage(k.reader, k.phase.page, k.phase.latest, s, clock);
    var sent := Poll(k.reader, k.phase.page, k.phase.latest, s, clock).1;
    assert AllFrames(Apply(w, Finish(s, clock))) == AllFrames(w) + sent;
  }

  lemma StepKnown(w: World, step: Step, c: Contract)
    requires KnownRuntime(AllFrames(w), w.log.history) && Invariant(w) && Enabled(w, step, c)
    ensures KnownRuntime(AllFrames(Apply(w, step)), Apply(w, step).log.history)
  {
    match step {
      case Append(e) =>
      case Delete(_) =>
      case Connect(withId, s, now) =>
        assert AllFrames(Apply(w, step)) == w.past + [SnapshotFrame(s, false, s.latestSeq)];
      case ReadEvents(_) =>
      case ReadLatest =>
      case Finish(s, clock) => FinishKnown(w, s, clock, c);
      case Refuse(f) =>
        assert AllFrames(Apply(w, step)) == AllFrames(w) + [f];
      case Deliver =>
      case Disconnect =>
        assert forall f :: f in Received(w) ==> f in AllFrames(w);
    }
  }

  /** Every runtime frame of a run carries an event of the log's history. */
  lemma {:induction false} RuntimeKnown(session: string, steps: seq<Step>, c: Contract)
    requires Legal(session, steps, c)
    ensures KnownRuntime(AllFrames(After(session, steps)), After(session, steps).log.history)
  {
    if steps != [] {
      RuntimeKnown(session, steps[..|steps| - 1], c);
      RunInvariant(session, steps[..|steps| - 1], c);
      StepKnown(After(session, steps[..|steps| - 1]), steps[|steps| - 1], c);
    }
  }

  // From bytes to the prompt.

  function Concat(parts: seq<seq<Out>>): seq<Out> {
    if parts == [] then [] else Concat(parts[..|parts| - 1]) + parts[|parts| - 1]
  }

  /** Stream `k` of the prompt is what the decoder makes of the bytes of connection `k`. */
  ghost predicate Fed(codec: Sse.Codec<Json>, session: string, parts: seq<seq<Out>>, streams: seq<Stream>) {
    |streams| == |parts| && forall k :: 0 <= k < |streams| ==>
      streams[k].events
      == DecodedEvents(Sse.DecodeText(codec, true, Sse.Start(), Sse.PrintFrames(codec, session, SseFrames(parts[k]))).yielded)
  }

  lemma {:induction false} FedEvents(codec: Sse.Codec<Json>, session: string, parts: seq<seq<Out>>, streams: seq<Stream>)
    requires ObjectsPrintBack(codec) && '\n' !in session && PlainNames(Concat(parts)) && Fed(codec, session, parts, streams)
    ensures EventsBefore(streams, |streams|) == FrameEvents(Concat(parts))
  {
    hide ObjectsPrintBack, FrameEvent, DecodedEvent, SseFrames, Sse.PlainName, DecodedEvents, FrameEvents;
    if parts != [] {
      var n := |parts| - 1;
      assert PlainNames(parts[n]) && PlainNames(Concat(parts[..n]));
      WireRoundTrip(codec, session, parts[n]);
      FedEvents(codec, session, parts[..n], streams[..n]);
      EventsBeforeInit(streams, n, n);
      FrameEventsAppend(Concat(parts[..n]), parts[n]);
    } else {
      assert FrameEvents([]) == [] by { NoFrameEvents(); }
    }
  }

  lemma NoFrameEvents()
    ensures FrameEvents([]) == []
  {
  }

  lemma FrameEventsAppend(a: seq<Out>, b: seq<Out>)
    ensures FrameEvents(a + b) == FrameEvents(a) + FrameEvents(b)
  {
    hide FrameEvent;
  }

  lemma {:induction false} EventsBeforeInit(streams: seq<Stream>, n: nat, k: nat)
    requires k <= n <= |streams|
    ensures EventsBefore(streams[..n], k) == EventsBefore(streams, k)
  {
    if k > 0 {
      EventsBeforeInit(streams, n, k - 1);
    }
  }

  /** What the results below are about: the frames a client received over some run, split by
      connection into `parts`, printed, decoded and read by a prompt, which has now reached frame `p`,
      a runtime event, as event `j` of stream `i`. */
  ghost predicate Reached(w: World, codec: Sse.Codec<Json>, parts: seq<seq<Out>>, env: Env, st: Prompt, streams: seq<Stream>,
                          i: nat, j: nat) {
    && ObjectsPrintBack(codec) && '\n' !in w.session
    && Concat(parts) == Received(w) && PlainNames(Received(w)) && Fed(codec, w.session, parts, streams)
    && i < |streams| && j < |streams[i].events| && AtEvent(env, st, streams, i, j).Some?
    && Position(streams, i, j) < |Received(w)| && Received(w)[Position(streams, i, j)].RuntimeFrame?
  }

  /** The event at hand is the frame's, and an identity accepted by now was accepted before the streams
      began or is carried by an earlier frame. */
  lemma AcceptedFrom(session: string, steps: seq<Step>, c: Contract, codec: Sse.Codec<Json>, parts: seq<seq<Out>>,
                     env: Env, st: Prompt, streams: seq<Stream>, i: nat, j: nat)
    requires Legal(session, steps, c) && Reached(After(session, steps), codec, parts, env, st, streams, i, j)
    ensures var frames, p := Received(After(session, steps)), Position(streams, i, j);
      && streams[i].events[j] == FrameEvent(frames[p])
      && SetElement(EventIdentity(streams[i].events[j])) == EventElement(frames[p].event)
      && KnownRuntime(frames, After(session, steps).log.history)
      && AtEvent(env, st, streams, i, j).value.seenEvents <= st.seenEvents + Identities(FrameEvents(frames[..p]))
  {
    hide HandleEvent, RunStream, After, Legal, Fed, ObjectsPrintBack, FrameEvent, Identities;
    var w := After(session, steps);
    assert w.session == session by { SessionFixed(session, steps); }
    var frames, p := Received(w), Position(streams, i, j);
    FedEvents(codec, session, parts, streams);
    PositionMeaning(streams, i, j);
    RuntimeKnown(session, steps, c);
    assert forall f :: f in frames ==> f in AllFrames(w);
    assert frames[p] in frames;
    assert FrameEvents(frames[..p]) == FrameEvents(frames)[..p];
    AcceptedIdentities(env, st, streams, i, j);
    RuntimeIdentity(frames[p].event);
  }

  lemma {:induction false} SessionFixed(session: string, steps: seq<Step>)
    ensures After(session, steps).session == session
  {
    if steps != [] { SessionFixed(session, steps[..|steps| - 1]); }
  }

  /** De-duplication drops only what was delivered. Over any run, with any snapshots and with or
      without resuming: when a prompt reaches a runtime event whose identity it has accepted since its
      streams began, the same event id was sent in an earlier frame, or the event has no id and an
      earlier frame, a heartbeat or the event itself, reported its number. */
  lemma {:induction false} DroppedOnlyIfReported(session: string, steps: seq<Step>, c: Contract, codec: Sse.Codec<Json>,
                            parts: seq<seq<Out>>, env: Env, st: Prompt, streams: seq<Stream>, i: nat, j: nat)
    requires Legal(session, steps, c) && Reached(After(session, steps), codec, parts, env, st, streams, i, j)
    requires var x := SetElement(EventIdentity(streams[i].events[j]));
      x in AtEvent(env, st, streams, i, j).value.seenEvents && x !in st.seenEvents
    ensures var frames, p := Received(After(session, steps)), Position(streams, i, j);
      exists q :: 0 <= q < p && Reports(frames[q], frames[p].event)
  {
    hide *;
    var w := After(session, steps);
    ReachedPosition(w, codec, parts, env, st, streams, i, j);
    AcceptedFrom(session, steps, c, codec, parts, env, st, streams, i, j);
    ReportedBefore(Received(w), w.log.history, Position(streams, i, j), AtEvent(env, st, streams, i, j).value.seenEvents, st.seenEvents);
  }

  lemma ReportedBefore(frames: seq<Out>, history: map<nat, Event>, p: nat, seen: set<Json>, before: set<Json>)
    requires p < |frames| && frames[p].RuntimeFrame? && KnownRuntime(frames, history)
    requires EventElement(frames[p].event) in seen && EventElement(frames[p].event) !in before
    requires seen <= before + Identities(FrameEvents(frames[..p]))
    ensures exists q :: 0 <= q < p && Reports(frames[q], frames[p].event)
  {
    hide *;
    var q := FrameCarrier(frames[..p], EventElement(frames[p].event));
    ReportedBy(frames, history, q, p);
  }

  lemma ReachedPosition(w: World, codec: Sse.Codec<Json>, parts: seq<seq<Out>>, env: Env, st: Prompt, streams: seq<Stream>, i: nat, j: nat)
    requires Reached(w, codec, parts, env, st, streams, i, j)
    ensures i < |streams| && j < |streams[i].events| && AtEvent(env, st, streams, i, j).Some?
    ensures Position(streams, i, j) < |Received(w)| && Received(w)[Position(streams, i, j)].RuntimeFrame?
  {
  }

  /** The frame told the client of the event: as that event id, or, for an event without id, by its number. */
  predicate Reports(f: Out, e: Event) {
    if e.eventId != "" then f.RuntimeFrame? && f.event.eventId == e.eventId
    else (f.HeartbeatFrame? && f.cursor == e.seqNo) || (f.RuntimeFrame? && f.event.eventId == "" && f.event.seqNo == e.seqNo)
  }

  lemma FrameCarrier(frames: seq<Out>, x: Json) returns (q: nat)
    requires x in Identities(FrameEvents(frames))
    ensures q < |frames| && x in Identities([FrameEvent(frames[q])])
  {
    hide FrameEvent, Identities;
    q := IdentityCarrier(FrameEvents(frames), x);
  }

  lemma ReportedBy(frames: seq<Out>, history: map<nat, Event>, q: nat, p: nat)
    requires q < p < |frames| && frames[p].RuntimeFrame? && KnownRuntime(frames, history)
    requires EventElement(frames[p].event) in Identities([FrameEvent(frames[q])])
    ensures Reports(frames[q], frames[p].event)
  {
    hide FrameEvent, Identities, EventIdentity, EventKind;
    assert frames[q] in frames;
    FrameIdentity(frames[q], EventElement(frames[p].event));
  }

  /** De-duplication is safe on fresh connections. Without ids to resume from, and with opening snapshots
      that reach what the client was told before, no heartbeat and no other event of any of the
      connections makes a prompt drop a runtime event: it has accepted the event's identity only if it
      had done so before these streams began. */
  lemma {:induction false} DeduplicationIsSafe(session: string, steps: seq<Step>, c: Contract, codec: Sse.Codec<Json>,
                            parts: seq<seq<Out>>, env: Env, st: Prompt, streams: seq<Stream>, i: nat, j: nat)
    requires Legal(session, steps, c) && c.neverResumes && OpensReach(session, steps)
    requires DistinctIds(After(session, steps).log.history)
    requires Reached(After(session, steps), codec, parts, env, st, streams, i, j)
    ensures var x, seen := SetElement(EventIdentity(streams[i].events[j])), AtEvent(env, st, streams, i, j).value.seenEvents;
      x in seen ==> x in st.seenEvents
  {
    hide AtEvent, Reached, After, EventIdentity, OpensReach, DistinctIds;
    var w := After(session, steps);
    ReachedPosition(w, codec, parts, env, st, streams, i, j);
    AcceptedFrom(session, steps, c, codec, parts, env, st, streams, i, j);
    OrderAcrossConnections(session, steps, c);
    IdentityIsNew(Received(w), w.log.history, Position(streams, i, j));
  }
}
