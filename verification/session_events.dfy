/** The durable-log reader behind the session event stream: one connection as the code runs it. */
module SessionEvents {
  import opened PyText
  import opened PyJson
  import Sse

  /** One runtime event of a session's durable log. */
  datatype Event = Event(seqNo: nat, eventId: string, runId: string, topic: string, visibility: string,
                         payload: map<string, Json>)

  datatype Snapshot = Snapshot(latestSeq: nat, state: map<string, Json>)

  /** The frames of a session stream. Only snapshots and runtime events carry an id. */
  datatype Out =
    | SnapshotFrame(state: Snapshot, recovery: bool, id: nat)
    | RuntimeFrame(event: Event)
    | HeartbeatFrame(cursor: nat)
    | CodeFrame(name: string, code: string)

  function FrameId(f: Out): Option<nat> {
    match f
    case SnapshotFrame(_, _, id) => Some(id)
    case RuntimeFrame(e) => Some(e.seqNo)
    case HeartbeatFrame(_) => None
    case CodeFrame(_, _) => None
  }

  /** Events that are never sent to a client: internal visibility, session control and diagnostics. */
  predicate Hidden(e: Event) {
    || e.visibility in {"internal", "runtime", "excluded", "history_only"}
    || e.topic in {"session.connected", "session.subscribed", "extension.execution.completed"}
    || StartsWith(e.topic, "desktop_live.")
    || EndsWith(e.topic, ".diagnostic")
  }

  /** The loop variables of one connection. */
  datatype Reader = Reader(cursor: nat, dirty: bool, snapshotAt: real, heartbeatAt: real)

  /** Readings of the monotonic clock during one iteration, in the order they are taken. */
  datatype Clock = Clock(flushCheck: real, snapshotTaken: real, beatCheck: real, beatTaken: real)

  function Max(a: nat, b: nat): nat { if a < b then b else a }

  /** The first snapshot of a connection fixes the cursor: the requested resume point if the
      snapshot has reached it, the snapshot's own sequence number otherwise. */
  function Open(resume: nat, state: Snapshot, now: real): (Reader, Out) {
    var watermark := state.latestSeq;
    var cursor := if resume == 0 || resume > watermark then watermark else resume;
    (Reader(cursor, false, now, now), SnapshotFrame(state, false, watermark))
  }

  /** Whether a page, read after `expected`, skips a sequence number. */
  predicate Jumps(expected: nat, events: seq<Event>)
    decreases |events|
  {
    events != [] &&
    var n := events[0].seqNo;
    if n <= expected then Jumps(expected, events[1..])
    else if n > expected + 1 then true
    else Jumps(n, events[1..])
  }

  predicate Gap(cursor: nat, events: seq<Event>, latest: nat) {
    (events == [] && latest > cursor) || Jumps(cursor, events)
  }

  /** Cursor after replaying a page. */
  function ReplayCursor(cursor: nat, events: seq<Event>): nat
    decreases |events|
  {
    if events == [] then cursor
    else ReplayCursor(Max(cursor, events[0].seqNo), events[1..])
  }

  /** Frames sent while replaying a page. */
  function ReplayFrames(cursor: nat, events: seq<Event>): seq<Out>
    decreases |events|
  {
    if events == [] then []
    else if events[0].seqNo <= cursor then ReplayFrames(cursor, events[1..])
    else (if Hidden(events[0]) then [] else [RuntimeFrame(events[0])]) + ReplayFrames(events[0].seqNo, events[1..])
  }

  /** One iteration after its page was read; `state` is the snapshot it takes if it takes one. */
  function Poll(r: Reader, events: seq<Event>, latest: nat, state: Snapshot, clock: Clock): (Reader, seq<Out>) {
    if Gap(r.cursor, events, latest) then
      var cursor := Max(r.cursor, state.latestSeq);
      Beat(r.(cursor := cursor, snapshotAt := clock.snapshotTaken), [SnapshotFrame(state, true, cursor)], clock)
    else
      var cursor, sent := ReplayCursor(r.cursor, events), ReplayFrames(r.cursor, events);
      var dirty := r.dirty || sent != [];
      if dirty && clock.flushCheck - r.snapshotAt >= 0.5 then
        var id := if state.latestSeq != 0 then state.latestSeq else cursor;
        Beat(r.(cursor := cursor, dirty := false, snapshotAt := clock.snapshotTaken),
             sent + [SnapshotFrame(state, false, id)], clock)
      else Beat(r.(cursor := cursor, dirty := dirty), sent, clock)
  }

  function Beat(r: Reader, sent: seq<Out>, clock: Clock): (Reader, seq<Out>) {
    if clock.beatCheck - r.heartbeatAt >= 12.0 then (r.(heartbeatAt := clock.beatTaken), sent + [HeartbeatFrame(r.cursor)])
    else (r, sent)
  }

  /** The generator of one connection: its loop variables and the frames it has yielded. */
  class SessionReader {
    var cursor: nat
    var dirty: bool
    var snapshotAt: real
    var heartbeatAt: real
    var yielded: seq<Out>

    ghost function View(): Reader
      reads this
    {
      Reader(cursor, dirty, snapshotAt, heartbeatAt)
    }

    constructor (rawCursor: string, session: string, state: Snapshot, now: real)
      ensures View() == Open(Sse.ResumeCursor(rawCursor, session), state, now).0
      ensures yielded == [Open(Sse.ResumeCursor(rawCursor, session), state, now).1]
    {
      var requested := Sse.ResumeCursor(rawCursor, session);
      var watermark := state.latestSeq;
      if requested == 0 || requested > watermark {
        requested := watermark;
      }
      cursor := requested;
      yielded := [SnapshotFrame(state, false, watermark)];
      heartbeatAt := now;
      snapshotAt := now;
      dirty := false;
    }

    method FindGap(events: seq<Event>, latest: nat) returns (gap: bool)
      ensures gap == Gap(cursor, events, latest)
    {
      var expected := cursor;
      gap := events == [] && latest > cursor;
      for i := 0 to |events|
        invariant !gap || events == []
        invariant events != [] ==> Jumps(expected, events[i..]) == Jumps(cursor, events)
      {
        var seqNo := events[i].seqNo;
        assert events[i..][0] == events[i] && events[i..][1..] == events[i + 1..];
        if seqNo <= expected { continue; }
        if seqNo > expected + 1 { return true; }
        expected := seqNo;
      }
    }

    method ReplayPage(events: seq<Event>) returns (changed: bool)
      modifies this`cursor, this`yielded
      ensures cursor == ReplayCursor(old(cursor), events)
      ensures yielded == old(yielded) + ReplayFrames(old(cursor), events)
      ensures changed == (ReplayFrames(old(cursor), events) != [])
    {
      hide Hidden;
      changed := false;
      ghost var done: seq<Out> := [];
      for i := 0 to |events|
        invariant ReplayCursor(cursor, events[i..]) == ReplayCursor(old(cursor), events)
        invariant done + ReplayFrames(cursor, events[i..]) == ReplayFrames(old(cursor), events)
        invariant yielded == old(yielded) + done && changed == (done != [])
      {
        var event := events[i];
        assert events[i..][0] == event && events[i..][1..] == events[i + 1..];
        if event.seqNo <= cursor { continue; }
        cursor := event.seqNo;
        if Hidden(event) { continue; }
        yielded := yielded + [RuntimeFrame(event)];
        changed := true;
        done := done + [RuntimeFrame(event)];
      }
      assert done + [] == done;
    }

    /** One iteration of the loop on a page that has been read. */
    method PollOnce(events: seq<Event>, latest: nat, state: Snapshot, clock: Clock)
      modifies this
      ensures var (r, sent) := Poll(old(View()), events, latest, state, clock);
        View() == r && yielded == old(yielded) + sent
    {
      hide Gap, ReplayCursor, ReplayFrames;
      var gap := FindGap(events, latest);
      if gap {
        cursor := if cursor < state.latestSeq then state.latestSeq else cursor;
        yielded := yielded + [SnapshotFrame(state, true, cursor)];
        snapshotAt := clock.snapshotTaken;
      } else {
        var changed := ReplayPage(events);
        dirty := dirty || changed;
        if dirty && clock.flushCheck - snapshotAt >= 0.5 {
          yielded := yielded + [SnapshotFrame(state, false, if state.latestSeq != 0 then state.latestSeq else cursor)];
          snapshotAt := clock.snapshotTaken;
          dirty := false;
        }
      }
      if clock.beatCheck - heartbeatAt >= 12.0 {
        yielded := yielded + [HeartbeatFrame(cursor)];
        heartbeatAt := clock.beatTaken;
      }
    }

    /** The iteration stops before reading a page when the principal or the session is gone. */
    method CheckAccess(valid: bool, sessionFound: bool) returns (stop: bool)
      modifies this`yielded
      ensures stop == (!valid || !sessionFound)
      ensures yielded == old(yielded) + (if !valid then [CodeFrame("auth_expired", "client_auth_expired")]
                                         else if !sessionFound then [CodeFrame("error", "session_not_found")]
                                         else [])
    {
      stop := false;
      if !valid {
        yielded := yielded + [CodeFrame("auth_expired", "client_auth_expired")];
        return true;
      }
      if !sessionFound {
        yielded := yielded + [CodeFrame("error", "session_not_found")];
        return true;
      }
    }
  }

  // Frames on the wire.

  function EventJson(e: Event): Json {
    Obj(map["seq" := Num(e.seqNo), "event_id" := Str(e.eventId), "run_id" := Str(e.runId), "topic" := Str(e.topic),
            "visibility" := Str(e.visibility), "payload" := Obj(e.payload)])
  }

  function FrameJson(f: Out): Json {
    match f
    case SnapshotFrame(s, recovery, _) =>
      var latest := s.state["latestSeq" := Num(s.latestSeq)];
      Obj(if recovery then latest["replayRecovery" := Str("snapshot_gap")] else latest)
    case RuntimeFrame(e) => EventJson(e)
    case HeartbeatFrame(cursor) => Obj(map["ok" := Bool(true), "seq" := Num(cursor)])
    case CodeFrame(_, code) => Obj(map["code" := Str(code)])
  }

  function FrameName(f: Out): string {
    match f
    case SnapshotFrame(_, _, _) => "snapshot"
    case RuntimeFrame(_) => "runtime"
    case HeartbeatFrame(_) => "heartbeat"
    case CodeFrame(name, _) => name
  }

  function ToSse(f: Out): Sse.Frame<Json> {
    Sse.Frame(FrameName(f), FrameJson(f), FrameId(f))
  }
}
