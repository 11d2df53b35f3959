/** Event delivery over whole runs: appends and retention deletes on the log, page reads, snapshot
    reads, frame deliveries, disconnects and reconnects, interleaved in any order. */
module DeliveryWorld {
  import opened PyText
  import opened SessionEvents
  import Sse

  /** `top` is the highest sequence number ever allocated, `history` every event ever appended
      and `live` the sequence numbers retention has not deleted. */
  datatype Log = Log(top: nat, history: map<nat, Event>, live: set<nat>)

  /** Where a connection is in its loop iteration. The page's events and its `latestSeq` come from
      two separate reads of the database. */
  datatype Phase = Idle | GotEvents(events: seq<Event>) | GotPage(page: seq<Event>, latest: nat) | Stopped

  /** A connection: loop variables, frames produced, and how many of them the client received. */
  datatype Connection = Connection(reader: Reader, produced: seq<Out>, delivered: nat, phase: Phase)

  /** `past` are the frames the client received on earlier connections; `observed` is the highest
      `latestSeq` any page or snapshot has reported. */
  datatype World = World(session: string, log: Log, observed: nat, past: seq<Out>, conn: Option<Connection>)

  datatype Step =
    | Append(event: Event)
    | Delete(seqNo: nat)
    | Connect(withId: bool, state: Snapshot, now: real)
    | ReadEvents(events: seq<Event>)
    | ReadLatest
    | Finish(snapshot: Snapshot, clock: Clock)
    | Refuse(frame: Out)
    | Deliver
    | Disconnect

  /** What the environment promises. `freshSnapshots`: a snapshot reports at least every
      `latestSeq` reported before it. `neverResumes`: connections are opened without an event id. */
  datatype Contract = Contract(freshSnapshots: bool, neverResumes: bool)

  function Received(w: World): seq<Out> {
    if w.conn.None? then w.past
    else if w.conn.value.delivered <= |w.conn.value.produced| then w.past + w.conn.value.produced[..w.conn.value.delivered]
    else w.past + w.conn.value.produced
  }

  /** The id of the last received frame that has one: the client's resume point. */
  function LastId(frames: seq<Out>): Option<nat> {
    if frames == [] then None
    else if FrameId(frames[|frames| - 1]).Some? then FrameId(frames[|frames| - 1])
    else LastId(frames[..|frames| - 1])
  }

  function ResumeHeader(w: World, withId: bool): string {
    var last := LastId(Received(w));
    if withId && last.Some? then Sse.EventId(w.session, last.value) else "0"
  }

  ghost predicate ValidSnapshot(w: World, s: Snapshot, c: Contract) {
    s.latestSeq <= w.log.top && (c.freshSnapshots ==> s.latestSeq >= w.observed)
  }

  /** A page read: live events after the cursor in increasing order, at most 128 of them, all of
      them when there are fewer. */
  ghost predicate ValidPage(log: Log, cursor: nat, events: seq<Event>) {
    && |events| <= 128
    && (forall i :: 0 <= i < |events| ==>
          cursor < events[i].seqNo && events[i].seqNo in log.live && events[i].seqNo in log.history
          && log.history[events[i].seqNo] == events[i])
    && (forall i, j :: 0 <= i < j < |events| ==> events[i].seqNo < events[j].seqNo)
    && (|events| < 128 ==> forall n <- log.live :: n > cursor ==> exists i :: 0 <= i < |events| && events[i].seqNo == n)
  }

  function Observe(w: World, n: nat): World {
    w.(observed := Max(w.observed, n))
  }

  ghost predicate Enabled(w: World, step: Step, c: Contract) {
    match step
    case Append(e) => e.seqNo == w.log.top + 1
    case Delete(n) => n in w.log.live
    case Connect(withId, s, _) => w.conn.None? && ValidSnapshot(w, s, c) && (c.neverResumes ==> !withId)
    case ReadEvents(events) =>
      w.conn.Some? && w.conn.value.phase.Idle? && ValidPage(w.log, w.conn.value.reader.cursor, events)
    case ReadLatest => w.conn.Some? && w.conn.value.phase.GotEvents?
    case Finish(s, _) => w.conn.Some? && w.conn.value.phase.GotPage? && ValidSnapshot(w, s, c)
    case Refuse(f) => w.conn.Some? && w.conn.value.phase.Idle? && f.CodeFrame?
    case Deliver => w.conn.Some? && w.conn.value.delivered < |w.conn.value.produced|
    case Disconnect => w.conn.Some?
  }

  function Apply(w: World, step: Step): World {
    match step
    case Append(e) =>
      w.(log := Log(Max(w.log.top, e.seqNo), w.log.history[e.seqNo := e], w.log.live + {e.seqNo}))
    case Delete(n) => w.(log := w.log.(live := w.log.live - {n}))
    case Connect(withId, s, now) =>
      var (reader, first) := Open(Sse.ResumeCursor(ResumeHeader(w, withId), w.session), s, now);
      Observe(w, s.latestSeq).(conn := Some(Connection(reader, [first], 0, Idle)))
    case ReadEvents(events) =>
      if w.conn.None? then w else w.(conn := Some(w.conn.value.(phase := GotEvents(events))))
    case ReadLatest =>
      if w.conn.None? || !w.conn.value.phase.GotEvents? then w
      else Observe(w, w.log.top).(conn := Some(w.conn.value.(phase := GotPage(w.conn.value.phase.events, w.log.top))))
    case Finish(s, clock) =>
      if w.conn.None? || !w.conn.value.phase.GotPage? then w
      else
        var k := w.conn.value;
        var (reader, sent) := Poll(k.reader, k.phase.page, k.phase.latest, s, clock);
        var next := w.(conn := Some(Connection(reader, k.produced + sent, k.delivered, Idle)));
        if TakesSnapshot(k.reader, k.phase.page, k.phase.latest, clock) then Observe(next, s.latestSeq) else next
    case Refuse(f) =>
      if w.conn.None? then w
      else w.(conn := Some(w.conn.value.(produced := w.conn.value.produced + [f], phase := Stopped)))
    case Deliver => if w.conn.None? then w else w.(conn := Some(w.conn.value.(delivered := w.conn.value.delivered + 1)))
    case Disconnect => w.(past := Received(w), conn := None)
  }

  predicate TakesSnapshot(r: Reader, events: seq<Event>, latest: nat, clock: Clock) {
    || Gap(r.cursor, events, latest)
    || ((r.dirty || ReplayFrames(r.cursor, events) != []) && clock.flushCheck - r.snapshotAt >= 0.5)
  }

  /** A new session: an empty log and no client yet. */
  function Initial(session: string): World {
    World(session, Log(0, map[], {}), 0, [], None)
  }

  /** The state after a sequence of steps from a new session. */
  function After(session: string, steps: seq<Step>): World {
    if steps == [] then Initial(session) else Apply(After(session, steps[..|steps| - 1]), steps[|steps| - 1])
  }

  /** Every step of the sequence is possible when it is taken and keeps the contract. */
  ghost predicate Legal(session: string, steps: seq<Step>, c: Contract) {
    steps != [] ==>
      && Legal(session, steps[..|steps| - 1], c)
      && Enabled(After(session, steps[..|steps| - 1]), steps[|steps| - 1], c)
  }

  // Coverage.

  /** Event `n` needs nothing more: it is excluded from transport, or was sent, or a received
      snapshot reaches it. */
  ghost predicate Covered(frames: seq<Out>, history: map<nat, Event>, n: nat) {
    || (n in history && Hidden(history[n]))
    || (exists f <- frames :: f.RuntimeFrame? && f.event.seqNo == n)
    || (exists f <- frames :: f.SnapshotFrame? && f.state.latestSeq >= n)
  }

  ghost predicate CoveredUpTo(frames: seq<Out>, history: map<nat, Event>, last: nat) {
    forall n :: n in history && n <= last ==> Covered(frames, history, n)
  }

  /** At each frame, everything up to the frame's id is covered by the frames so far. */
  ghost predicate Safe(frames: seq<Out>, history: map<nat, Event>) {
    frames != [] ==>
      && Safe(frames[..|frames| - 1], history)
      && (FrameId(frames[|frames| - 1]).Some? ==> CoveredUpTo(frames, history, FrameId(frames[|frames| - 1]).value))
  }

  /** No id, recovery cursor or page reaches beyond the allocated sequence numbers. */
  ghost predicate Bounded(frames: seq<Out>, top: nat) {
    forall f <- frames :: FrameId(f).Some? ==> FrameId(f).value <= top
  }

  ghost predicate LogInvariant(log: Log) {
    && log.live <= log.history.Keys
    && (forall n <- log.history :: 1 <= n <= log.top && log.history[n].seqNo == n)
  }

  function AllFrames(w: World): seq<Out> {
    if w.conn.None? then w.past else w.past + w.conn.value.produced
  }

  ghost predicate PageKnown(log: Log, cursor: nat, events: seq<Event>) {
    && (forall e <- events :: cursor < e.seqNo && e.seqNo in log.history && log.history[e.seqNo] == e)
    && (forall i, j :: 0 <= i < j < |events| ==> events[i].seqNo < events[j].seqNo)
  }

  ghost predicate ConnectionInvariant(w: World, k: Connection) {
    && k.delivered <= |k.produced|
    && k.reader.cursor <= w.log.top
    && CoveredUpTo(w.past + k.produced, w.log.history, k.reader.cursor)
    && (k.phase.GotEvents? ==> PageKnown(w.log, k.reader.cursor, k.phase.events))
    && (k.phase.GotPage? ==> PageKnown(w.log, k.reader.cursor, k.phase.page))
  }

  ghost predicate Invariant(w: World) {
    && LogInvariant(w.log)
    && Bounded(AllFrames(w), w.log.top)
    && Safe(AllFrames(w), w.log.history)
    && (w.conn.Some? ==> ConnectionInvariant(w, w.conn.value))
  }

  lemma CoverageGrows(frames: seq<Out>, more: seq<Out>, history: map<nat, Event>, last: nat)
    requires CoveredUpTo(frames, history, last)
    ensures CoveredUpTo(frames + more, history, last)
  {
    forall n | n in history && n <= last ensures Covered(frames + more, history, n) {
      assert Covered(frames, history, n);
      assert forall f :: f in frames ==> f in frames + more;
    }
  }

  /** Appending one frame keeps a frame sequence safe if the frame's own id is covered. */
  lemma SafeAppend(frames: seq<Out>, f: Out, history: map<nat, Event>)
    requires Safe(frames, history)
    requires FrameId(f).Some? ==> CoveredUpTo(frames + [f], history, FrameId(f).value)
    ensures Safe(frames + [f], history)
  {
    assert (frames + [f])[..|frames|] == frames;
  }

  /** Safe frames cover everything up to the client's resume point. */
  lemma {:induction false} SafeResume(frames: seq<Out>, history: map<nat, Event>)
    requires Safe(frames, history)
    ensures LastId(frames).Some? ==> CoveredUpTo(frames, history, LastId(frames).value)
  {
    if frames != [] && FrameId(frames[|frames| - 1]).None? {
      var before := frames[..|frames| - 1];
      SafeResume(before, history);
      if LastId(before).Some? {
        CoverageGrows(before, [frames[|frames| - 1]], history, LastId(before).value);
        assert before + [frames[|frames| - 1]] == frames;
      }
    }
  }

  lemma SnapshotCovers(frames: seq<Out>, f: Out, history: map<nat, Event>)
    requires f.SnapshotFrame?
    ensures CoveredUpTo(frames + [f], history, f.state.latestSeq)
  {
    assert f in frames + [f];
  }

  ghost predicate Progress(frames: seq<Out>, log: Log, cursor: nat) {
    && Safe(frames, log.history) && Bounded(frames, log.top)
    && CoveredUpTo(frames, log.history, cursor) && cursor <= log.top
  }

  lemma ReplayOne(frames: seq<Out>, log: Log, cursor: nat, e: Event)
    requires LogInvariant(log) && Progress(frames, log, cursor)
    requires e.seqNo == cursor + 1 && e.seqNo in log.history && log.history[e.seqNo] == e
    ensures Progress(frames + if Hidden(e) then [] else [RuntimeFrame(e)], log, e.seqNo)
  {
    var sent := if Hidden(e) then [] else [RuntimeFrame(e)];
    var more := frames + sent;
    CoverageGrows(frames, sent, log.history, cursor);
    assert CoveredUpTo(more, log.history, e.seqNo) by {
      if !Hidden(e) {
        assert RuntimeFrame(e) in more;
      }
    }
    if Hidden(e) {
      assert more == frames;
    } else {
      SafeAppend(frames, RuntimeFrame(e), log.history);
    }
  }

  /** The first event of a page without a gap, and what is left of the page after it. */
  lemma PageHead(log: Log, cursor: nat, events: seq<Event>)
    requires PageKnown(log, cursor, events) && events != [] && !Jumps(cursor, events)
    ensures var e := events[0];
      && e.seqNo == cursor + 1 && e.seqNo in log.history && log.history[e.seqNo] == e
      && PageKnown(log, e.seqNo, events[1..]) && !Jumps(e.seqNo, events[1..])
      && ReplayFrames(cursor, events)
           == (if Hidden(e) then [] else [RuntimeFrame(e)]) + ReplayFrames(e.seqNo, events[1..])
      && ReplayCursor(cursor, events) == ReplayCursor(e.seqNo, events[1..])
  {
    assert events[0] in events;
    forall x | x in events[1..] ensures events[0].seqNo < x.seqNo && x in events {
      var i :| 0 <= i < |events[1..]| && events[1..][i] == x;
      assert events[i + 1] == x;
    }
  }

  /** Replaying a page without a gap covers everything up to the new cursor, frame by frame. */
  lemma {:induction false} ReplaySafe(frames: seq<Out>, log: Log, cursor: nat, events: seq<Event>)
    requires LogInvariant(log) && Progress(frames, log, cursor) && !Jumps(cursor, events)
    requires PageKnown(log, cursor, events)
    ensures Progress(frames + ReplayFrames(cursor, events), log, ReplayCursor(cursor, events))
    decreases |events|
  {
    hide Progress, Hidden, LogInvariant, PageKnown;
    if events == [] {
      assert frames + [] == frames;
    } else {
      var e := events[0];
      var sent := if Hidden(e) then [] else [RuntimeFrame(e)];
      PageHead(log, cursor, events);
      ReplayOne(frames, log, cursor, e);
      ReplaySafe(frames + sent, log, e.seqNo, events[1..]);
      assert frames + sent + ReplayFrames(e.seqNo, events[1..]) == frames + (sent + ReplayFrames(e.seqNo, events[1..]));
    }
  }

  /** A snapshot frame keeps the progress made and may raise the cursor to its own sequence number. */
  lemma SnapshotStep(frames: seq<Out>, log: Log, cursor: nat, s: Snapshot, recovery: bool, id: nat)
    requires Progress(frames, log, cursor) && s.latestSeq <= log.top
    requires id == s.latestSeq || id == cursor || id == Max(cursor, s.latestSeq)
    ensures Progress(frames + [SnapshotFrame(s, recovery, id)], log, Max(cursor, s.latestSeq))
  {
    var f := SnapshotFrame(s, recovery, id);
    CoverageGrows(frames, [f], log.history, cursor);
    SnapshotCovers(frames, f, log.history);
    SafeAppend(frames, f, log.history);
  }

  lemma ProgressBelow(frames: seq<Out>, log: Log, cursor: nat, lower: nat)
    requires Progress(frames, log, cursor) && lower <= cursor
    ensures Progress(frames, log, lower)
  {
    hide Safe, Bounded;
  }

  lemma BeatStep(frames: seq<Out>, log: Log, r: Reader, sent: seq<Out>, clock: Clock)
    requires Progress(frames + sent, log, r.cursor)
    ensures Progress(frames + Beat(r, sent, clock).1, log, Beat(r, sent, clock).0.cursor)
  {
    hide Safe, CoveredUpTo;
    if clock.beatCheck - r.heartbeatAt >= 12.0 {
      var f := HeartbeatFrame(r.cursor);
      CoverageGrows(frames + sent, [f], log.history, r.cursor);
      SafeAppend(frames + sent, f, log.history);
      assert frames + sent + [f] == frames + (sent + [f]);
    }
  }

  lemma {:induction false} PollSafe(frames: seq<Out>, log: Log, r: Reader, events: seq<Event>, latest: nat, s: Snapshot, clock: Clock)
    requires LogInvariant(log) && Progress(frames, log, r.cursor) && s.latestSeq <= log.top
    requires PageKnown(log, r.cursor, events)
    ensures var (reader, sent) := Poll(r, events, latest, s, clock);
      Progress(frames + sent, log, reader.cursor)
  {
    hide Progress, Beat, LogInvariant, PageKnown;
    if Gap(r.cursor, events, latest) {
      var cursor := Max(r.cursor, s.latestSeq);
      SnapshotStep(frames, log, r.cursor, s, true, cursor);
      BeatStep(frames, log, r.(cursor := cursor, snapshotAt := clock.snapshotTaken), [SnapshotFrame(s, true, cursor)], clock);
    } else {
      ReplaySafe(frames, log, r.cursor, events);
      var cursor, sent := ReplayCursor(r.cursor, events), ReplayFrames(r.cursor, events);
      var dirty := r.dirty || sent != [];
      if TakesSnapshot(r, events, latest, clock) {
        var id := if s.latestSeq != 0 then s.latestSeq else cursor;
        SnapshotStep(frames + sent, log, cursor, s, false, id);
        ProgressBelow(frames + sent + [SnapshotFrame(s, false, id)], log, Max(cursor, s.latestSeq), cursor);
        assert frames + sent + [SnapshotFrame(s, false, id)] == frames + (sent + [SnapshotFrame(s, false, id)]);
        BeatStep(frames, log, r.(cursor := cursor, dirty := false, snapshotAt := clock.snapshotTaken),
                 sent + [SnapshotFrame(s, false, id)], clock);
      } else {
        BeatStep(frames, log, r.(cursor := cursor, dirty := dirty), sent, clock);
      }
    }
  }

  lemma {:induction false} SafePrefix(frames: seq<Out>, k: nat, history: map<nat, Event>)
    requires k <= |frames| && Safe(frames, history)
    ensures Safe(frames[..k], history)
  {
    if k < |frames| {
      assert frames[..|frames| - 1][..k] == frames[..k];
      SafePrefix(frames[..|frames| - 1], k, history);
    } else {
      assert frames[..k] == frames;
    }
  }

  /** A new event has a larger sequence number than everything any frame or cursor mentions. */
  lemma {:induction false} AppendSafe(frames: seq<Out>, log: Log, e: Event)
    requires LogInvariant(log) && Safe(frames, log.history) && Bounded(frames, log.top) && e.seqNo == log.top + 1
    ensures Safe(frames, log.history[e.seqNo := e])
  {
    if frames != [] {
      var f := frames[|frames| - 1];
      AppendSafe(frames[..|frames| - 1], log, e);
      if FrameId(f).Some? {
        AppendCoverage(frames, log, e, FrameId(f).value);
      }
    }
  }

  lemma AppendCoverage(frames: seq<Out>, log: Log, e: Event, last: nat)
    requires LogInvariant(log) && e.seqNo == log.top + 1 && last <= log.top && CoveredUpTo(frames, log.history, last)
    ensures CoveredUpTo(frames, log.history[e.seqNo := e], last)
  {
    var history := log.history[e.seqNo := e];
    forall n | n in history && n <= last ensures Covered(frames, history, n) {
      assert Covered(frames, log.history, n);
    }
  }

  lemma AppendKeepsInvariant(w: World, e: Event)
    requires Invariant(w) && e.seqNo == w.log.top + 1
    ensures Invariant(Apply(w, Append(e)))
  {
    AppendSafe(AllFrames(w), w.log, e);
    if w.conn.Some? {
      AppendCoverage(AllFrames(w), w.log, e, w.conn.value.reader.cursor);
    }
  }

  lemma ConnectKeepsInvariant(w: World, withId: bool, s: Snapshot, now: real, c: Contract)
    requires Invariant(w) && Enabled(w, Connect(withId, s, now), c)
    ensures Invariant(Apply(w, Connect(withId, s, now)))
  {
    var f := SnapshotFrame(s, false, s.latestSeq);
    SnapshotCovers(w.past, f, w.log.history);
    SafeAppend(w.past, f, w.log.history);
  }

  lemma FinishKeepsInvariant(w: World, s: Snapshot, clock: Clock, c: Contract)
    requires Invariant(w) && Enabled(w, Finish(s, clock), c)
    ensures Invariant(Apply(w, Finish(s, clock)))
  {
    hide Poll, Safe, Bounded, CoveredUpTo, TakesSnapshot;
    var k := w.conn.value;
    PollSafe(AllFrames(w), w.log, k.reader, k.phase.page, k.phase.latest, s, clock);
    var sent := Poll(k.reader, k.phase.page, k.phase.latest, s, clock).1;
    assert AllFrames(w) + sent == w.past + (k.produced + sent);
  }

  lemma RefuseKeepsInvariant(w: World, f: Out, c: Contract)
    requires Invariant(w) && Enabled(w, Refuse(f), c)
    ensures Invariant(Apply(w, Refuse(f)))
  {
    var k := w.conn.value;
    SafeAppend(AllFrames(w), f, w.log.history);
    CoverageGrows(AllFrames(w), [f], w.log.history, k.reader.cursor);
    assert AllFrames(w) + [f] == w.past + (k.produced + [f]);
  }

  lemma DisconnectKeepsInvariant(w: World)
    requires Invariant(w) && w.conn.Some?
    ensures Invariant(Apply(w, Disconnect))
  {
    assert Received(w) == AllFrames(w)[..|w.past| + w.conn.value.delivered];
    SafePrefix(AllFrames(w), |w.past| + w.conn.value.delivered, w.log.history);
  }

  lemma {:induction false} StepKeepsInvariant(w: World, step: Step, c: Contract)
    requires Invariant(w) && Enabled(w, step, c)
    ensures Invariant(Apply(w, step))
  {
    match step {
      case Append(e) => AppendKeepsInvariant(w, e);
      case Connect(withId, s, now) => ConnectKeepsInvariant(w, withId, s, now, c);
      case Finish(s, clock) => FinishKeepsInvariant(w, s, clock, c);
      case Refuse(f) => RefuseKeepsInvariant(w, f, c);
      case Disconnect => DisconnectKeepsInvariant(w);
      case Delete(_) =>
      case ReadEvents(_) =>
      case ReadLatest =>
      case Deliver =>
    }
  }

  lemma {:induction false} RunInvariant(session: string, steps: seq<Step>, c: Contract)
    requires Legal(session, steps, c)
    ensures Invariant(After(session, steps))
  {
    if steps != [] {
      RunInvariant(session, steps[..|steps| - 1], c);
      StepKeepsInvariant(After(session, steps[..|steps| - 1]), steps[|steps| - 1], c);
    }
  }

  /** No loss across reconnects. After every interleaving of appends, deletes, reads, deliveries
      and disconnects, each event ever appended up to the client's resume point was sent, is
      excluded from transport, or is covered by a received snapshot. */
  lemma {:induction false} NoLoss(session: string, steps: seq<Step>, c: Contract)
    requires Legal(session, steps, c)
    ensures var w := After(session, steps);
      LastId(Received(w)).Some? ==> CoveredUpTo(Received(w), w.log.history, LastId(Received(w)).value)
  {
    RunInvariant(session, steps, c);
    var w := After(session, steps);
    assert AllFrames(w)[..|Received(w)|] == Received(w);
    SafePrefix(AllFrames(w), |Received(w)|, w.log.history);
    SafeResume(Received(w), w.log.history);
  }
}
