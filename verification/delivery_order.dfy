/** Order, gap recovery and snapshot flushing over the runs of `DeliveryWorld`. */
module DeliveryOrder {
  import opened PyText
  import opened SessionEvents
  import opened DeliveryWorld
  import Sse

  /** The log position a runtime or heartbeat frame reports. */
  function Mark(f: Out): Option<nat> {
    match f
    case RuntimeFrame(e) => Some(e.seqNo)
    case HeartbeatFrame(cursor) => Some(cursor)
    case SnapshotFrame(_, _, _) => None
    case CodeFrame(_, _) => None
  }

  ghost predicate MarksUpTo(frames: seq<Out>, bound: nat) {
    forall f <- frames :: Mark(f).Some? ==> Mark(f).value <= bound
  }

  /** Every runtime event has a larger sequence number than all runtime events and heartbeats before it. */
  ghost predicate Increasing(frames: seq<Out>) {
    frames != [] ==>
      var before, f := frames[..|frames| - 1], frames[|frames| - 1];
      Increasing(before) && (f.RuntimeFrame? ==> forall g <- before :: Mark(g).Some? ==> Mark(g).value < f.event.seqNo)
  }

  ghost predicate Ordered(frames: seq<Out>, cursor: nat) {
    Increasing(frames) && MarksUpTo(frames, cursor)
  }

  lemma {:induction false} IncreasingMeaning(frames: seq<Out>, i: nat, j: nat)
    requires Increasing(frames) && i < j < |frames| && frames[j].RuntimeFrame? && Mark(frames[i]).Some?
    ensures Mark(frames[i]).value < frames[j].event.seqNo
  {
    var before := frames[..|frames| - 1];
    if j < |frames| - 1 {
      IncreasingMeaning(before, i, j);
    } else {
      assert before[i] == frames[i] && before[i] in before;
    }
  }

  lemma {:induction false} IncreasingPrefix(frames: seq<Out>, k: nat)
    requires k <= |frames| && Increasing(frames)
    ensures Increasing(frames[..k])
  {
    if k < |frames| {
      assert frames[..|frames| - 1][..k] == frames[..k];
      IncreasingPrefix(frames[..|frames| - 1], k);
    } else {
      assert frames[..k] == frames;
    }
  }

  lemma OrderedAppend(frames: seq<Out>, cursor: nat, f: Out, next: nat)
    requires Ordered(frames, cursor) && cursor <= next
    requires f.RuntimeFrame? ==> cursor < f.event.seqNo
    requires Mark(f).Some? ==> Mark(f).value <= next
    ensures Ordered(frames + [f], next)
  {
    assert (frames + [f])[..|frames|] == frames;
  }

  lemma ReplayOneOrdered(frames: seq<Out>, cursor: nat, e: Event)
    requires Ordered(frames, cursor) && cursor < e.seqNo
    ensures Ordered(frames + if Hidden(e) then [] else [RuntimeFrame(e)], e.seqNo)
  {
    if Hidden(e) {
      assert frames + [] == frames;
    } else {
      OrderedAppend(frames, cursor, RuntimeFrame(e), e.seqNo);
    }
  }

  lemma {:induction false} ReplayOrdered(frames: seq<Out>, cursor: nat, events: seq<Event>)
    requires Ordered(frames, cursor)
    ensures Ordered(frames + ReplayFrames(cursor, events), ReplayCursor(cursor, events))
    ensures cursor <= ReplayCursor(cursor, events)
    decreases |events|
  {
    if events == [] {
      assert frames + [] == frames;
    } else if events[0].seqNo <= cursor {
      ReplayOrdered(frames, cursor, events[1..]);
    } else {
      var e := events[0];
      var sent := if Hidden(e) then [] else [RuntimeFrame(e)];
      ReplayOneOrdered(frames, cursor, e);
      ReplayOrdered(frames + sent, e.seqNo, events[1..]);
      assert frames + sent + ReplayFrames(e.seqNo, events[1..]) == frames + (sent + ReplayFrames(e.seqNo, events[1..]));
    }
  }

  /** The frames of an iteration before its heartbeat. */
  function PollBody(r: Reader, events: seq<Event>, latest: nat, s: Snapshot, clock: Clock): (Reader, seq<Out>) {
    Poll(r, events, latest, s, clock.(beatCheck := r.heartbeatAt))
  }

  lemma PollIsBodyThenBeat(r: Reader, events: seq<Event>, latest: nat, s: Snapshot, clock: Clock)
    ensures var (body, sent) := PollBody(r, events, latest, s, clock);
      Poll(r, events, latest, s, clock) == Beat(body, sent, clock)
  {
  }

  lemma PollOrdered(frames: seq<Out>, r: Reader, events: seq<Event>, latest: nat, s: Snapshot, clock: Clock)
    requires Ordered(frames, r.cursor)
    ensures var (reader, sent) := Poll(r, events, latest, s, clock);
      Ordered(frames + sent, reader.cursor) && r.cursor <= reader.cursor
  {
    var (body, sent) := PollBody(r, events, latest, s, clock);
    PollIsBodyThenBeat(r, events, latest, s, clock);
    assert Ordered(frames + sent, body.cursor) && r.cursor <= body.cursor by {
      if Gap(r.cursor, events, latest) {
        OrderedAppend(frames, r.cursor, SnapshotFrame(s, true, body.cursor), body.cursor);
      } else {
        ReplayOrdered(frames, r.cursor, events);
        var replayed := ReplayFrames(r.cursor, events);
        if sent != replayed {
          OrderedAppend(frames + replayed, body.cursor, sent[|sent| - 1], body.cursor);
          assert frames + replayed + [sent[|sent| - 1]] == frames + sent;
        }
      }
    }
    if clock.beatCheck - body.heartbeatAt >= 12.0 {
      OrderedAppend(frames + sent, body.cursor, HeartbeatFrame(body.cursor), body.cursor);
      assert frames + sent + [HeartbeatFrame(body.cursor)] == frames + (sent + [HeartbeatFrame(body.cursor)]);
    }
  }

  // Contiguity.

  /** Sequence number of the last runtime frame, unless a recovery snapshot came after it. */
  function Edge(frames: seq<Out>): Option<nat> {
    if frames == [] then None
    else match frames[|frames| - 1]
      case RuntimeFrame(e) => Some(e.seqNo)
      case SnapshotFrame(_, true, _) => None
      case _ => Edge(frames[..|frames| - 1])
  }

  ghost predicate OnlyHidden(history: map<nat, Event>, low: nat, high: nat) {
    forall n :: low < n < high ==> n in history && Hidden(history[n])
  }

  /** Between recovery snapshots, runtime events skip nothing but events excluded from transport. */
  ghost predicate Contiguous(frames: seq<Out>, history: map<nat, Event>) {
    frames != [] ==>
      var before, f := frames[..|frames| - 1], frames[|frames| - 1];
      Contiguous(before, history)
      && (f.RuntimeFrame? && Edge(before).Some? ==>
            Edge(before).value < f.event.seqNo && OnlyHidden(history, Edge(before).value, f.event.seqNo))
  }

  ghost predicate Follows(frames: seq<Out>, history: map<nat, Event>, cursor: nat) {
    && Contiguous(frames, history)
    && (Edge(frames).Some? ==> Edge(frames).value <= cursor && OnlyHidden(history, Edge(frames).value, cursor + 1))
  }

  lemma FollowsAppend(frames: seq<Out>, history: map<nat, Event>, cursor: nat, f: Out, next: nat)
    requires Follows(frames, history, cursor)
    requires f.RuntimeFrame? ==> next == f.event.seqNo == cursor + 1
    requires !f.RuntimeFrame? ==> next == cursor || (f.SnapshotFrame? && f.recovery)
    ensures Follows(frames + [f], history, next)
  {
    assert (frames + [f])[..|frames|] == frames;
  }

  lemma ReplayOneFollows(frames: seq<Out>, history: map<nat, Event>, cursor: nat, e: Event)
    requires Follows(frames, history, cursor)
    requires e.seqNo == cursor + 1 && e.seqNo in history && history[e.seqNo] == e
    ensures Follows(frames + if Hidden(e) then [] else [RuntimeFrame(e)], history, e.seqNo)
  {
    if Hidden(e) {
      assert frames + [] == frames;
    } else {
      FollowsAppend(frames, history, cursor, RuntimeFrame(e), e.seqNo);
    }
  }

  lemma {:induction false} ReplayFollows(frames: seq<Out>, log: Log, cursor: nat, events: seq<Event>)
    requires Follows(frames, log.history, cursor) && PageKnown(log, cursor, events) && !Jumps(cursor, events)
    ensures Follows(frames + ReplayFrames(cursor, events), log.history, ReplayCursor(cursor, events))
    decreases |events|
  {
    if events == [] {
      assert frames + [] == frames;
    } else {
      var e := events[0];
      PageHead(log, cursor, events);
      var sent := if Hidden(e) then [] else [RuntimeFrame(e)];
      ReplayOneFollows(frames, log.history, cursor, e);
      ReplayFollows(frames + sent, log, e.seqNo, events[1..]);
      assert frames + sent + ReplayFrames(e.seqNo, events[1..]) == frames + (sent + ReplayFrames(e.seqNo, events[1..]));
    }
  }

  lemma PollFollows(frames: seq<Out>, log: Log, r: Reader, events: seq<Event>, latest: nat, s: Snapshot, clock: Clock)
    requires Follows(frames, log.history, r.cursor) && PageKnown(log, r.cursor, events)
    ensures var (reader, sent) := Poll(r, events, latest, s, clock); Follows(frames + sent, log.history, reader.cursor)
  {
    var (body, sent) := PollBody(r, events, latest, s, clock);
    PollIsBodyThenBeat(r, events, latest, s, clock);
    assert Follows(frames + sent, log.history, body.cursor) by {
      if Gap(r.cursor, events, latest) {
        FollowsAppend(frames, log.history, r.cursor, SnapshotFrame(s, true, body.cursor), body.cursor);
      } else {
        ReplayFollows(frames, log, r.cursor, events);
        var replayed := ReplayFrames(r.cursor, events);
        if sent != replayed {
          FollowsAppend(frames + replayed, log.history, body.cursor, sent[|sent| - 1], body.cursor);
          assert frames + replayed + [sent[|sent| - 1]] == frames + sent;
        }
      }
    }
    if clock.beatCheck - body.heartbeatAt >= 12.0 {
      FollowsAppend(frames + sent, log.history, body.cursor, HeartbeatFrame(body.cursor), body.cursor);
      assert frames + sent + [HeartbeatFrame(body.cursor)] == frames + (sent + [HeartbeatFrame(body.cursor)]);
    }
  }

  lemma OnlyHiddenGrows(log: Log, e: Event, low: nat, high: nat)
    requires LogInvariant(log) && e.seqNo == log.top + 1 && OnlyHidden(log.history, low, high)
    ensures OnlyHidden(log.history[e.seqNo := e], low, high)
  {
    var history := log.history[e.seqNo := e];
    forall n | low < n < high ensures n in history && Hidden(history[n]) {
      assert n in log.history && Hidden(log.history[n]);
    }
  }

  lemma HistoryGrows(frames: seq<Out>, log: Log, e: Event, cursor: nat)
    requires LogInvariant(log) && e.seqNo == log.top + 1 && Follows(frames, log.history, cursor)
    ensures Follows(frames, log.history[e.seqNo := e], cursor)
  {
    ContiguousGrows(frames, log, e);
    if Edge(frames).Some? {
      OnlyHiddenGrows(log, e, Edge(frames).value, cursor + 1);
    }
  }

  lemma {:induction false} ContiguousGrows(frames: seq<Out>, log: Log, e: Event)
    requires LogInvariant(log) && e.seqNo == log.top + 1 && Contiguous(frames, log.history)
    ensures Contiguous(frames, log.history[e.seqNo := e])
  {
    if frames != [] {
      var before, f := frames[..|frames| - 1], frames[|frames| - 1];
      ContiguousGrows(before, log, e);
      if f.RuntimeFrame? && Edge(before).Some? {
        OnlyHiddenGrows(log, e, Edge(before).value, f.event.seqNo);
      }
    }
  }

  // Snapshot flushing.

  /** `latestSeq` of the last snapshot sent. */
  function LastSnapshot(frames: seq<Out>): nat {
    if frames == [] then 0
    else if frames[|frames| - 1].SnapshotFrame? then frames[|frames| - 1].state.latestSeq
    else LastSnapshot(frames[..|frames| - 1])
  }

  ghost predicate RuntimeUpTo(frames: seq<Out>, bound: nat) {
    forall f <- frames :: f.RuntimeFrame? ==> f.event.seqNo <= bound
  }

  /** A heartbeat changes neither the last snapshot nor the runtime events. */
  lemma BeatKeepsSnapshot(frames: seq<Out>, r: Reader, sent: seq<Out>, clock: Clock)
    ensures var beaten := frames + Beat(r, sent, clock).1;
      && LastSnapshot(beaten) == LastSnapshot(frames + sent)
      && forall n :: RuntimeUpTo(beaten, n) <==> RuntimeUpTo(frames + sent, n)
  {
    if clock.beatCheck - r.heartbeatAt >= 12.0 {
      var f := HeartbeatFrame(r.cursor);
      var beaten := frames + (sent + [f]);
      assert beaten == frames + sent + [f];
      assert beaten[..|frames + sent|] == frames + sent;
      assert forall g :: g in frames + sent ==> g in beaten;
    }
  }

  /** An iteration that takes a snapshot sends it last; one that takes none and leaves the reader
      clean has sent no runtime event and found the reader clean. */
  lemma PollSnapshot(frames: seq<Out>, r: Reader, events: seq<Event>, latest: nat, s: Snapshot, clock: Clock)
    ensures var (reader, sent) := Poll(r, events, latest, s, clock); var more := frames + sent;
      && (TakesSnapshot(r, events, latest, clock) ==> LastSnapshot(more) == s.latestSeq)
      && (!TakesSnapshot(r, events, latest, clock) && !reader.dirty ==>
            !r.dirty && LastSnapshot(more) == LastSnapshot(frames) && forall n :: RuntimeUpTo(more, n) <==> RuntimeUpTo(frames, n))
  {
    hide Gap, Beat;
    var (body, sent) := PollBody(r, events, latest, s, clock);
    PollIsBodyThenBeat(r, events, latest, s, clock);
    BeatKeepsSnapshot(frames, body, sent, clock);
    BeatDirty(body, sent, clock);
    BeatDirty(r, [], clock.(beatCheck := r.heartbeatAt));
    PollBodySnapshot(frames, r, events, latest, s, clock);
  }

  lemma BeatDirty(r: Reader, sent: seq<Out>, clock: Clock)
    ensures Beat(r, sent, clock).0.dirty == r.dirty
  {
  }

  lemma PollBodySnapshot(frames: seq<Out>, r: Reader, events: seq<Event>, latest: nat, s: Snapshot, clock: Clock)
    ensures var (body, sent) := PollBody(r, events, latest, s, clock);
      && (TakesSnapshot(r, events, latest, clock) ==> LastSnapshot(frames + sent) == s.latestSeq)
      && (!TakesSnapshot(r, events, latest, clock) && !body.dirty ==> !r.dirty && frames + sent == frames)
  {
    hide Gap;
    var sent := PollBody(r, events, latest, s, clock).1;
    if TakesSnapshot(r, events, latest, clock) {
      assert (frames + sent)[|frames + sent| - 1] == sent[|sent| - 1];
    }
  }

  /** What a finished iteration needs of its snapshot: if it leaves the reader clean, the snapshot
      reaches every runtime event sent. */
  ghost predicate Reaches(w: World, step: Step) {
    step.Finish? && w.conn.Some? && w.conn.value.phase.GotPage? ==>
      var k := w.conn.value;
      var (reader, sent) := Poll(k.reader, k.phase.page, k.phase.latest, step.snapshot, step.clock);
      TakesSnapshot(k.reader, k.phase.page, k.phase.latest, step.clock) && !reader.dirty ==>
        RuntimeUpTo(k.produced + sent, step.snapshot.latestSeq)
  }

  /** A reader that is not dirty has sent a snapshot that reaches every runtime event it sent. */
  ghost predicate CleanCovered(w: World) {
    w.conn.Some? && !w.conn.value.reader.dirty ==> RuntimeUpTo(w.conn.value.produced, LastSnapshot(w.conn.value.produced))
  }

  lemma FinishCoversExactly(w: World, s: Snapshot, clock: Clock)
    requires CleanCovered(w) && w.conn.Some? && w.conn.value.phase.GotPage?
    ensures CleanCovered(Apply(w, Finish(s, clock))) <==> Reaches(w, Finish(s, clock))
  {
    hide Poll, TakesSnapshot, RuntimeUpTo;
    var k := w.conn.value;
    PollSnapshot(k.produced, k.reader, k.phase.page, k.phase.latest, s, clock);
  }

  lemma StepCoversExactly(w: World, step: Step, c: Contract)
    requires CleanCovered(w) && Enabled(w, step, c)
    ensures CleanCovered(Apply(w, step)) <==> Reaches(w, step)
  {
    hide Poll, TakesSnapshot, ValidPage, ValidSnapshot;
    match step {
      case Finish(s, clock) => FinishCoversExactly(w, s, clock);
      case Refuse(f) =>
        var k := w.conn.value;
        assert (k.produced + [f])[..|k.produced|] == k.produced;
      case Connect(withId, s, now) =>
      case _ =>
    }
  }

  ghost predicate FlushesReach(session: string, steps: seq<Step>) {
    steps != [] ==>
      FlushesReach(session, steps[..|steps| - 1]) && Reaches(After(session, steps[..|steps| - 1]), steps[|steps| - 1])
  }

  ghost predicate AlwaysCleanCovered(session: string, steps: seq<Step>) {
    CleanCovered(After(session, steps)) && (steps != [] ==> AlwaysCleanCovered(session, steps[..|steps| - 1]))
  }

  /** The dirty flush is exactly as sound as its snapshots: over any run, with no assumption on
      snapshots, a clean reader is covered throughout if and only if every snapshot that left the
      reader clean reached the runtime events sent by then. */
  lemma {:induction false} CleanReaderIsCoveredExactly(session: string, steps: seq<Step>, c: Contract)
    requires Legal(session, steps, c)
    ensures AlwaysCleanCovered(session, steps) <==> FlushesReach(session, steps)
  {
    hide CleanCovered, Reaches, Apply, Enabled;
    if steps == [] {
      assert CleanCovered(Initial(session)) by { InitialCovered(session); }
    } else {
      var before := steps[..|steps| - 1];
      CleanReaderIsCoveredExactly(session, before, c);
      if AlwaysCleanCovered(session, before) {
        StepCoversExactly(After(session, before), steps[|steps| - 1], c);
      }
    }
  }

  lemma InitialCovered(session: string)
    ensures CleanCovered(Initial(session))
  {
  }

  // The cursor.

  lemma {:induction false} ReplayBounded(cursor: nat, events: seq<Event>, bound: nat)
    requires cursor <= bound && forall e <- events :: e.seqNo <= bound
    ensures cursor <= ReplayCursor(cursor, events) <= bound
    decreases |events|
  {
    if events != [] {
      assert events[0] in events;
      ReplayBounded(Max(cursor, events[0].seqNo), events[1..], bound);
    }
  }

  /** When a poll moves the cursor: a gap exactly when its snapshot is ahead, a page without a gap
      exactly when it is not empty. */
  lemma PollProgressExactly(r: Reader, events: seq<Event>, latest: nat, s: Snapshot, clock: Clock)
    requires forall e <- events :: r.cursor < e.seqNo <= latest
    ensures var next := Poll(r, events, latest, s, clock).0.cursor;
      && (next > r.cursor <==> if Gap(r.cursor, events, latest) then s.latestSeq > r.cursor else events != [])
      && r.cursor <= next <= Max(Max(r.cursor, latest), s.latestSeq)
  {
    hide Gap;
    PollIsBodyThenBeat(r, events, latest, s, clock);
    ReplayBounded(r.cursor, events, Max(r.cursor, latest));
    if events != [] {
      assert events[0] in events;
      ReplayBounded(events[0].seqNo, events[1..], Max(r.cursor, latest));
    }
  }

  // The invariant of one connection.

  ghost predicate PageBounded(phase: Phase, top: nat, observed: nat) {
    && (phase.GotEvents? ==> forall e <- phase.events :: e.seqNo <= top)
    && (phase.GotPage? ==> phase.latest <= observed && forall e <- phase.page :: e.seqNo <= phase.latest)
  }

  ghost predicate ConnectionOrdered(k: Connection, log: Log, observed: nat) {
    && k.reader.cursor <= observed
    && PageBounded(k.phase, log.top, observed)
    && Ordered(k.produced, k.reader.cursor)
    && Follows(k.produced, log.history, k.reader.cursor)
  }

  ghost predicate OrderInvariant(w: World) {
    && w.observed <= w.log.top
    && (w.conn.Some? ==> ConnectionOrdered(w.conn.value, w.log, w.observed))
  }

  lemma OpenOrdered(resume: nat, s: Snapshot, now: real, log: Log, observed: nat)
    requires s.latestSeq <= observed
    ensures var (reader, f) := Open(resume, s, now);
      ConnectionOrdered(Connection(reader, [f], 0, Idle), log, observed)
  {
    var (reader, f) := Open(resume, s, now);
    assert [] + [f] == [f];
    OrderedAppend([], 0, f, reader.cursor);
    assert [f][..0] == [];
  }

  lemma FinishConnection(k: Connection, log: Log, observed: nat, s: Snapshot, clock: Clock)
    requires ConnectionOrdered(k, log, observed) && k.phase.GotPage?
    requires PageKnown(log, k.reader.cursor, k.phase.page)
    ensures var (reader, sent) := Poll(k.reader, k.phase.page, k.phase.latest, s, clock);
      ConnectionOrdered(Connection(reader, k.produced + sent, k.delivered, Idle), log,
        if TakesSnapshot(k.reader, k.phase.page, k.phase.latest, clock) then Max(observed, s.latestSeq) else observed)
  {
    hide Ordered, Follows;
    PollOrdered(k.produced, k.reader, k.phase.page, k.phase.latest, s, clock);
    PollFollows(k.produced, log, k.reader, k.phase.page, k.phase.latest, s, clock);
    PollWithin(k.reader, k.phase.page, k.phase.latest, s, clock);
  }

  /** Without a snapshot the cursor stays within what the page reported. */
  lemma PollWithin(r: Reader, events: seq<Event>, latest: nat, s: Snapshot, clock: Clock)
    requires forall e <- events :: e.seqNo <= latest
    ensures var next := Poll(r, events, latest, s, clock).0.cursor;
      next <= if TakesSnapshot(r, events, latest, clock) then Max(Max(r.cursor, latest), s.latestSeq) else Max(r.cursor, latest)
  {
    PollIsBodyThenBeat(r, events, latest, s, clock);
    ReplayBounded(r.cursor, events, Max(r.cursor, latest));
  }

  lemma FinishKeepsOrder(w: World, s: Snapshot, clock: Clock, c: Contract)
    requires Invariant(w) && OrderInvariant(w) && Enabled(w, Finish(s, clock), c)
    ensures OrderInvariant(Apply(w, Finish(s, clock)))
  {
    hide ConnectionOrdered, Poll, TakesSnapshot, PageKnown, Bounded, Safe, CoveredUpTo;
    FinishConnection(w.conn.value, w.log, w.observed, s, clock);
  }

  lemma RefuseKeepsOrder(w: World, f: Out, c: Contract)
    requires OrderInvariant(w) && Enabled(w, Refuse(f), c)
    ensures OrderInvariant(Apply(w, Refuse(f)))
  {
    var k := w.conn.value;
    OrderedAppend(k.produced, k.reader.cursor, f, k.reader.cursor);
    FollowsAppend(k.produced, w.log.history, k.reader.cursor, f, k.reader.cursor);
  }

  lemma ReadKeepsOrder(w: World, step: Step, c: Contract)
    requires Invariant(w) && OrderInvariant(w) && Enabled(w, step, c) && (step.ReadEvents? || step.ReadLatest?)
    ensures OrderInvariant(Apply(w, step))
  {
    hide Ordered, Follows, CoveredUpTo, Safe, Bounded;
  }

  lemma StepKeepsOrder(w: World, step: Step, c: Contract)
    requires Invariant(w) && OrderInvariant(w) && Enabled(w, step, c)
    ensures OrderInvariant(Apply(w, step))
  {
    hide Ordered, Follows, Invariant, ValidPage, Poll, TakesSnapshot;
    match step {
      case Append(e) =>
        if w.conn.Some? {
          assert LogInvariant(w.log) by { LogKnown(w); }
          AppendKeepsOrder(w, e);
        }
      case Connect(withId, s, now) =>
        OpenOrdered(Sse.ResumeCursor(ResumeHeader(w, withId), w.session), s, now, w.log, Apply(w, step).observed);
      case Finish(s, clock) => FinishKeepsOrder(w, s, clock, c);
      case Refuse(f) => RefuseKeepsOrder(w, f, c);
      case ReadEvents(_) => ReadKeepsOrder(w, step, c);
      case ReadLatest => ReadKeepsOrder(w, step, c);
      case Disconnect =>
      case Delete(_) =>
      case Deliver =>
    }
  }

  lemma LogKnown(w: World)
    requires Invariant(w)
    ensures LogInvariant(w.log)
  {
  }

  lemma AppendKeepsOrder(w: World, e: Event)
    requires OrderInvariant(w) && LogInvariant(w.log) && w.conn.Some? && e.seqNo == w.log.top + 1
    ensures OrderInvariant(Apply(w, Append(e)))
  {
    hide Ordered, Follows;
    HistoryGrows(w.conn.value.produced, w.log, e, w.conn.value.reader.cursor);
  }

  lemma {:induction false} RunOrder(session: string, steps: seq<Step>, c: Contract)
    requires Legal(session, steps, c)
    ensures OrderInvariant(After(session, steps))
  {
    hide Apply, Enabled;
    if steps != [] {
      hide Invariant, OrderInvariant;
      RunOrder(session, steps[..|steps| - 1], c);
      RunInvariant(session, steps[..|steps| - 1], c);
      StepKeepsOrder(After(session, steps[..|steps| - 1]), steps[|steps| - 1], c);
    }
  }

  /** On one connection, over any run and with no assumption on snapshots: runtime events arrive
      in strictly increasing order and, between recovery snapshots, without skipping any event
      that is not excluded from transport. */
  lemma {:induction false} ConnectionOrder(session: string, steps: seq<Step>, c: Contract)
    requires Legal(session, steps, c)
    ensures var w := After(session, steps);
      w.conn.Some? ==> Increasing(w.conn.value.produced) && Contiguous(w.conn.value.produced, w.log.history)
  {
    hide After, Increasing, Contiguous;
    RunOrder(session, steps, c);
  }

  /** When an iteration makes progress, over any run and with no assumption on snapshots: a gap
      recovery raises the cursor if and only if its snapshot is ahead of it, any other iteration if
      and only if the page has events; the cursor never falls. */
  lemma {:induction false} IterationProgressExactly(session: string, steps: seq<Step>, c: Contract, s: Snapshot, clock: Clock)
    requires Legal(session, steps, c) && Enabled(After(session, steps), Finish(s, clock), c)
    ensures var w := After(session, steps); var k := w.conn.value;
      var next := Apply(w, Finish(s, clock)).conn.value.reader.cursor;
      && next >= k.reader.cursor
      && (next > k.reader.cursor <==>
            if Gap(k.reader.cursor, k.phase.page, k.phase.latest) then s.latestSeq > k.reader.cursor else k.phase.page != [])
  {
    hide After, Gap, Ordered, Follows;
    RunOrder(session, steps, c);
    RunInvariant(session, steps, c);
    var k := After(session, steps).conn.value;
    PollProgressExactly(k.reader, k.phase.page, k.phase.latest, s, clock);
  }

  // Fresh snapshots.

  /** While snapshots are fresh, every finished iteration that had read a `latestSeq` above its
      cursor raised the cursor; in particular every gap recovery did. */
  lemma {:induction false} IterationProgress(session: string, steps: seq<Step>, c: Contract, s: Snapshot, clock: Clock)
    requires Legal(session, steps, c) && c.freshSnapshots && Enabled(After(session, steps), Finish(s, clock), c)
    ensures var w := After(session, steps); var k := w.conn.value;
      (k.phase.latest > k.reader.cursor || Gap(k.reader.cursor, k.phase.page, k.phase.latest))
        ==> Apply(w, Finish(s, clock)).conn.value.reader.cursor > k.reader.cursor
  {
    hide After, Ordered, Follows, Poll;
    IterationProgressExactly(session, steps, c, s, clock);
    RunOrder(session, steps, c);
    RunInvariant(session, steps, c);
    var k := After(session, steps).conn.value;
    if k.phase.page != [] { assert k.phase.page[0] in k.phase.page; }
  }

  lemma FreshReaches(w: World, step: Step, c: Contract)
    requires OrderInvariant(w) && Invariant(w) && Enabled(w, step, c) && c.freshSnapshots
    ensures Reaches(w, step)
  {
    hide Follows, Poll, TakesSnapshot, Increasing, Safe, Bounded, CoveredUpTo;
    if step.Finish? {
      var k, s := w.conn.value, step.snapshot;
      PollOrdered(k.produced, k.reader, k.phase.page, k.phase.latest, s, step.clock);
      PollWithin(k.reader, k.phase.page, k.phase.latest, s, step.clock);
      var (reader, sent) := Poll(k.reader, k.phase.page, k.phase.latest, s, step.clock);
      assert RuntimeUpTo(k.produced + sent, s.latestSeq);
    }
  }

  /** While snapshots are fresh, a reader that is not dirty has sent a snapshot that reaches every
      runtime event it sent. */
  lemma {:induction false} CleanReaderIsCovered(session: string, steps: seq<Step>, c: Contract)
    requires Legal(session, steps, c) && c.freshSnapshots
    ensures CleanCovered(After(session, steps))
  {
    hide Apply, Enabled, CleanCovered, Reaches;
    FreshFlushesReach(session, steps, c);
    CleanReaderIsCoveredExactly(session, steps, c);
  }

  lemma {:induction false} FreshFlushesReach(session: string, steps: seq<Step>, c: Contract)
    requires Legal(session, steps, c) && c.freshSnapshots
    ensures FlushesReach(session, steps)
  {
    hide Apply, Enabled, Reaches, OrderInvariant, Invariant;
    if steps != [] {
      var before := steps[..|steps| - 1];
      FreshFlushesReach(session, before, c);
      RunOrder(session, before, c);
      RunInvariant(session, before, c);
      FreshReaches(After(session, before), steps[|steps| - 1], c);
    }
  }

  // Order across connections.

  /** Every connection is opened with a snapshot that reaches what the client was told before. */
  ghost predicate OpensReach(session: string, steps: seq<Step>) {
    steps != [] ==>
      var before, step := After(session, steps[..|steps| - 1]), steps[|steps| - 1];
      OpensReach(session, steps[..|steps| - 1]) && (step.Connect? ==> MarksUpTo(Received(before), step.state.latestSeq))
  }

  ghost predicate GloballyOrdered(w: World) {
    Increasing(AllFrames(w)) && (w.conn.Some? ==> Ordered(AllFrames(w), w.conn.value.reader.cursor))
  }

  lemma ResumeAtZero(session: string)
    ensures Sse.ResumeCursor("0", session) == 0
  {
    ParsePrintedPlain(0);
    assert PrintNat(0) == "0";
    assert LastIndex("0", ':') == -1 by {
      assert "0"[..0] == "";
    }
  }

  lemma ConnectKeepsGlobal(w: World, s: Snapshot, now: real)
    requires GloballyOrdered(w) && w.conn.None? && MarksUpTo(Received(w), s.latestSeq)
    ensures GloballyOrdered(Apply(w, Connect(false, s, now)))
  {
    assert ResumeHeader(w, false) == "0";
    ResumeAtZero(w.session);
    OrderedAppend(w.past, s.latestSeq, SnapshotFrame(s, false, s.latestSeq), s.latestSeq);
  }

  lemma FinishKeepsGlobal(w: World, s: Snapshot, clock: Clock)
    requires GloballyOrdered(w) && w.conn.Some? && w.conn.value.phase.GotPage?
    ensures GloballyOrdered(Apply(w, Finish(s, clock)))
  {
    hide Increasing, MarksUpTo, Poll, TakesSnapshot;
    var k := w.conn.value;
    PollOrdered(AllFrames(w), k.reader, k.phase.page, k.phase.latest, s, clock);
    var sent := Poll(k.reader, k.phase.page, k.phase.latest, s, clock).1;
    assert AllFrames(w) + sent == AllFrames(Apply(w, Finish(s, clock)));
  }

  lemma StepKeepsGlobal(w: World, step: Step, c: Contract)
    requires GloballyOrdered(w) && Enabled(w, step, c) && c.neverResumes
    requires step.Connect? ==> MarksUpTo(Received(w), step.state.latestSeq)
    ensures GloballyOrdered(Apply(w, step))
  {
    hide Increasing, MarksUpTo, Poll, ValidPage, ValidSnapshot;
    match step {
      case Connect(_, s, now) => ConnectKeepsGlobal(w, s, now);
      case Finish(s, clock) => FinishKeepsGlobal(w, s, clock);
      case Refuse(f) =>
        OrderedAppend(AllFrames(w), w.conn.value.reader.cursor, f, w.conn.value.reader.cursor);
        assert AllFrames(w) + [f] == w.past + (w.conn.value.produced + [f]);
      case Disconnect =>
        var k := |Received(w)|;
        assert Received(w) == AllFrames(w)[..k];
        IncreasingPrefix(AllFrames(w), k);
      case _ =>
    }
  }

  lemma {:induction false} RunKeepsGlobal(session: string, steps: seq<Step>, c: Contract)
    requires Legal(session, steps, c) && c.neverResumes && OpensReach(session, steps)
    ensures GloballyOrdered(After(session, steps))
  {
    if steps != [] {
      hide Apply, Enabled, GloballyOrdered, MarksUpTo;
      RunKeepsGlobal(session, steps[..|steps| - 1], c);
      StepKeepsGlobal(After(session, steps[..|steps| - 1]), steps[|steps| - 1], c);
    }
  }

  /** On connections opened without an id, each with a snapshot that reaches what the client was told
      before, the order holds across all connections together: no runtime event is received after a
      frame that reported its position. */
  lemma {:induction false} OrderAcrossConnections(session: string, steps: seq<Step>, c: Contract)
    requires Legal(session, steps, c) && c.neverResumes && OpensReach(session, steps)
    ensures Increasing(Received(After(session, steps)))
  {
    hide After, MarksUpTo, Increasing;
    RunKeepsGlobal(session, steps, c);
    var w := After(session, steps);
    assert Received(w) == AllFrames(w)[..|Received(w)|];
    IncreasingPrefix(AllFrames(w), |Received(w)|);
  }
}
