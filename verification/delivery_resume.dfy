/** What a connection owes the client that opened it: where it resumes, and exactly what one
    iteration sends, in terms of the page and not of the reader's own functions. */
module DeliveryResume {
  import opened PyText
  import opened SessionEvents
  import opened DeliveryWorld
  import opened DeliveryOrder
  import Sse

  // One iteration.

  /** The page holds events in increasing order, all after the cursor. */
  ghost predicate PageAfter(cursor: nat, events: seq<Event>) {
    && (forall i :: 0 <= i < |events| ==> cursor < events[i].seqNo)
    && (forall i, j :: 0 <= i < j < |events| ==> events[i].seqNo < events[j].seqNo)
  }

  /** No number is missing between the cursor and the end of the page. */
  ghost predicate NoHole(cursor: nat, events: seq<Event>) {
    forall i :: 0 <= i < |events| ==> events[i].seqNo == cursor + 1 + i
  }

  /** The events of a page that may be sent, in order. */
  function Visible(events: seq<Event>): seq<Out> {
    if events == [] then []
    else Visible(events[..|events| - 1])
         + if Hidden(events[|events| - 1]) then [] else [RuntimeFrame(events[|events| - 1])]
  }

  lemma {:induction false} JumpsExactly(cursor: nat, events: seq<Event>)
    requires PageAfter(cursor, events)
    ensures Jumps(cursor, events) <==> !NoHole(cursor, events)
    decreases |events|
  {
    if events != [] && events[0].seqNo == cursor + 1 {
      JumpsExactly(cursor + 1, events[1..]);
      assert NoHole(cursor + 1, events[1..]) ==> NoHole(cursor, events) by {
        if NoHole(cursor + 1, events[1..]) {
          forall i | 0 <= i < |events| ensures events[i].seqNo == cursor + 1 + i {
            if i > 0 { assert events[1..][i - 1] == events[i]; }
          }
        }
      }
      if NoHole(cursor, events) {
        assert forall i :: 0 <= i < |events[1..]| ==> events[1..][i] == events[i + 1];
      }
    }
  }

  lemma {:induction false} VisibleFront(events: seq<Event>)
    requires events != []
    ensures Visible(events) == (if Hidden(events[0]) then [] else [RuntimeFrame(events[0])]) + Visible(events[1..])
  {
    hide Hidden;
    if |events| > 1 {
      var init := events[..|events| - 1];
      VisibleFront(init);
      assert init[1..] == events[1..][..|events| - 2];
    }
  }

  lemma {:induction false} ReplayExactly(cursor: nat, events: seq<Event>)
    requires PageAfter(cursor, events)
    ensures ReplayFrames(cursor, events) == Visible(events)
    ensures ReplayCursor(cursor, events) == if events == [] then cursor else events[|events| - 1].seqNo
    decreases |events|
  {
    hide Hidden;
    if events != [] {
      ReplayExactly(events[0].seqNo, events[1..]);
      VisibleFront(events);
    }
  }

  /** What an iteration does with a page read after the cursor, in full. A page with a hole, and an empty
      page while the log is ahead, are answered by one recovery snapshot stamped with the new cursor.
      Otherwise every event that may be sent is sent, in order, and the cursor ends on the page's last
      event; a snapshot stamped with its own position follows when events are unflushed and the last one
      is half a second old. A heartbeat with the cursor ends the iteration when twelve seconds passed. */
  lemma {:induction false} IterationExactly(r: Reader, events: seq<Event>, latest: nat, s: Snapshot, clock: Clock)
    requires PageAfter(r.cursor, events)
    ensures var (reader, sent) := Poll(r, events, latest, s, clock);
      var recovery := !NoHole(r.cursor, events) || (events == [] && latest > r.cursor);
      var unflushed := r.dirty || Visible(events) != [];
      var flush := !recovery && unflushed && clock.flushCheck - r.snapshotAt >= 0.5;
      var beat := clock.beatCheck - r.heartbeatAt >= 12.0;
      var cursor := if recovery then Max(r.cursor, s.latestSeq) else if events == [] then r.cursor else events[|events| - 1].seqNo;
      && reader == Reader(cursor,
                          if recovery then r.dirty else unflushed && !flush,
                          if recovery || flush then clock.snapshotTaken else r.snapshotAt,
                          if beat then clock.beatTaken else r.heartbeatAt)
      && sent == (if recovery then [SnapshotFrame(s, true, cursor)] else Visible(events))
               + (if flush then [SnapshotFrame(s, false, if s.latestSeq > 0 then s.latestSeq else cursor)] else [])
               + (if beat then [HeartbeatFrame(cursor)] else [])
  {
    hide Visible, Jumps, ReplayFrames, ReplayCursor, NoHole, PageAfter;
    JumpsExactly(r.cursor, events);
    ReplayExactly(r.cursor, events);
    EmptyHasNoHole(r.cursor);
  }

  lemma EmptyHasNoHole(cursor: nat)
    ensures NoHole(cursor, [])
  {
  }

  // Resuming.

  /** How the current connection was opened: the last id the client had received and sent along, if any,
      and the snapshot it was opened with. */
  datatype Opening = Opening(resume: Option<nat>, snapshot: Snapshot)

  function LastOpening(session: string, steps: seq<Step>): Option<Opening> {
    if steps == [] then None
    else match steps[|steps| - 1]
      case Connect(withId, s, _) =>
        Some(Opening(if withId then LastId(Received(After(session, steps[..|steps| - 1]))) else None, s))
      case Disconnect => None
      case _ => LastOpening(session, steps[..|steps| - 1])
  }

  /** A client resumes after the id it sent when the log has got that far; otherwise, and without an id,
      it starts at the snapshot. */
  function ResumePoint(o: Opening): nat {
    if o.resume.Some? && 0 < o.resume.value <= o.snapshot.latestSeq then o.resume.value else o.snapshot.latestSeq
  }

  predicate Recovers(f: Out, n: nat) { f.SnapshotFrame? && f.recovery && n <= f.state.latestSeq }

  /** Event `n` was dealt with on this connection: it is excluded from transport or was sent, or a
      recovery snapshot of this connection reaches it. */
  ghost predicate Handled(frames: seq<Out>, history: map<nat, Event>, n: nat) {
    || (n in history && (Hidden(history[n]) || RuntimeFrame(history[n]) in frames))
    || (exists f <- frames :: Recovers(f, n))
  }

  ghost predicate HandledFrom(frames: seq<Out>, history: map<nat, Event>, start: nat, cursor: nat) {
    && start <= cursor
    && (forall n :: start < n <= cursor ==> Handled(frames, history, n))
    && (forall f <- frames :: f.RuntimeFrame? ==> f.event.seqNo > start && !Hidden(f.event))
  }

  lemma HandledGrows(frames: seq<Out>, more: seq<Out>, history: map<nat, Event>, n: nat)
    requires Handled(frames, history, n)
    ensures Handled(frames + more, history, n)
  {
    hide Hidden, Recovers;
    assert forall f :: f in frames ==> f in frames + more;
  }

  /** Further frames that are no hidden or old events, and deal with the numbers up to the new cursor. */
  lemma HandledAppend(frames: seq<Out>, more: seq<Out>, history: map<nat, Event>, start: nat, cursor: nat, next: nat)
    requires HandledFrom(frames, history, start, cursor) && cursor <= next
    requires forall f <- more :: f.RuntimeFrame? ==> f.event.seqNo > start && !Hidden(f.event)
    requires forall n :: cursor < n <= next ==> Handled(more, history, n)
    ensures HandledFrom(frames + more, history, start, next)
  {
    hide Hidden;
    forall n | start < n <= next ensures Handled(frames + more, history, n) {
      if n <= cursor {
        HandledGrows(frames, more, history, n);
      } else {
        assert Handled(more, history, n);
        assert forall f :: f in more ==> f in frames + more;
      }
    }
  }

  lemma {:induction false} VisibleMembers(events: seq<Event>, f: Out)
    ensures f in Visible(events) <==> f.RuntimeFrame? && f.event in events && !Hidden(f.event)
  {
    hide Hidden;
    if events != [] {
      VisibleMembers(events[..|events| - 1], f);
      assert events == events[..|events| - 1] + [events[|events| - 1]];
    }
  }

  lemma PollHandles(frames: seq<Out>, log: Log, r: Reader, events: seq<Event>, latest: nat, s: Snapshot, clock: Clock, start: nat)
    requires HandledFrom(frames, log.history, start, r.cursor) && PageKnown(log, r.cursor, events)
    ensures var (reader, sent) := Poll(r, events, latest, s, clock); HandledFrom(frames + sent, log.history, start, reader.cursor)
  {
    hide HandledFrom, Handled, Hidden, Poll;
    assert PageAfter(r.cursor, events) by { PageIsAfter(log, r.cursor, events); }
    IterationExactly(r, events, latest, s, clock);
    var (reader, sent) := Poll(r, events, latest, s, clock);
    var recovery := !NoHole(r.cursor, events) || (events == [] && latest > r.cursor);
    var head := if recovery then [SnapshotFrame(s, true, reader.cursor)] else Visible(events);
    var tail := sent[|head|..];
    assert sent == head + tail;
    HeadHandles(log, r.cursor, events, s, recovery, reader.cursor, tail, sent);
    StartBelow(frames, log.history, start, r.cursor);
    assert forall f <- sent :: f.RuntimeFrame? ==> f.event.seqNo > start && !Hidden(f.event);
    assert forall n :: r.cursor < n <= reader.cursor ==> Handled(sent, log.history, n);
    HandledAppend(frames, sent, log.history, start, r.cursor, reader.cursor);
  }

  lemma StartBelow(frames: seq<Out>, history: map<nat, Event>, start: nat, cursor: nat)
    requires HandledFrom(frames, history, start, cursor)
    ensures start <= cursor
  {
  }

  lemma PageIsAfter(log: Log, cursor: nat, events: seq<Event>)
    requires PageKnown(log, cursor, events)
    ensures PageAfter(cursor, events)
  {
    assert forall i :: 0 <= i < |events| ==> events[i] in events;
  }

  /** The frames of an iteration before its flush and heartbeat deal with the numbers up to the new cursor. */
  lemma HeadHandles(log: Log, cursor: nat, events: seq<Event>, s: Snapshot, recovery: bool, next: nat, tail: seq<Out>, sent: seq<Out>)
    requires PageKnown(log, cursor, events) && (recovery || NoHole(cursor, events))
    requires next == if recovery then Max(cursor, s.latestSeq) else if events == [] then cursor else events[|events| - 1].seqNo
    requires sent == (if recovery then [SnapshotFrame(s, true, next)] else Visible(events)) + tail
    requires forall f <- tail :: !f.RuntimeFrame?
    ensures cursor <= next
    ensures forall f <- sent :: f.RuntimeFrame? ==> f.event.seqNo > cursor && !Hidden(f.event)
    ensures forall n :: cursor < n <= next ==> Handled(sent, log.history, n)
  {
    hide Hidden;
    PageIsAfter(log, cursor, events);
    var head := if recovery then [SnapshotFrame(s, true, next)] else Visible(events);
    assert forall f :: f in head ==> f in sent;
    forall f | f in sent && f.RuntimeFrame? ensures f.event.seqNo > cursor && !Hidden(f.event) {
      VisibleMembers(events, f);
    }
    forall n | cursor < n <= next ensures Handled(sent, log.history, n) {
      if recovery {
        assert Recovers(head[0], n) && head[0] in sent;
      } else {
        var e := events[n - cursor - 1];
        assert e.seqNo == n && e in events;
        VisibleMembers(events, RuntimeFrame(e));
      }
    }
  }

  // The invariant over runs.

  ghost predicate ResumesAt(w: World, o: Opening) {
    w.conn.Some? ==>
      var k := w.conn.value;
      && k.produced != [] && k.produced[0] == SnapshotFrame(o.snapshot, false, o.snapshot.latestSeq)
      && HandledFrom(k.produced, w.log.history, ResumePoint(o), k.reader.cursor)
  }

  lemma OpenResumes(w: World, withId: bool, s: Snapshot, now: real)
    ensures var o := Opening(if withId then LastId(Received(w)) else None, s);
      ResumesAt(Apply(w, Connect(withId, s, now)), o)
  {
    var last := LastId(Received(w));
    if withId && last.Some? {
      Sse.EventIdRoundTrip(w.session, last.value, w.session);
    } else {
      ResumeAtZero(w.session);
    }
    assert Sse.ResumeCursor(ResumeHeader(w, withId), w.session) == if withId && last.Some? then last.value else 0;
  }

  lemma AppendHandles(frames: seq<Out>, log: Log, e: Event, start: nat, cursor: nat)
    requires LogInvariant(log) && e.seqNo == log.top + 1 && HandledFrom(frames, log.history, start, cursor)
    ensures HandledFrom(frames, log.history[e.seqNo := e], start, cursor)
  {
    hide Hidden, Recovers;
    var history := log.history[e.seqNo := e];
    forall n | start < n <= cursor ensures Handled(frames, history, n) {
      assert Handled(frames, log.history, n);
    }
  }

  lemma StepResumes(w: World, step: Step, c: Contract, o: Opening)
    requires Invariant(w) && Enabled(w, step, c) && ResumesAt(w, o) && w.conn.Some? && !step.Disconnect?
    ensures ResumesAt(Apply(w, step), o)
  {
    hide HandledFrom, Invariant, Poll, TakesSnapshot, ValidPage, ValidSnapshot, LastId;
    var k := w.conn.value;
    match step {
      case Append(e) =>
        LogKnown(w);
        AppendHandles(k.produced, w.log, e, ResumePoint(o), k.reader.cursor);
      case Finish(s, clock) =>
        PageOf(w);
        PollHandles(k.produced, w.log, k.reader, k.phase.page, k.phase.latest, s, clock, ResumePoint(o));
      case Refuse(f) =>
        RefuseHandles(k.produced, f, w.log.history, ResumePoint(o), k.reader.cursor);
      case _ =>
    }
  }

  lemma RefuseHandles(frames: seq<Out>, f: Out, history: map<nat, Event>, start: nat, cursor: nat)
    requires HandledFrom(frames, history, start, cursor) && f.CodeFrame?
    ensures HandledFrom(frames + [f], history, start, cursor)
  {
    HandledAppend(frames, [f], history, start, cursor, cursor);
  }

  lemma PageOf(w: World)
    requires Invariant(w) && w.conn.Some? && w.conn.value.phase.GotPage?
    ensures PageKnown(w.log, w.conn.value.reader.cursor, w.conn.value.phase.page)
  {
  }

  lemma {:induction false} RunResumes(session: string, steps: seq<Step>, c: Contract)
    requires Legal(session, steps, c) && After(session, steps).conn.Some?
    ensures LastOpening(session, steps).Some? && ResumesAt(After(session, steps), LastOpening(session, steps).value)
  {
    hide Apply, Enabled, ResumesAt, Invariant;
    if steps == [] {
      assert false;
    } else {
      var before, step := steps[..|steps| - 1], steps[|steps| - 1];
      if step.Connect? {
        OpenResumes(After(session, before), step.withId, step.state, step.now);
      } else {
        StayedOpen(After(session, before), step, c);
        RunResumes(session, before, c);
        RunInvariant(session, before, c);
        StepResumes(After(session, before), step, c, LastOpening(session, before).value);
      }
    }
  }

  lemma StayedOpen(w: World, step: Step, c: Contract)
    requires Apply(w, step).conn.Some? && !step.Connect?
    ensures w.conn.Some? && !step.Disconnect?
  {
    hide Poll;
  }

  /** Resuming skips nothing and repeats nothing. Over every run: a connection starts with the snapshot
      it was opened with; from the id the client sent, when the log has got that far, and from the
      snapshot otherwise, every event up to the connection's cursor is excluded from transport, was sent
      on this connection, or lies under a recovery snapshot of this connection; and every event it sent
      lies after that point and is not excluded. */
  lemma {:induction false} ResumptionIsExact(session: string, steps: seq<Step>, c: Contract)
    requires Legal(session, steps, c) && After(session, steps).conn.Some?
    ensures LastOpening(session, steps).Some?
    ensures var o, w := LastOpening(session, steps).value, After(session, steps);
      var k, start := w.conn.value, ResumePoint(o);
      && k.produced != [] && k.produced[0] == SnapshotFrame(o.snapshot, false, o.snapshot.latestSeq)
      && start <= k.reader.cursor
      && (forall n :: start < n <= k.reader.cursor ==> Handled(k.produced, w.log.history, n))
      && (forall f <- k.produced :: f.RuntimeFrame? ==> f.event.seqNo > start && !Hidden(f.event))
  {
    hide Handled, Hidden, After, Legal, LastOpening;
    RunResumes(session, steps, c);
  }
}
