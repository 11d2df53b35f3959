/** What the frames of a session stream say to the prompt that decodes them. */
module DeliveryFrames {
  import opened PyText
  import opened PyJson
  import opened SessionEvents
  import opened DeliveryEndToEnd
  import opened AcpContent
  import opened AcpBridge

  /** The events kept from clients: by their visibility, as session control, as desktop frames, or as
      diagnostics. */
  lemma {:induction false} HiddenExactly(e: Event)
    ensures Hidden(e) <==>
      || e.visibility == "internal" || e.visibility == "runtime" || e.visibility == "excluded" || e.visibility == "history_only"
      || e.topic == "session.connected" || e.topic == "session.subscribed" || e.topic == "extension.execution.completed"
      || (exists rest :: e.topic == "desktop_live." + rest)
      || (exists head :: e.topic == head + ".diagnostic")
  {
    var n := |".diagnostic"|;
    if StartsWith(e.topic, "desktop_live.") { assert e.topic == "desktop_live." + e.topic[13..]; }
    if EndsWith(e.topic, ".diagnostic") { assert e.topic == e.topic[..|e.topic| - n] + ".diagnostic"; }
    if head :| e.topic == head + ".diagnostic" { assert e.topic[|e.topic| - n..] == ".diagnostic"; }
    if rest :| e.topic == "desktop_live." + rest { assert e.topic[..13] == "desktop_live."; }
  }

  predicate Holds(j: Json, key: string, value: Json) {
    j.Obj? && key in j.fields && j.fields[key] == value
  }

  /** A runtime frame says everything its event says. */
  lemma {:induction false} RuntimeFrameExactly(e: Event)
    ensures var j := FrameEvent(RuntimeFrame(e));
      && Holds(j, "seq", Num(e.seqNo)) && Holds(j, "event_id", Str(e.eventId)) && Holds(j, "run_id", Str(e.runId))
      && Holds(j, "topic", Str(e.topic)) && Holds(j, "visibility", Str(e.visibility)) && Holds(j, "payload", Obj(e.payload))
      && EventData(j) == Obj(e.payload)
      && EventRunId(j) == (if e.runId != "" then e.runId
                           else if Truthy(Get(Obj(e.payload), "runId")) then PyStr(Get(Obj(e.payload), "runId"))
                           else if Truthy(Get(Obj(e.payload), "run_id")) then PyStr(Get(Obj(e.payload), "run_id")) else "")
      && (Get(Obj(e.payload), "type") != Str("custom_event") ==> EventKind(j) == Get(Obj(e.payload), "type"))
  {
  }

  /** A snapshot frame is a snapshot event whose data are the state, the sequence number it reports and,
      after a gap, the mark of a recovery. */
  lemma {:induction false} SnapshotFrameExactly(s: Snapshot, recovery: bool, id: nat)
    ensures var j := FrameEvent(SnapshotFrame(s, recovery, id));
      && EventKind(j) == Str("snapshot") && EventData(j).Obj? && Holds(EventData(j), "latestSeq", Num(s.latestSeq))
      && (recovery ==> Holds(EventData(j), "replayRecovery", Str("snapshot_gap")))
      && (forall key <- s.state :: key != "latestSeq" && key != "replayRecovery" ==> Holds(EventData(j), key, s.state[key]))
      && (!recovery ==> EventData(j).fields.Keys == s.state.Keys + {"latestSeq"})
      && (recovery ==> EventData(j).fields.Keys == s.state.Keys + {"latestSeq", "replayRecovery"})
  {
    var j := FrameEvent(SnapshotFrame(s, recovery, id));
    assert Get(j, "type") == Str("snapshot");
  }

  /** The name and the id of every frame on the wire. */
  lemma {:induction false} WireNamesExactly(f: Out)
    ensures var wire := ToSse(f);
      && (f.SnapshotFrame? ==> wire.name == "snapshot" && wire.seqNo == Some(f.id))
      && (f.RuntimeFrame? ==> wire.name == "runtime" && wire.seqNo == Some(f.event.seqNo))
      && (f.HeartbeatFrame? ==> wire.name == "heartbeat" && wire.seqNo == None)
      && (f.CodeFrame? ==> wire.name == f.name && wire.seqNo == None)
  {
  }

  /** A heartbeat is an event of no kind that reports the cursor; an error frame is an error event; any
      other code frame says its code. */
  lemma {:induction false} OtherFramesExactly(cursor: nat, name: string, code: string)
    ensures var j := FrameEvent(HeartbeatFrame(cursor));
      Holds(j, "seq", Num(cursor)) && Holds(j, "ok", Bool(true)) && j.fields.Keys == {"seq", "ok"} && EventKind(j) == Null
    ensures EventKind(FrameEvent(CodeFrame("error", code))) == Str("error")
    ensures name != "error" && name != "snapshot" ==> FrameEvent(CodeFrame(name, code)) == Obj(map["code" := Str(code)])
  {
  }
}
