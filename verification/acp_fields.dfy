/** Where the bridge reads a field from: for each, the places in order of preference. */
module AcpFields {
  import opened PyText
  import opened PyJson
  import opened AcpContent
  import opened AcpBridge

  /** The first of the values that is set, or the last one. */
  function FirstOf(values: seq<Json>): (r: Json)
    requires values != []
    ensures r in values
    ensures Truthy(r) <==> exists v <- values :: Truthy(v)
  {
    if |values| == 1 || Truthy(values[0]) then values[0] else FirstOf(values[1..])
  }

  lemma FirstOfTwo(a: Json, b: Json)
    ensures Or(a, b) == FirstOf([a, b])
  {
    assert [a, b][1..] == [b];
  }

  lemma FirstOfThree(a: Json, b: Json, c: Json)
    ensures Or(Or(a, b), c) == FirstOf([a, b, c])
  {
    assert [a, b, c][1..] == [b, c];
    FirstOfTwo(b, c);
  }

  lemma FirstOfFour(a: Json, b: Json, c: Json, d: Json)
    ensures Or(Or(Or(a, b), c), d) == FirstOf([a, b, c, d])
  {
    hide Truthy;
    assert [a, b, c, d][1..] == [b, c, d];
    FirstOfThree(b, c, d);
  }

  lemma FirstOfFive(a: Json, b: Json, c: Json, d: Json, e: Json)
    ensures Or(Or(Or(Or(a, b), c), d), e) == FirstOf([a, b, c, d, e])
  {
    hide Truthy;
    assert [a, b, c, d, e][1..] == [b, c, d, e];
    FirstOfFour(b, c, d, e);
  }

  /** An event's data: its `data` object, else its `payload` object, else nothing. */
  lemma {:induction false} DataExactly(event: Json)
    ensures event.Obj? && "data" in event.fields && event.fields["data"].Obj? ==> EventData(event) == event.fields["data"]
    ensures event.Obj? && ("data" in event.fields ==> !event.fields["data"].Obj?) && "payload" in event.fields && event.fields["payload"].Obj? ==>
      EventData(event) == event.fields["payload"]
    ensures event.Obj? && ("data" in event.fields ==> !event.fields["data"].Obj?) && ("payload" in event.fields ==> !event.fields["payload"].Obj?) ==>
      EventData(event) == Obj(map[])
  {
  }

  /** The run, kind and identity of an event, from the event before its data; a custom event has the kind
      it names. */
  lemma {:induction false} EventFieldsExactly(event: Json)
    ensures var data := EventData(event);
      var run := FirstOf([Get(event, "runId"), Get(event, "run_id"), Get(data, "runId"), Get(data, "run_id")]);
      var kind := FirstOf([Get(event, "type"), Get(data, "type")]);
      && EventRunId(event) == (if Truthy(run) then PyStr(run) else "")
      && EventKind(event) == (if kind == Str("custom_event") then FirstOf([Get(event, "name"), Get(data, "name")]) else kind)
      && EventIdentity(event) == FirstOf([Get(event, "eventId"), Get(event, "event_id"), Get(event, "seq")])
  {
    hide FirstOf, Get, EventData, PyStr, Truthy;
    var data := EventData(event);
    FirstOfFour(Get(event, "runId"), Get(event, "run_id"), Get(data, "runId"), Get(data, "run_id"));
    FirstOfTwo(Get(event, "type"), Get(data, "type"));
    FirstOfTwo(Get(event, "name"), Get(data, "name"));
    FirstOfThree(Get(event, "eventId"), Get(event, "event_id"), Get(event, "seq"));
    assert PyStr(Str("")) == "" by { EmptyText(); }
  }

  lemma EmptyText()
    ensures PyStr(Str("")) == ""
  {
  }

  /** The key of an interaction, whether it is still pending, and the status of a `done` event. */
  lemma {:induction false} StatusFieldsExactly(event: Json)
    ensures var data := EventData(event);
      var key := FirstOf([Get(data, "id"), Get(data, "approvalId"), Get(data, "interactionId")]);
      var status := FirstOf([Get(event, "status"), Get(data, "status")]);
      var done := FirstOf([Get(event, "status"), Get(data, "status"), Get(data, "state")]);
      && InteractionKey(event) == (if Truthy(key) then PyStr(key) else "")
      && (StillPending(event) <==>
            !Truthy(status) || PyStr(status) == "pending" || PyStr(status) == "waiting" || PyStr(status) == "open" || PyStr(status) == "requested")
      && DoneStatus(event) == (if Truthy(done) then PyStr(done) else "")
  {
    hide FirstOf, Get, EventData, PyStr, Truthy;
    var data := EventData(event);
    FirstOfThree(Get(data, "id"), Get(data, "approvalId"), Get(data, "interactionId"));
    FirstOfTwo(Get(event, "status"), Get(data, "status"));
    FirstOfThree(Get(event, "status"), Get(data, "status"), Get(data, "state"));
    assert PyStr(Str("")) == "" && PyStr(Str("pending")) == "pending" by { EmptyText(); PendingText(); }
  }

  lemma PendingText()
    ensures PyStr(Str("pending")) == "pending"
  {
  }

  /** The run a snapshot reports on. */
  lemma {:induction false} SnapshotFieldsExactly(data: Json)
    ensures var run := SnapshotRun(data);
      && run == FirstOf([Get(data, "currentRun"), Obj(map[])])
      && SnapshotRunId(data) == FirstOf([Get(run, "id"), Get(run, "runId")])
  {
    hide FirstOf, Get;
    FirstOfTwo(Get(data, "currentRun"), Obj(map[]));
    FirstOfTwo(Get(SnapshotRun(data), "id"), Get(SnapshotRun(data), "runId"));
  }
}
