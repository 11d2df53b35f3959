/** What each handler and each step of the message queue does to one row and one run, told from the
    state before it. */
module QueueHandlers {
  import opened PyText
  import opened MessageQueue

  /** The row waits in this session. */
  predicate Waits(item: Item, session: string) {
    item.session == session && item.state == Pending
  }

  /** The row was made for this client message and not cancelled. */
  predicate MadeFor(item: Item, session: string, clientId: Option<string>) {
    && clientId.Some? && Strip(clientId.value) != "" && item.session == session
    && item.clientId == Some(Strip(clientId.value)) && item.state != Cancelled
  }

  ghost predicate IsRetry(db: Db, session: string, clientId: Option<string>) {
    exists i :: 0 <= i < |db.items| && MadeFor(db.items[i], session, clientId)
  }

  /** A new row: the message as sent, behind all rows of its session. */
  ghost predicate NewRow(db: Db, runId: nat, clientId: Option<string>, content: string, row: Item)
    requires runId < |db.runs|
  {
    && row.session == db.runs[runId].session && row.runId == runId && row.content == content
    && row.clientId == (if clientId.Some? && Strip(clientId.value) != "" then Some(Strip(clientId.value)) else None)
    && row.state == Pending && !row.injected && row.consumedBy == None
    && (forall i :: 0 <= i < |db.items| && db.items[i].session == row.session ==> db.items[i].ordinal < row.ordinal)
    && (row.ordinal == 1 || exists i :: 0 <= i < |db.items| && db.items[i].session == row.session && db.items[i].ordinal + 1 == row.ordinal)
  }

  lemma {:induction false} MaxOrdinalIsOne(items: seq<Item>, session: string)
    ensures var m := MaxOrdinal(items, session);
      m == 0 || exists i :: 0 <= i < |items| && items[i].session == session && items[i].ordinal == m
  {
    if items != [] {
      var init := items[..|items| - 1];
      MaxOrdinalIsOne(init, session);
      if i :| 0 <= i < |init| && init[i].session == session && init[i].ordinal == MaxOrdinal(init, session) {
        assert items[i] == init[i];
      }
    }
  }

  /** Queueing a message: a retry changes nothing, any other message gets a new row at the end. */
  lemma {:induction false} QueueingExactly(db: Db, runId: nat, clientId: Option<string>, content: string)
    requires runId < |db.runs|
    ensures var after := Enqueue(db, runId, clientId, content);
      if IsRetry(db, db.runs[runId].session, clientId) then after == db
      else after.runs == db.runs && |after.items| == |db.items| + 1 && after.items[..|db.items|] == db.items
           && NewRow(db, runId, clientId, content, after.items[|db.items|])
  {
    hide Strip;
    var session := db.runs[runId].session;
    MaxOrdinalIsOne(db.items, session);
    forall i | 0 <= i < |db.items|
      ensures SameMessage(db.items[i], session, Normalized(clientId)) <==> MadeFor(db.items[i], session, clientId)
    { }
  }

  /** Only this row changes, from `was` to `now`. */
  predicate OnlyRow(db: Db, after: Db, i: nat, now: Item) {
    && i < |db.items| && after.runs == db.runs && |after.items| == |db.items| && after.items[i] == now
    && forall k :: 0 <= k < |db.items| && k != i ==> after.items[k] == db.items[k]
  }

  /** The text of a waiting row is replaced by the trimmed new text; blank text, a missing row and a row
      that no longer waits are refused, in this order, and change nothing. */
  lemma {:induction false} EditExactly(db: Db, i: nat, content: string)
    ensures var (after, reply) := Edit(db, i, content);
      && (reply == BadRequest <==> Strip(content) == "")
      && (reply == NotFound <==> Strip(content) != "" && i >= |db.items|)
      && (reply == Conflict <==> Strip(content) != "" && i < |db.items| && db.items[i].state != Pending)
      && (if reply == Done then OnlyRow(db, after, i, db.items[i].(content := Strip(content))) else after == db)
  {
    hide Strip;
  }

  /** A row that waits or is promoted is cancelled; any other is refused. */
  lemma {:induction false} CancelExactly(db: Db, i: nat)
    ensures var (after, reply) := Cancel(db, i);
      && reply != BadRequest && (reply == NotFound <==> i >= |db.items|)
      && (reply == Done <==> i < |db.items| && (db.items[i].state == Pending || db.items[i].state == Promoted))
      && (if reply == Done then OnlyRow(db, after, i, db.items[i].(state := Cancelled)) else after == db)
  {
  }

  /** A waiting row is promoted while the run it was queued behind is active; any other is refused. */
  lemma {:induction false} PromoteExactly(db: Db, i: nat)
    ensures var (after, reply) := Promote(db, i);
      && reply != BadRequest && (reply == NotFound <==> i >= |db.items|)
      && (reply == Done <==>
            && i < |db.items| && db.items[i].state == Pending
            && db.items[i].runId < |db.runs| && db.runs[db.items[i].runId].status == Active)
      && (if reply == Done then OnlyRow(db, after, i, db.items[i].(state := Promoted)) else after == db)
  {
  }

  /** Claiming takes the waiting row with the lowest ordinal, for this run and whole; without one it
      changes nothing. */
  lemma {:induction false} ClaimExactly(db: Db, session: string, run: nat)
    ensures var (after, next) := Claim(db, session, run);
      match next
      case None => after == db && forall k :: 0 <= k < |db.items| ==> !Waits(db.items[k], session)
      case Some(i) =>
        && i < |db.items| && Waits(db.items[i], session)
        && (forall k :: 0 <= k < |db.items| && Waits(db.items[k], session) ==> db.items[i].ordinal <= db.items[k].ordinal)
        && OnlyRow(db, after, i, db.items[i].(state := Consumed, consumedBy := Some(run)))
  {
    forall k | 0 <= k < |db.items| ensures Waits(db.items[k], session) <==> IsPending(db.items[k], session) { }
  }

  /** The promoted rows of the run that were not injected wait again; all other rows stay as they are. */
  lemma {:induction false} RequeueExactly(items: seq<Item>, session: string, run: nat)
    ensures var after := Requeue(items, session, run);
      && |after| == |items|
      && forall i :: 0 <= i < |items| ==>
        if items[i].session == session && items[i].runId == run && items[i].state == Promoted && !items[i].injected
        then after[i] == items[i].(state := Pending) else after[i] == items[i]
  {
  }

  // Steps of the whole system.

  ghost predicate SomeWaits(db: Db, session: string) {
    exists i :: 0 <= i < |db.items| && Waits(db.items[i], session)
  }

  lemma SomeWaitsExactly(db: Db, session: string)
    ensures NextPending(db.items, session).Some? <==> SomeWaits(db, session)
  {
    forall k | 0 <= k < |db.items| ensures Waits(db.items[k], session) <==> IsPending(db.items[k], session) { }
  }

  /** The run ends as reported. */
  predicate Ends(db: Db, r: nat, step: Step) {
    && r < |db.runs| && step.EndRun? && step.run == r && db.runs[r].scheduled && db.runs[r].status == Active
    && step.status != Active && step.status != CancelledRun(true)
  }

  /** The drain that made the run finds that it lost the claim. */
  predicate GivenUp(w: World, r: nat, step: Step) {
    step.DrainGiveUp? && step.drain in w.drains && w.drains[step.drain] == Lost(r)
  }

  /** A drain's run gets its row. */
  ghost predicate IsClaimedFor(w: World, r: nat, step: Step) {
    && step.DrainClaim? && step.drain in w.drains && w.drains[step.drain].Created? && w.drains[step.drain].run == r
    && SomeWaits(w.db, w.drains[step.drain].session)
  }

  /** What a step does to an existing run: its session stays, its status changes when it ends or is given
      up, and it is scheduled when its drain claims a row. */
  lemma {:induction false} RunAfterStep(w: World, step: Step, r: nat)
    requires r < |w.db.runs|
    ensures var runs := Apply(w, step).db.runs;
      && r < |runs| && runs[r].session == w.db.runs[r].session
      && (Ends(w.db, r, step) ==> runs[r].status == step.status)
      && (GivenUp(w, r, step) ==> runs[r].status == CancelledRun(true))
      && (!Ends(w.db, r, step) && !GivenUp(w, r, step) ==> runs[r].status == w.db.runs[r].status)
      && (runs[r].scheduled <==> w.db.runs[r].scheduled || IsClaimedFor(w, r, step))
  {
    hide NextPending, MaxOrdinal, Existing, Strip, SomeWaits;
    if step.DrainClaim? && step.drain in w.drains && w.drains[step.drain].Created? {
      SomeWaitsExactly(w.db, w.drains[step.drain].session);
    }
  }

  /** New runs: those a client starts are scheduled at once, those of a drain have yet to claim a row. */
  lemma {:induction false} NewRunExactly(w: World, step: Step)
    ensures var before, runs := w.db.runs, Apply(w, step).db.runs;
      && |before| <= |runs| <= |before| + 1
      && (|runs| > |before| <==> step.StartRun? || (step.DrainCreate? && step.drain in w.drains && w.drains[step.drain].Listed?))
      && (step.StartRun? ==> runs[|before|] == ChatRun(step.session, Active, true))
      && (step.DrainCreate? && |runs| > |before| ==>
            && runs[|before|] == ChatRun(w.drains[step.drain].session, Active, false)
            && Apply(w, step).drains == w.drains[step.drain := Created(w.drains[step.drain].session, |before|)])
  {
    hide NextPending, MaxOrdinal, Existing, Strip;
  }

  /** Guidance: a promoted row is marked as injected while its run is active; otherwise nothing happens. */
  lemma {:induction false} InjectionExactly(w: World, i: nat)
    ensures var after := Apply(w, InjectItem(i));
      && after.drains == w.drains && after.claims == w.claims && after.settled == w.settled
      && if i < |w.db.items| && w.db.items[i].state == Promoted
            && w.db.items[i].runId < |w.db.runs| && w.db.runs[w.db.items[i].runId].status == Active
         then OnlyRow(w.db, after.db, i, w.db.items[i].(state := Injected, injected := true))
         else after == w
  {
  }

  /** A drain starts exactly when a row waits in its session. */
  lemma {:induction false} ListingExactly(w: World, d: nat, session: string)
    ensures Apply(w, DrainList(d, session))
      == if d !in w.drains && SomeWaits(w.db, session) then w.(drains := w.drains[d := Listed(session)]) else w
  {
    hide NextPending, SomeWaits;
    SomeWaitsExactly(w.db, session);
  }
}
