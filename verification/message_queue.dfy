/** The queue of user messages that arrive while a chat run is active: its rows, the handlers that
    edit, promote and cancel them, and the drain that turns one row into a new run. */
module MessageQueue {
  import opened PyText

  datatype ItemState = Pending | Promoted | Consumed | Injected | Cancelled

  /** A row. Rows are numbered by position; `runId` is the run that was active when it was queued. */
  datatype Item = Item(
    session: string, runId: nat, clientId: Option<string>, content: string, ordinal: nat,
    state: ItemState, injected: bool, consumedBy: Option<nat>)

  /** `Active` stands for every status that is not terminal, `queued` included. */
  datatype RunStatus = Active | Completed | Failed | CancelledRun(claimLost: bool)

  /** `scheduled` is false between the drain's creation of a run and its claim. */
  datatype ChatRun = ChatRun(session: string, status: RunStatus, scheduled: bool)

  datatype Db = Db(items: seq<Item>, runs: seq<ChatRun>)

  // Queries.

  predicate IsPending(item: Item, session: string) { item.session == session && item.state.Pending? }

  /** The pending row of the session with the lowest ordinal. */
  function NextPending(items: seq<Item>, session: string): (next: Option<nat>)
    ensures next.Some? ==> next.value < |items| && IsPending(items[next.value], session)
    ensures next.Some? ==> forall i :: 0 <= i < |items| && IsPending(items[i], session) ==> items[next.value].ordinal <= items[i].ordinal
    ensures next.None? ==> forall i :: 0 <= i < |items| ==> !IsPending(items[i], session)
  {
    if items == [] then None
    else
      var last := |items| - 1;
      var before := NextPending(items[..last], session);
      if IsPending(items[last], session) && (before.None? || items[last].ordinal < items[before.value].ordinal)
      then Some(last) else before
  }

  function MaxOrdinal(items: seq<Item>, session: string): (m: nat)
    ensures forall i :: 0 <= i < |items| && items[i].session == session ==> items[i].ordinal <= m
  {
    if items == [] then 0
    else
      var before, last := MaxOrdinal(items[..|items| - 1], session), items[|items| - 1];
      if last.session == session && last.ordinal > before then last.ordinal else before
  }

  predicate SameMessage(item: Item, session: string, clientId: Option<string>) {
    clientId.Some? && item.session == session && item.clientId == clientId && !item.state.Cancelled?
  }

  /** The earliest row, not cancelled, for this client message. */
  function Existing(items: seq<Item>, session: string, clientId: Option<string>): (e: Option<nat>)
    ensures e.Some? ==> e.value < |items| && SameMessage(items[e.value], session, clientId)
    ensures e.None? ==> forall i :: 0 <= i < |items| ==> !SameMessage(items[i], session, clientId)
  {
    if items == [] then None
    else
      var before := Existing(items[..|items| - 1], session, clientId);
      if before.Some? then before
      else if SameMessage(items[|items| - 1], session, clientId) then Some(|items| - 1) else None
  }

  // Transactions and handlers, each one atomic.

  function Normalized(clientId: Option<string>): Option<string> {
    if clientId.None? || Strip(clientId.value) == "" then None else Some(Strip(clientId.value))
  }

  /** Queueing a message behind an active run; a retry finds the row it made before. */
  function Enqueue(db: Db, runId: nat, clientId: Option<string>, content: string): Db
    requires runId < |db.runs|
  {
    var session, client := db.runs[runId].session, Normalized(clientId);
    if Existing(db.items, session, client).Some? then db
    else db.(items := db.items + [Item(session, runId, client, content, MaxOrdinal(db.items, session) + 1, Pending, false, None)])
  }

  function SetItem(db: Db, i: nat, item: Item): Db
    requires i < |db.items|
  {
    db.(items := db.items[i := item])
  }

  /** Claiming the next pending row of a session for a run. */
  function Claim(db: Db, session: string, run: nat): (Db, Option<nat>) {
    match NextPending(db.items, session)
    case None => (db, None)
    case Some(i) => (SetItem(db, i, db.items[i].(state := Consumed, consumedBy := Some(run))), Some(i))
  }

  predicate Returns(item: Item, session: string, run: nat) {
    item.session == session && item.runId == run && item.state.Promoted? && !item.injected
  }

  /** Putting a completed run's promoted rows back. */
  function Requeue(items: seq<Item>, session: string, run: nat): (r: seq<Item>)
    ensures |r| == |items|
    ensures forall i :: 0 <= i < |items| ==> r[i] == if Returns(items[i], session, run) then items[i].(state := Pending) else items[i]
  {
    seq(|items|, i requires 0 <= i < |items| => if Returns(items[i], session, run) then items[i].(state := Pending) else items[i])
  }

  datatype Reply = Done | BadRequest | NotFound | Conflict

  function Edit(db: Db, i: nat, content: string): (Db, Reply) {
    if Strip(content) == "" then (db, BadRequest)
    else if i >= |db.items| then (db, NotFound)
    else if !db.items[i].state.Pending? then (db, Conflict)
    else (SetItem(db, i, db.items[i].(content := Strip(content))), Done)
  }

  function Cancel(db: Db, i: nat): (Db, Reply) {
    if i >= |db.items| then (db, NotFound)
    else if !(db.items[i].state in {Pending, Promoted}) then (db, Conflict)
    else (SetItem(db, i, db.items[i].(state := Cancelled)), Done)
  }

  function Promote(db: Db, i: nat): (Db, Reply) {
    if i >= |db.items| then (db, NotFound)
    else if !db.items[i].state.Pending? then (db, Conflict)
    else if !(db.items[i].runId < |db.runs| && db.runs[db.items[i].runId].status.Active?) then (db, Conflict)
    else (SetItem(db, i, db.items[i].(state := Promoted)), Done)
  }

  function SetStatus(db: Db, run: nat, status: RunStatus): Db
    requires run < |db.runs|
  {
    db.(runs := db.runs[run := db.runs[run].(status := status)])
  }

  /** The drain's run is created before it has a row. */
  function CreateRun(db: Db, session: string): Db {
    db.(runs := db.runs + [ChatRun(session, Active, false)])
  }

  /** Claiming for a drain's run; the run is scheduled when a row was claimed. */
  function ClaimRun(db: Db, session: string, run: nat): (Db, Option<nat>)
    requires run < |db.runs|
  {
    match Claim(db, session, run)
    case (_, None) => (db, None)
    case (claimed, Some(i)) => (claimed.(runs := db.runs[run := db.runs[run].(scheduled := true)]), Some(i))
  }

  function GiveUp(db: Db, run: nat): Db
    requires run < |db.runs|
  {
    SetStatus(db, run, CancelledRun(true))
  }

  // The database as the source updates it.

  class Database {
    var items: seq<Item>
    var runs: seq<ChatRun>

    constructor ()
      ensures Value() == Db([], [])
    {
      items, runs := [], [];
    }

    ghost function Value(): Db
      reads this
    {
      Db(items, runs)
    }

    method AddQueueItem(runId: nat, clientId: Option<string>, content: string)
      requires runId < |runs|
      modifies this`items
      ensures Value() == Enqueue(old(Value()), runId, clientId, content)
    {
      var session, client := runs[runId].session, Normalized(clientId);
      var top := 0;
      for i := 0 to |items|
        invariant Existing(items[..i], session, client).None?
        invariant top == MaxOrdinal(items[..i], session)
      {
        assert items[..i + 1][..i] == items[..i];
        if SameMessage(items[i], session, client) {
          ExistingStays(items, i + 1, session, client);
          return;
        }
        if items[i].session == session && items[i].ordinal > top { top := items[i].ordinal; }
      }
      assert items[..|items|] == items;
      items := items + [Item(session, runId, client, content, top + 1, Pending, false, None)];
    }

    method ClaimNextPending(session: string, run: nat) returns (claimed: Option<nat>)
      modifies this`items
      ensures (Value(), claimed) == Claim(old(Value()), session, run)
    {
      claimed := None;
      for i := 0 to |items|
        invariant claimed == NextPending(items[..i], session)
      {
        assert items[..i + 1][..i] == items[..i];
        if IsPending(items[i], session) && (claimed.None? || items[i].ordinal < items[claimed.value].ordinal) {
          claimed := Some(i);
        }
      }
      assert items[..|items|] == items;
      if claimed.Some? {
        items := items[claimed.value := items[claimed.value].(state := Consumed, consumedBy := Some(run))];
      }
    }

    method RequeuePromoted(session: string, run: nat)
      modifies this`items
      ensures items == Requeue(old(items), session, run)
    {
      ghost var before := items;
      for i := 0 to |items|
        invariant |items| == |before|
        invariant forall k :: 0 <= k < |items| ==> items[k] == if k < i then Requeue(before, session, run)[k] else before[k]
      {
        if Returns(items[i], session, run) {
          items := items[i := items[i].(state := Pending)];
        }
      }
    }

    /** The first half of a drain: a run is created if a message is waiting. */
    method BeginDrain(session: string) returns (run: Option<nat>)
      modifies this`runs
      ensures run == if NextPending(items, session).Some? then Some(|old(runs)|) else None
      ensures Value() == if run.Some? then CreateRun(old(Value()), session) else old(Value())
    {
      var pending := NextPending(items, session);
      if pending.None? { return None; }
      run := Some(|runs|);
      runs := runs + [ChatRun(session, Active, false)];
    }

    /** The second half, whatever happened since: the run gets a message or is cancelled. */
    method FinishDrain(session: string, run: nat) returns (item: Option<nat>)
      requires run < |runs|
      modifies this
      ensures var (claimed, next) := ClaimRun(old(Value()), session, run);
        item == next && Value() == if next.Some? then claimed else GiveUp(old(Value()), run)
    {
      item := ClaimNextPending(session, run);
      if item.None? {
        runs := runs[run := runs[run].(status := CancelledRun(true))];
        return;
      }
      runs := runs[run := runs[run].(scheduled := true)];
    }
  }

  lemma {:induction false} ExistingStays(items: seq<Item>, n: nat, session: string, clientId: Option<string>)
    requires n <= |items| && Existing(items[..n], session, clientId).Some?
    ensures Existing(items, session, clientId) == Existing(items[..n], session, clientId)
    decreases |items|
  {
    if n == |items| {
      assert items[..n] == items;
    } else {
      assert items[..|items| - 1][..n] == items[..n];
      ExistingStays(items[..|items| - 1], n, session, clientId);
    }
  }

  /** What one drain does when nothing else happens meanwhile. */
  function DrainAlone(db: Db, session: string): Db {
    if NextPending(db.items, session).None? then db else ClaimRun(CreateRun(db, session), session, |db.runs|).0
  }

  // All handlers and drains together.

  /** Where a drain is: it saw a pending row, created a run, claimed a row for it, or found none left
      and has yet to cancel, or has cancelled, its run. */
  datatype DrainAt =
    | Listed(session: string)
    | Created(session: string, run: nat)
    | Won(run: nat, item: nat)
    | Lost(run: nat)
    | GaveUp(run: nat)

  datatype Claimed = Claimed(item: nat, run: nat)

  /** `claims` records every claim, `settled` the completed runs whose post-run step has been done. */
  datatype World = World(db: Db, drains: map<nat, DrainAt>, claims: seq<Claimed>, settled: set<nat>)

  datatype Step =
    | StartRun(session: string)
    | EndRun(run: nat, status: RunStatus)
    | QueueMessage(run: nat, clientId: Option<string>, content: string)
    | EditItem(item: nat, content: string)
    | PromoteItem(item: nat)
    | CancelItem(item: nat)
    | InjectItem(item: nat)
    | PostRun(run: nat)
    | DrainList(drain: nat, session: string)
    | DrainCreate(drain: nat)
    | DrainClaim(drain: nat)
    | DrainGiveUp(drain: nat)

  function ClaimFor(w: World, d: nat, session: string, run: nat): World
    requires run < |w.db.runs|
  {
    match ClaimRun(w.db, session, run)
    case (_, None) => w.(drains := w.drains[d := Lost(run)])
    case (db, Some(i)) => w.(db := db, drains := w.drains[d := Won(run, i)], claims := w.claims + [Claimed(i, run)])
  }

  /** The post-run step: only a completed run gives its promoted rows back. */
  function AfterRun(w: World, run: nat): World
    requires run < |w.db.runs|
  {
    if w.db.runs[run].status.Completed?
    then w.(db := w.db.(items := Requeue(w.db.items, w.db.runs[run].session, run)), settled := w.settled + {run})
    else w
  }

  predicate CanEnd(db: Db, run: nat, status: RunStatus) {
    run < |db.runs| && db.runs[run].scheduled && db.runs[run].status.Active? && !status.Active? && status != CancelledRun(true)
  }

  /** Guidance reaches the run it was promoted for while that run is active. */
  predicate CanInject(db: Db, i: nat) {
    i < |db.items| && db.items[i].state.Promoted? && db.items[i].runId < |db.runs| && db.runs[db.items[i].runId].status.Active?
  }

  /** A step that is not enabled changes nothing. */
  function Apply(w: World, step: Step): World {
    match step
    case StartRun(session) => w.(db := w.db.(runs := w.db.runs + [ChatRun(session, Active, true)]))
    case EndRun(run, status) => if CanEnd(w.db, run, status) then w.(db := SetStatus(w.db, run, status)) else w
    case QueueMessage(run, clientId, content) =>
      if run < |w.db.runs| && w.db.runs[run].status.Active? then w.(db := Enqueue(w.db, run, clientId, content)) else w
    case EditItem(item, content) => w.(db := Edit(w.db, item, content).0)
    case PromoteItem(item) => w.(db := Promote(w.db, item).0)
    case CancelItem(item) => w.(db := Cancel(w.db, item).0)
    case InjectItem(item) =>
      if CanInject(w.db, item)
      then w.(db := SetItem(w.db, item, w.db.items[item].(state := Injected, injected := true))) else w
    case PostRun(run) => if run < |w.db.runs| then AfterRun(w, run) else w
    case DrainList(d, session) =>
      if d in w.drains || NextPending(w.db.items, session).None? then w else w.(drains := w.drains[d := Listed(session)])
    case DrainCreate(d) =>
      if d in w.drains && w.drains[d].Listed? then
        var session := w.drains[d].session;
        w.(db := CreateRun(w.db, session), drains := w.drains[d := Created(session, |w.db.runs|)])
      else w
    case DrainClaim(d) =>
      if d in w.drains && w.drains[d].Created? && w.drains[d].run < |w.db.runs|
      then ClaimFor(w, d, w.drains[d].session, w.drains[d].run) else w
    case DrainGiveUp(d) =>
      if d in w.drains && w.drains[d].Lost? && w.drains[d].run < |w.db.runs|
      then w.(db := GiveUp(w.db, w.drains[d].run), drains := w.drains[d := GaveUp(w.drains[d].run)]) else w
  }

  function Run(w: World, steps: seq<Step>): World {
    if steps == [] then w else Apply(Run(w, steps[..|steps| - 1]), steps[|steps| - 1])
  }

  const START := World(Db([], []), map[], [], {})

  // What is always true.

  ghost predicate RowOk(db: Db, item: Item) {
    && (item.state.Consumed? <==> item.consumedBy.Some?)
    && (item.state.Injected? <==> item.injected)
    && item.runId < |db.runs| && db.runs[item.runId].session == item.session
  }

  ghost predicate RowsOk(db: Db) {
    forall i :: 0 <= i < |db.items| ==> RowOk(db, db.items[i])
  }

  /** Two rows, neither cancelled, for one client message. */
  predicate SameClient(a: Item, b: Item) {
    !b.state.Cancelled? && SameMessage(a, b.session, b.clientId)
  }

  /** Within a session rows are in the order of their ordinals, and a client message has one row that
      is not cancelled. */
  ghost predicate OrderOk(items: seq<Item>) {
    && (forall i, j :: 0 <= i < j < |items| && items[i].session == items[j].session ==> items[i].ordinal < items[j].ordinal)
    && (forall i, j :: 0 <= i < j < |items| ==> !SameClient(items[i], items[j]))
  }

  predicate ClaimHolds(db: Db, c: Claimed) {
    c.item < |db.items| && c.run < |db.runs| && db.items[c.item].consumedBy == Some(c.run) && db.runs[c.run].scheduled
  }

  /** The claims are the consumed rows with their runs, each row and each run once. */
  ghost predicate ClaimsOk(db: Db, claims: seq<Claimed>) {
    && (forall k :: 0 <= k < |claims| ==> ClaimHolds(db, claims[k]))
    && (forall i :: 0 <= i < |db.items| && db.items[i].consumedBy.Some? ==> Claimed(i, db.items[i].consumedBy.value) in claims)
    && (forall k, l :: 0 <= k < l < |claims| ==> claims[k].item != claims[l].item && claims[k].run != claims[l].run)
  }

  predicate HasRun(d: DrainAt) { !d.Listed? }

  predicate DifferentRuns(a: DrainAt, b: DrainAt) {
    HasRun(a) && HasRun(b) ==> a.run != b.run
  }

  ghost predicate DrainOk(w: World, d: DrainAt) {
    match d
    case Listed(_) => true
    case Created(_, run) => run < |w.db.runs| && w.db.runs[run].status.Active? && !w.db.runs[run].scheduled
    case Won(run, item) => Claimed(item, run) in w.claims
    case Lost(run) => run < |w.db.runs| && w.db.runs[run].status.Active? && !w.db.runs[run].scheduled
    case GaveUp(run) => run < |w.db.runs| && w.db.runs[run].status == CancelledRun(true) && !w.db.runs[run].scheduled
  }

  ghost predicate DrainsOk(w: World) {
    && (forall d <- w.drains :: DrainOk(w, w.drains[d]))
    && (forall d, e :: d in w.drains && e in w.drains && d != e ==> DifferentRuns(w.drains[d], w.drains[e]))
  }

  /** A settled run is completed and has no promoted row. */
  ghost predicate SettledOk(w: World) {
    && (forall r <- w.settled :: r < |w.db.runs| && w.db.runs[r].status.Completed?)
    && (forall i :: 0 <= i < |w.db.items| && w.db.items[i].runId in w.settled ==> !w.db.items[i].state.Promoted?)
  }

  ghost predicate Sound(w: World) {
    RowsOk(w.db) && OrderOk(w.db.items) && ClaimsOk(w.db, w.claims) && DrainsOk(w) && SettledOk(w)
  }

  // Every step keeps it: first the steps that only write one row, then the steps on runs, then the rest.

  /** A row update that claims nothing and promotes nothing for a finished run. */
  ghost predicate Harmless(w: World, i: nat, item: Item)
    requires i < |w.db.items|
  {
    var was := w.db.items[i];
    && RowOk(w.db, item) && item.consumedBy == was.consumedBy && item.runId == was.runId && item.session == was.session
    && item.clientId == was.clientId && item.ordinal == was.ordinal
    && (!item.state.Cancelled? ==> !was.state.Cancelled?)
    && (item.state.Promoted? ==> was.state.Promoted? || (item.runId < |w.db.runs| && w.db.runs[item.runId].status.Active?))
  }

  lemma RowUpdateKeeps(w: World, i: nat, item: Item)
    requires Sound(w) && i < |w.db.items| && Harmless(w, i, item)
    ensures Sound(w.(db := SetItem(w.db, i, item)))
  {
    var w' := w.(db := SetItem(w.db, i, item));
    assert forall k :: 0 <= k < |w.db.items| ==> w'.db.items[k] == if k == i then item else w.db.items[k];
    assert RowsOk(w'.db);
    assert OrderOk(w'.db.items) by { OrderKept(w.db.items, w'.db.items); }
    assert ClaimsOk(w'.db, w.claims) by { ClaimsKept(w.db, w'.db, w.claims); }
    assert DrainsOk(w');
  }

  /** Only what the order predicate reads matters. */
  lemma OrderKept(a: seq<Item>, b: seq<Item>)
    requires OrderOk(a) && |a| == |b|
    requires forall k :: 0 <= k < |a| ==>
      && b[k].session == a[k].session && b[k].ordinal == a[k].ordinal && b[k].clientId == a[k].clientId
      && (!b[k].state.Cancelled? ==> !a[k].state.Cancelled?)
    ensures OrderOk(b)
  {
    forall i, j | 0 <= i < j < |b| ensures !SameClient(b[i], b[j]) {
      assert SameClient(b[i], b[j]) ==> SameClient(a[i], a[j]);
    }
  }

  lemma ClaimsKept(a: Db, b: Db, claims: seq<Claimed>)
    requires ClaimsOk(a, claims) && |a.items| == |b.items| && |a.runs| <= |b.runs|
    requires forall k :: 0 <= k < |a.items| ==> b.items[k].consumedBy == a.items[k].consumedBy
    requires forall r :: 0 <= r < |a.runs| && a.runs[r].scheduled ==> b.runs[r].scheduled
    ensures ClaimsOk(b, claims)
  {
  }

  lemma HandlerKeeps(w: World, step: Step)
    requires Sound(w) && (step.EditItem? || step.PromoteItem? || step.CancelItem? || step.InjectItem?)
    ensures Sound(Apply(w, step))
  {
    hide Sound, Strip;
    var i := step.item;
    if i < |w.db.items| {
      var was := w.db.items[i];
      assert RowOk(w.db, was) by { SoundRow(w, i); }
      var item :=
        match step
        case EditItem(_, content) => was.(content := Strip(content))
        case PromoteItem(_) => was.(state := Promoted)
        case CancelItem(_) => was.(state := Cancelled)
        case _ => was.(state := Injected, injected := true);
      if Apply(w, step) != w {
        assert Harmless(w, i, item);
        RowUpdateKeeps(w, i, item);
      }
    }
  }

  lemma SoundRow(w: World, i: nat)
    requires Sound(w) && i < |w.db.items|
    ensures RowOk(w.db, w.db.items[i])
  {
  }

  lemma NewRunKeeps(w: World, run: ChatRun, d: Option<nat>)
    requires Sound(w) && run.status.Active?
    requires d.Some? ==> d.value in w.drains && w.drains[d.value].Listed? && !run.scheduled
    ensures var w' := w.(db := w.db.(runs := w.db.runs + [run]));
      Sound(if d.Some? then w'.(drains := w.drains[d.value := Created(run.session, |w.db.runs|)]) else w')
  {
    var db' := w.db.(runs := w.db.runs + [run]);
    assert forall r :: 0 <= r < |w.db.runs| ==> db'.runs[r] == w.db.runs[r];
    assert RowsOk(db');
    ClaimsKept(w.db, db', w.claims);
    forall e <- w.drains ensures HasRun(w.drains[e]) ==> w.drains[e].run < |w.db.runs| {
      assert DrainOk(w, w.drains[e]);
    }
  }

  lemma StatusKeeps(w: World, run: nat, status: RunStatus)
    requires Sound(w) && CanEnd(w.db, run, status)
    ensures Sound(w.(db := SetStatus(w.db, run, status)))
  {
    var w' := w.(db := SetStatus(w.db, run, status));
    assert RowsOk(w'.db);
    ClaimsKept(w.db, w'.db, w.claims);
    forall d <- w.drains ensures DrainOk(w', w.drains[d]) { assert DrainOk(w, w.drains[d]); }
  }

  lemma GiveUpKeeps(w: World, d: nat)
    requires Sound(w) && d in w.drains && w.drains[d].Lost?
    ensures Sound(Apply(w, DrainGiveUp(d)))
  {
    var w', run := Apply(w, DrainGiveUp(d)), w.drains[d].run;
    assert DrainOk(w, w.drains[d]);
    assert RowsOk(w'.db);
    ClaimsKept(w.db, w'.db, w.claims);
    forall e <- w'.drains ensures DrainOk(w', w'.drains[e]) { assert e != d ==> DrainOk(w, w.drains[e]); }
  }

  lemma EnqueueKeeps(w: World, run: nat, clientId: Option<string>, content: string)
    requires Sound(w) && run < |w.db.runs| && w.db.runs[run].status.Active?
    ensures Sound(w.(db := Enqueue(w.db, run, clientId, content)))
  {
    hide Normalized;
    var db' := Enqueue(w.db, run, clientId, content);
    if db' != w.db {
      var session, client := w.db.runs[run].session, Normalized(clientId);
      var n, items := |w.db.items|, w.db.items;
      assert forall k :: 0 <= k < n ==> db'.items[k] == items[k];
      assert OrderOk(db'.items) by {
        forall i, j | 0 <= i < j < n + 1 ensures !SameClient(db'.items[i], db'.items[j]) {
          if j == n { assert !SameMessage(items[i], session, client); } else { assert !SameClient(items[i], items[j]); }
        }
      }
      assert ClaimsOk(db', w.claims);
      assert run !in w.settled;
      forall d <- w.drains ensures DrainOk(w.(db := db'), w.drains[d]) { assert DrainOk(w, w.drains[d]); }
    }
  }

  lemma RequeueKeeps(w: World, run: nat)
    requires Sound(w) && run < |w.db.runs|
    ensures Sound(AfterRun(w, run))
  {
    var w', session := AfterRun(w, run), w.db.runs[run].session;
    if w.db.runs[run].status.Completed? {
      var items, items' := w.db.items, w'.db.items;
      assert forall i :: 0 <= i < |items| ==> RowOk(w.db, items[i]);
      assert RowsOk(w'.db);
      OrderKept(items, items');
      ClaimsKept(w.db, w'.db, w.claims);
      forall d <- w.drains ensures DrainOk(w', w.drains[d]) { assert DrainOk(w, w.drains[d]); }
    }
  }

  lemma ClaimKeeps(w: World, d: nat)
    requires Sound(w) && d in w.drains && w.drains[d].Created?
    ensures Sound(Apply(w, DrainClaim(d)))
  {
    hide OrderOk, ClaimsOk, NextPending;
    var session, run := w.drains[d].session, w.drains[d].run;
    assert DrainOk(w, w.drains[d]);
    var w', next := Apply(w, DrainClaim(d)), NextPending(w.db.items, session);
    if next.None? {
      forall e <- w'.drains ensures DrainOk(w', w'.drains[e]) { assert e != d ==> DrainOk(w, w.drains[e]); }
    } else {
      var i := next.value;
      assert RowOk(w.db, w.db.items[i]);
      forall k | 0 <= k < |w.db.items| ensures RowOk(w'.db, w'.db.items[k]) { assert RowOk(w.db, w.db.items[k]); }
      OrderKept(w.db.items, w'.db.items);
      ClaimAdds(w.db, w'.db, w.claims, i, run);
      forall e <- w'.drains ensures DrainOk(w', w'.drains[e]) { assert e != d ==> DrainOk(w, w.drains[e]); }
    }
  }

  lemma ClaimAdds(a: Db, b: Db, claims: seq<Claimed>, i: nat, run: nat)
    requires ClaimsOk(a, claims) && i < |a.items| && a.items[i].consumedBy.None? && run < |a.runs| && !a.runs[run].scheduled
    requires |b.items| == |a.items| && b.items[i].consumedBy == Some(run) && |b.runs| == |a.runs| && b.runs[run].scheduled
    requires forall k :: 0 <= k < |a.items| && k != i ==> b.items[k] == a.items[k]
    requires forall r :: 0 <= r < |a.runs| && r != run ==> b.runs[r] == a.runs[r]
    ensures ClaimsOk(b, claims + [Claimed(i, run)])
  {
    var claims' := claims + [Claimed(i, run)];
    assert forall k :: 0 <= k < |claims| ==> claims'[k] == claims[k];
    forall k | 0 <= k < |b.items| && b.items[k].consumedBy.Some? ensures Claimed(k, b.items[k].consumedBy.value) in claims' {
      if k == i { assert claims'[|claims|] == Claimed(i, run); }
    }
  }

  lemma {:induction false} StepKeepsSound(w: World, step: Step)
    requires Sound(w)
    ensures Sound(Apply(w, step))
  {
    hide RowsOk, OrderOk, ClaimsOk, SettledOk, Enqueue, AfterRun, ClaimFor, Edit, Promote, Cancel;
    match step
    case StartRun(session) => NewRunKeeps(w, ChatRun(session, Active, true), None);
    case EndRun(run, status) => if CanEnd(w.db, run, status) { StatusKeeps(w, run, status); }
    case QueueMessage(run, clientId, content) =>
      if run < |w.db.runs| && w.db.runs[run].status.Active? { EnqueueKeeps(w, run, clientId, content); }
    case EditItem(_, _) => HandlerKeeps(w, step);
    case PromoteItem(_) => HandlerKeeps(w, step);
    case CancelItem(_) => HandlerKeeps(w, step);
    case InjectItem(_) => HandlerKeeps(w, step);
    case PostRun(run) => if run < |w.db.runs| { RequeueKeeps(w, run); }
    case DrainList(d, session) => ListingKeeps(w, d, session);
    case DrainCreate(d) =>
      if d in w.drains && w.drains[d].Listed? { NewRunKeeps(w, ChatRun(w.drains[d].session, Active, false), Some(d)); }
    case DrainClaim(d) => if d in w.drains && w.drains[d].Created? { ClaimKeeps(w, d); }
    case DrainGiveUp(d) => if d in w.drains && w.drains[d].Lost? { GiveUpKeeps(w, d); }
  }

  lemma ListingKeeps(w: World, d: nat, session: string)
    requires Sound(w)
    ensures Sound(Apply(w, DrainList(d, session)))
  {
    hide RowsOk, OrderOk, ClaimsOk, NextPending;
    var w' := Apply(w, DrainList(d, session));
    forall e <- w'.drains ensures DrainOk(w', w'.drains[e]) { assert e in w.drains ==> DrainOk(w, w.drains[e]); }
  }

  lemma {:induction false} RunIsSound(steps: seq<Step>)
    ensures Sound(Run(START, steps))
  {
    hide Sound, Apply;
    if steps == [] {
      StartIsSound();
    } else {
      RunIsSound(steps[..|steps| - 1]);
      StepKeepsSound(Run(START, steps[..|steps| - 1]), steps[|steps| - 1]);
    }
  }

  lemma StartIsSound()
    ensures Sound(START)
  {
  }

  // Main results, over every interleaving of handlers and drains.

  /** No message is consumed by two runs, and no run consumes two messages. */
  lemma {:induction false} ConsumedOnce(steps: seq<Step>, k: nat, l: nat)
    requires k < l < |Run(START, steps).claims|
    ensures var claims := Run(START, steps).claims; claims[k].item != claims[l].item && claims[k].run != claims[l].run
  {
    hide Run;
    RunIsSound(steps);
  }

  /** A finished drain: its run owns exactly one row, consumed by it, or it owns none and was
      cancelled because the claim was lost. */
  lemma {:induction false} DrainOutcome(steps: seq<Step>, d: nat)
    requires d in Run(START, steps).drains
    ensures var w := Run(START, steps);
      match w.drains[d]
      case Won(run, item) =>
        && item < |w.db.items| && w.db.items[item].state.Consumed?
        && forall i :: 0 <= i < |w.db.items| ==> (w.db.items[i].consumedBy == Some(run) <==> i == item)
      case GaveUp(run) =>
        && run < |w.db.runs| && w.db.runs[run].status == CancelledRun(true)
        && forall i :: 0 <= i < |w.db.items| ==> w.db.items[i].consumedBy != Some(run)
      case _ => true
  {
    hide Run;
    RunIsSound(steps);
    var w := Run(START, steps);
    assert DrainOk(w, w.drains[d]);
    match w.drains[d]
    case Won(run, item) =>
      var k :| 0 <= k < |w.claims| && w.claims[k] == Claimed(item, run);
      assert ClaimHolds(w.db, w.claims[k]);
      assert RowOk(w.db, w.db.items[item]);
      forall i | 0 <= i < |w.db.items| && w.db.items[i].consumedBy == Some(run) ensures i == item {
        var l :| 0 <= l < |w.claims| && w.claims[l] == Claimed(i, run);
      }
    case GaveUp(run) =>
      forall i | 0 <= i < |w.db.items| && w.db.items[i].consumedBy.Some? ensures w.db.items[i].consumedBy != Some(run) {
        assert Claimed(i, w.db.items[i].consumedBy.value) in w.claims;
      }
    case _ =>
  }

  /** What a row keeps for good: who sent it and when it is due; and once consumed, injected or
      cancelled it stays so. */
  ghost predicate Remains(a: seq<Item>, b: seq<Item>) {
    |a| <= |b| && forall i :: 0 <= i < |a| ==>
      && b[i].session == a[i].session && b[i].runId == a[i].runId && b[i].clientId == a[i].clientId && b[i].ordinal == a[i].ordinal
      && (a[i].state in {Consumed, Injected, Cancelled} ==> b[i] == a[i])
  }

  lemma StepRemains(w: World, step: Step)
    ensures Remains(w.db.items, Apply(w, step).db.items)
  {
    hide Existing, MaxOrdinal, Strip, Normalized;
  }

  /** What a message says changes only when it is edited, and then only while it is pending and to a
      non-blank text. */
  lemma OnlyEditsChangeContent(w: World, step: Step, i: nat)
    requires i < |w.db.items|
    ensures var was, now := w.db.items[i].content, Apply(w, step).db.items[i].content;
      now != was ==> step.EditItem? && step.item == i && w.db.items[i].state.Pending? && Trimmed(now)
  {
    hide Existing, MaxOrdinal, Normalized, NextPending;
    if step.EditItem? { StripTwice(step.content); }
    hide Strip;
    StepRemains(w, step);
  }

  /** Nothing disappears: whatever happens after a world was reached, its rows are still there. */
  lemma {:induction false} NothingDisappears(w: World, steps: seq<Step>)
    ensures Remains(w.db.items, Run(w, steps).db.items)
  {
    hide Apply;
    if steps != [] {
      var before := Run(w, steps[..|steps| - 1]);
      NothingDisappears(w, steps[..|steps| - 1]);
      StepRemains(before, steps[|steps| - 1]);
    }
  }

  /** After the post-run step of a completed run none of its rows is promoted, then or ever after. */
  lemma {:induction false} PromotedReturn(steps: seq<Step>, run: nat, i: nat)
    requires var w := Run(START, steps); run in w.settled && i < |w.db.items| && w.db.items[i].runId == run
    ensures !Run(START, steps).db.items[i].state.Promoted?
  {
    hide Run;
    RunIsSound(steps);
  }

  /** The post-run step gives a promoted row back exactly when its run completed; the rows promoted
      for a run that failed or was cancelled stay promoted. */
  lemma {:induction false} PostRunReturnsExactly(steps: seq<Step>, run: nat, i: nat)
    requires var w := Run(START, steps);
      run < |w.db.runs| && i < |w.db.items| && w.db.items[i].runId == run && w.db.items[i].state.Promoted?
    ensures var w := Run(START, steps);
      Apply(w, PostRun(run)).db.items[i].state == if w.db.runs[run].status.Completed? then Pending else Promoted
  {
    hide Run;
    RunIsSound(steps);
    assert RowOk(Run(START, steps).db, Run(START, steps).db.items[i]);
  }

  /** A drain that is not disturbed consumes the oldest pending row of its session: the row queued
      first among those pending. */
  lemma {:induction false} DrainTakesOldest(steps: seq<Step>, d: nat, session: string)
    requires var w := Run(START, steps); d !in w.drains && NextPending(w.db.items, session).Some?
    ensures var w := Run(START, steps);
      var w' := Apply(Apply(Apply(w, DrainList(d, session)), DrainCreate(d)), DrainClaim(d));
      && w'.db == DrainAlone(w.db, session) && w'.drains[d].Won?
      && forall i :: 0 <= i < w'.drains[d].item ==> !IsPending(w.db.items[i], session)
  {
    hide Run;
    RunIsSound(steps);
    var w := Run(START, steps);
    var w2 := Apply(Apply(w, DrainList(d, session)), DrainCreate(d));
    assert w2.drains[d] == Created(session, |w.db.runs|) && w2.db.items == w.db.items;
    var item := NextPending(w.db.items, session).value;
    forall i | 0 <= i < item ensures !IsPending(w.db.items[i], session) {
      assert w.db.items[i].session == w.db.items[item].session ==> w.db.items[i].ordinal < w.db.items[item].ordinal;
    }
  }

  /** One client message has at most one row that is not cancelled, however often it is retried. */
  lemma {:induction false} OneRowPerMessage(steps: seq<Step>, i: nat, j: nat)
    requires var items := Run(START, steps).db.items;
      i < j < |items| && items[i].session == items[j].session && items[i].clientId == items[j].clientId != None
    ensures var items := Run(START, steps).db.items; items[i].state.Cancelled? || items[j].state.Cancelled?
  {
    hide Run;
    RunIsSound(steps);
  }

  // The handlers that edit, promote and cancel read a row, check its state and write it in separate
  // transactions. The results above take them as one step. This is what the write alone does when
  // the row has changed since the check.

  function LateCancel(w: World, i: nat): World
    requires i < |w.db.items|
  {
    w.(db := SetItem(w.db, i, w.db.items[i].(state := Cancelled)))
  }

  function LatePromote(w: World, i: nat): World
    requires i < |w.db.items|
  {
    w.(db := SetItem(w.db, i, w.db.items[i].(state := Promoted)))
  }

  function LateEdit(w: World, i: nat, content: string): World
    requires i < |w.db.items|
  {
    w.(db := SetItem(w.db, i, w.db.items[i].(content := content)))
  }

  /** A row that is no longer pending keeps its text. */
  ghost predicate TextKept(a: seq<Item>, b: seq<Item>) {
    |a| <= |b| && forall i :: 0 <= i < |a| && !a[i].state.Pending? ==> b[i].content == a[i].content
  }

  /** A write is safe when it does what every step does: it keeps the invariant, rows that are settled
      stay as they are, and text changes only on pending rows. */
  ghost predicate SafeWrite(w: World, late: World) {
    Sound(late) && Remains(w.db.items, late.db.items) && TextKept(w.db.items, late.db.items)
  }

  lemma StepIsSafe(w: World, step: Step)
    requires Sound(w)
    ensures SafeWrite(w, Apply(w, step))
  {
    hide Sound, Apply, Remains;
    StepKeepsSound(w, step);
    StepRemains(w, step);
    assert |Apply(w, step).db.items| >= |w.db.items| by { RemainsLonger(w.db.items, Apply(w, step).db.items); }
    forall i | 0 <= i < |w.db.items| && !w.db.items[i].state.Pending?
      ensures Apply(w, step).db.items[i].content == w.db.items[i].content
    {
      OnlyEditsChangeContent(w, step, i);
    }
  }

  lemma RemainsLonger(a: seq<Item>, b: seq<Item>)
    requires Remains(a, b)
    ensures |a| <= |b|
  {
  }

  /** A late cancel is safe exactly when no drain or run has taken the row meanwhile. */
  lemma {:induction false} LateCancelSafeExactly(steps: seq<Step>, i: nat)
    requires i < |Run(START, steps).db.items|
    ensures var w := Run(START, steps); SafeWrite(w, LateCancel(w, i)) <==> w.db.items[i].state in {Pending, Promoted, Cancelled}
  {
    hide Run, OrderOk, ClaimsOk, DrainsOk, SettledOk;
    RunIsSound(steps);
    var w := Run(START, steps);
    var was := w.db.items[i];
    assert RowOk(w.db, was);
    if was.state in {Pending, Promoted, Cancelled} {
      RowUpdateKeeps(w, i, was.(state := Cancelled));
    } else {
      assert !RowOk(w.db, LateCancel(w, i).db.items[i]);
    }
  }

  /** A late promotion is safe exactly when the row is still waiting and the post-run step of its run
      has not been done; on a row cancelled meanwhile it undoes the cancel. */
  lemma {:induction false} LatePromoteSafeExactly(steps: seq<Step>, i: nat)
    requires i < |Run(START, steps).db.items|
    ensures var w := Run(START, steps); var item := w.db.items[i];
      SafeWrite(w, LatePromote(w, i)) <==> item.state in {Pending, Promoted} && item.runId !in w.settled
  {
    hide Run, OrderOk, ClaimsOk, DrainsOk;
    RunIsSound(steps);
    var w, w' := Run(START, steps), LatePromote(Run(START, steps), i);
    var was := w.db.items[i];
    assert RowOk(w.db, was);
    assert w'.db.items[i] == was.(state := Promoted);
    if was.state in {Consumed, Injected} {
      assert !RowOk(w'.db, w'.db.items[i]);
    } else if was.state.Cancelled? {
      assert !Remains(w.db.items, w'.db.items);
    } else if was.runId in w.settled {
      assert !SettledOk(w');
    } else {
      LatePromoteKeeps(w, i);
    }
  }

  /** A late edit is safe exactly when the row is still pending, or nothing is changed. */
  lemma {:induction false} LateEditSafeExactly(steps: seq<Step>, i: nat, content: string)
    requires i < |Run(START, steps).db.items|
    ensures var w := Run(START, steps);
      SafeWrite(w, LateEdit(w, i, content)) <==> w.db.items[i].state.Pending? || content == w.db.items[i].content
  {
    hide Run, OrderOk, ClaimsOk, DrainsOk, SettledOk;
    RunIsSound(steps);
    var w, w' := Run(START, steps), LateEdit(Run(START, steps), i, content);
    var was := w.db.items[i];
    assert RowOk(w.db, was);
    assert w'.db.items[i] == was.(content := content);
    RowUpdateKeeps(w, i, was.(content := content));
  }

  lemma LatePromoteKeeps(w: World, i: nat)
    requires Sound(w) && i < |w.db.items| && w.db.items[i].state in {Pending, Promoted} && w.db.items[i].runId !in w.settled
    ensures Sound(LatePromote(w, i))
  {
    var w' := LatePromote(w, i);
    assert RowOk(w.db, w.db.items[i]);
    assert forall k :: 0 <= k < |w.db.items| && k != i ==> w'.db.items[k] == w.db.items[k];
    forall k | 0 <= k < |w.db.items| ensures RowOk(w'.db, w'.db.items[k]) { assert RowOk(w.db, w.db.items[k]); }
    OrderKept(w.db.items, w'.db.items);
    ClaimsKept(w.db, w'.db, w.claims);
    forall d <- w.drains ensures DrainOk(w', w.drains[d]) { assert DrainOk(w, w.drains[d]); }
  }

  /** Two runs are active, a message is queued behind the first, and the second completes and drains. */
  lemma ConsumedBySecondDrain(session: string) returns (checked: seq<Step>, rest: seq<Step>)
    ensures Promote(Run(START, checked).db, 0).1 == Done
    ensures var w := Run(START, checked + rest); var item := Item(session, 0, None, "hello", 1, Consumed, false, Some(2));
      && w.db.items == [item] && w.claims == [Claimed(0, 2)] && w.settled == {}
      && w.db.runs == [ChatRun(session, Active, true), ChatRun(session, Completed, true), ChatRun(session, Active, true)]
      && w.drains == map[0 := Won(2, 0)]
  {
    hide NextPending, Existing, MaxOrdinal, Run;
    var s := [StartRun(session), StartRun(session), QueueMessage(0, None, "hello"), EndRun(1, Completed)];
    var w4 := FourRun(session, s);
    assert IsPending(w4.db.items[0], session);
    var t1, t2, t3 := s + [DrainList(0, session)], s + [DrainList(0, session), DrainCreate(0)],
                      s + [DrainList(0, session), DrainCreate(0), DrainClaim(0)];
    RunSnoc(START, s, DrainList(0, session), t1);
    RunSnoc(START, t1, DrainCreate(0), t2);
    RunSnoc(START, t2, DrainClaim(0), t3);
    checked, rest := s, [DrainList(0, session), DrainCreate(0), DrainClaim(0)];
    assert checked + rest == t3;
  }

  lemma RunSnoc(w: World, steps: seq<Step>, step: Step, more: seq<Step>)
    requires more == steps + [step]
    ensures Run(w, more) == Apply(Run(w, steps), step)
  {
    assert more[..|more| - 1] == steps;
  }

  lemma FourRun(session: string, s: seq<Step>) returns (w: World)
    requires s == [StartRun(session), StartRun(session), QueueMessage(0, None, "hello"), EndRun(1, Completed)]
    ensures w == Run(START, s)
    ensures w == World(Db([Item(session, 0, None, "hello", 1, Pending, false, None)],
                          [ChatRun(session, Active, true), ChatRun(session, Completed, true)]), map[], [], {})
  {
    RunSnoc(START, [], s[0], s[..1]);
    RunSnoc(START, s[..1], s[1], s[..2]);
    RunSnoc(START, s[..2], s[2], s[..3]);
    RunSnoc(START, s[..3], s[3], s);
    w := Run(START, s);
  }

  /** The first run completes, and its post-run step puts the row back although it was consumed. */
  lemma PutBack(session: string, late: World)
    requires late.db.items == [Item(session, 0, None, "hello", 1, Promoted, false, Some(2))]
    requires late.db.runs == [ChatRun(session, Active, true), ChatRun(session, Completed, true), ChatRun(session, Active, true)]
    ensures var w := Run(late, [EndRun(0, Completed), PostRun(0)]);
      && w.db.items == [Item(session, 0, None, "hello", 1, Pending, false, Some(2))] && |w.db.runs| == 3
      && w.drains == late.drains && w.claims == late.claims
  {
    hide Run;
    var after := [EndRun(0, Completed), PostRun(0)];
    RunNothing(late);
    RunSnoc(late, [], after[0], after[..1]);
    RunSnoc(late, after[..1], after[1], after);
  }

  /** Why the atomicity matters: a promotion that was checked while the message was waiting and is
      written after the user cancelled it brings the cancelled message back. */
  lemma {:induction false} LatePromoteRevives(session: string)
    ensures exists checked, rest :: var w := Run(START, checked + rest);
      && Promote(Run(START, checked).db, 0).1 == Done
      && |w.db.items| == 1 && w.db.items[0].state.Cancelled? && LatePromote(w, 0).db.items[0].state.Promoted?
  {
    hide Run;
    var s := [StartRun(session), StartRun(session), QueueMessage(0, None, "hello"), EndRun(1, Completed)];
    var w := FourRun(session, s);
    RunSnoc(START, s, CancelItem(0), s + [CancelItem(0)]);
    assert Promote(Run(START, s).db, 0).1 == Done;
    assert Run(START, s + [CancelItem(0)]).db.items[0].state.Cancelled?;
  }

  /** Why the atomicity matters: a promotion that was checked while the message was waiting and is
      written after a drain took it lets the message be consumed a second time. */
  lemma {:induction false} LatePromoteConsumesTwice(session: string)
    ensures exists checked, rest, after :: var w := Run(START, checked + rest);
      && Promote(Run(START, checked).db, 0).1 == Done
      && |w.db.items| == 1 && Run(LatePromote(w, 0), after).claims == [Claimed(0, 2), Claimed(0, 3)]
  {
    hide Run;
    var checked, rest := ConsumedBySecondDrain(session);
    var w := Run(START, checked + rest);
    var late := LatePromote(w, 0);
    var after := [EndRun(0, Completed), PostRun(0), DrainList(1, session), DrainCreate(1), DrainClaim(1)];
    PutBack(session, late);
    assert after[..2] == [EndRun(0, Completed), PostRun(0)];
    RunSnoc(late, after[..2], after[2], after[..3]);
    RunSnoc(late, after[..3], after[3], after[..4]);
    RunSnoc(late, after[..4], after[4], after);
    assert Run(LatePromote(Run(START, checked + rest), 0), after).claims == [Claimed(0, 2), Claimed(0, 3)];
  }

  lemma RunNothing(w: World)
    ensures Run(w, []) == w
  {
  }
}
