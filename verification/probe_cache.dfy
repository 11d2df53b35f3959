/** The single-flight cache of the system-base environment probe: request threads and probe workers
    share a cache, an in-flight table, a failure table and the latest scheduled key under one lock. */
module ProbeCache {
  import opened PyText
  import opened PyJson

  /** The part of the configuration that identifies a probe. The source prints it as canonical JSON,
      so equal keys are equal projections. */
  datatype Projection = Projection(adminBaseUrl: Json, engineBaseUrl: Json, desktopTools: Json, remoteLink: Json)

  function InputKey(systemBase: Json): Projection {
    var bridge := Get(systemBase, "bridge");
    Projection(Or(Get(bridge, "adminBaseUrl"), Str("")), Or(Get(bridge, "engineBaseUrl"), Str("")),
               Or(Get(systemBase, "desktopTools"), Obj(map[])), Or(Get(systemBase, "remoteLink"), Obj(map[])))
  }

  /** What a probe reads from its configuration. */
  function ProbeArguments(systemBase: Json): (Json, Json) {
    var bridge := Or(Get(systemBase, "bridge"), Obj(map[]));
    (Or(Get(bridge, "adminBaseUrl"), Str("")), Or(Get(bridge, "engineBaseUrl"), Str("")))
  }

  /** A cached answer may stand in for a new probe: probes under one key take the same arguments. */
  lemma {:induction false} SameKeySameProbe(a: Json, b: Json)
    requires InputKey(a) == InputKey(b)
    ensures ProbeArguments(a) == ProbeArguments(b)
  {
    assert ProbeArguments(a) == (InputKey(a).adminBaseUrl, InputKey(a).engineBaseUrl);
    assert ProbeArguments(b) == (InputKey(b).adminBaseUrl, InputKey(b).engineBaseUrl);
  }

  const TTL_SECONDS: real := 30.0
  const FAILURE_BACKOFF_SECONDS: real := 10.0

  datatype Snapshot = Snapshot(content: Json)
  datatype Entry = Entry(inputKey: Projection, checkedAtMonotonic: real, checkedAt: string, snapshot: Snapshot)
  datatype Failure = Failure(checkedAt: string, checkedAtMonotonic: real)

  datatype Outcome = Succeeded(snapshot: Snapshot) | Raised

  /** A worker thread, and with it its future: the probe, the locked section that records the
      outcome, and then the future's completion. */
  datatype WorkerAt = Probing | Probed(outcome: Outcome) | Recorded(outcome: Outcome) | Settled(outcome: Outcome)
  datatype Worker = Worker(key: Projection, config: Json, at: WorkerAt)

  /** The module's globals, and the futures by number. */
  datatype Shared = Shared(
    cache: Option<Entry>, failures: map<Projection, Failure>, inflight: map<Projection, nat>,
    latestKey: Option<Projection>, workers: seq<Worker>)

  predicate Done(s: Shared, future: nat) {
    future < |s.workers| && s.workers[future].at.Settled?
  }

  // The sections that hold the lock.

  /** Scheduling returns the future and the new globals. */
  function Schedule(s: Shared, key: Projection, config: Json): (Shared, nat) {
    if key in s.inflight && !Done(s, s.inflight[key]) then (s.(latestKey := Some(key)), s.inflight[key])
    else (s.(latestKey := Some(key), inflight := s.inflight[key := |s.workers|],
             workers := s.workers + [Worker(key, config, Probing)]), |s.workers|)
  }

  function Unlist(inflight: map<Projection, nat>, key: Projection, future: nat): map<Projection, nat> {
    if key in inflight && inflight[key] == future then inflight - {key} else inflight
  }

  /** Recording the outcome of a probe. */
  function Record(s: Shared, future: nat, now: real, stamp: string): Shared
    requires future < |s.workers| && s.workers[future].at.Probed?
  {
    var worker := s.workers[future];
    var recorded := s.workers[future := worker.(at := Recorded(worker.at.outcome))];
    match worker.at.outcome
    case Raised =>
      s.(failures := s.failures[worker.key := Failure(stamp, now)],
         inflight := Unlist(s.inflight, worker.key, future), workers := recorded)
    case Succeeded(snapshot) =>
      s.(cache := if s.latestKey == Some(worker.key) then Some(Entry(worker.key, now, stamp, snapshot)) else s.cache,
         failures := s.failures - {worker.key},
         inflight := Unlist(s.inflight, worker.key, future), workers := recorded)
  }

  // A request.

  datatype Shown = Found(snapshot: Snapshot) | Placeholder
  datatype Status = Ready | Error | Refreshing
  datatype Response = Response(shown: Shown, status: Status, stale: bool, checkedAt: Option<string>, failedAt: Option<string>)

  datatype Decision = Answer(response: Response) | Join(future: nat) | MustSchedule

  predicate Matches(cached: Option<Entry>, key: Projection) {
    cached.Some? && cached.value.inputKey == key
  }

  function FailedAt(failure: Option<Failure>): Option<string> {
    if failure.Some? then Some(failure.value.checkedAt) else None
  }

  /** An answer from the cached entry, or the placeholder when the entry is another key's. */
  function Fallback(cached: Option<Entry>, key: Projection, status: Status, failedAt: Option<string>): Response {
    if Matches(cached, key) then Response(Found(cached.value.snapshot), status, true, Some(cached.value.checkedAt), failedAt)
    else Response(Placeholder, status, false, None, failedAt)
  }

  /** What a request does after its first look at the globals. */
  function Decide(cached: Option<Entry>, failure: Option<Failure>, inflight: Option<nat>, key: Projection,
                  refresh: bool, now: real): Decision {
    if Matches(cached, key) && now - cached.value.checkedAtMonotonic < TTL_SECONDS && !refresh && inflight.None? then
      Answer(Response(Found(cached.value.snapshot), Ready, false, Some(cached.value.checkedAt), None))
    else if failure.Some? && now - failure.value.checkedAtMonotonic < FAILURE_BACKOFF_SECONDS && !refresh && inflight.None? then
      Answer(Fallback(cached, key, Error, FailedAt(failure)))
    else if inflight.Some? then Join(inflight.value)
    else MustSchedule
  }

  /** The answer of a refresh whose future is done, after its second look at the globals. */
  function AfterRefresh(outcome: Outcome, cached: Option<Entry>, failure: Option<Failure>, key: Projection): Response {
    match outcome
    case Succeeded(snapshot) =>
      Response(Found(snapshot), Ready, false, if cached.Some? then Some(cached.value.checkedAt) else None, None)
    case Raised => Fallback(cached, key, Error, FailedAt(failure))
  }

  function Lookup<K, V>(m: map<K, V>, k: K): Option<V> {
    if k in m then Some(m[k]) else None
  }

  // The globals as the module holds them.

  class Globals {
    var cache: Option<Entry>
    var failures: map<Projection, Failure>
    var inflight: map<Projection, nat>
    var latestKey: Option<Projection>
    var workers: seq<Worker>

    constructor ()
      ensures Value() == Shared(None, map[], map[], None, [])
    {
      cache, failures, inflight, latestKey, workers := None, map[], map[], None, [];
    }

    ghost function Value(): Shared
      reads this
    {
      Shared(cache, failures, inflight, latestKey, workers)
    }

    method ScheduleProbe(key: Projection, config: Json) returns (future: nat)
      modifies this
      ensures (Value(), future) == Schedule(old(Value()), key, config)
    {
      latestKey := Some(key);
      if key in inflight {
        var existing := inflight[key];
        if !(existing < |workers| && workers[existing].at.Settled?) {
          return existing;
        }
      }
      future := |workers|;
      inflight := inflight[key := future];
      workers := workers + [Worker(key, config, Probing)];
    }

    method RecordOutcome(future: nat, now: real, stamp: string)
      requires future < |workers| && workers[future].at.Probed?
      modifies this
      ensures Value() == Record(old(Value()), future, now, stamp)
    {
      var key, outcome := workers[future].key, workers[future].at.outcome;
      if outcome.Raised? {
        failures := failures[key := Failure(stamp, now)];
      } else {
        if latestKey == Some(key) {
          cache := Some(Entry(key, now, stamp, outcome.snapshot));
        }
        failures := failures - {key};
      }
      if key in inflight && inflight[key] == future {
        inflight := inflight - {key};
      }
      workers := workers[future := Worker(key, workers[future].config, Recorded(outcome))];
    }

    /** The first look of a request at the globals. */
    method Look(key: Projection, refresh: bool, now: real) returns (cached: Option<Entry>, failure: Option<Failure>, next: Decision)
      ensures cached == cache && failure == Lookup(failures, key)
      ensures next == Decide(cache, failure, Lookup(inflight, key), key, refresh, now)
    {
      cached, failure := cache, Lookup(failures, key);
      var running := Lookup(inflight, key);
      var matches := cached.Some? && cached.value.inputKey == key;
      var current := matches && now - cached.value.checkedAtMonotonic < TTL_SECONDS;
      var backoff := failure.Some? && now - failure.value.checkedAtMonotonic < FAILURE_BACKOFF_SECONDS;
      if current && !refresh && running.None? {
        return cached, failure, Answer(Response(Found(cached.value.snapshot), Ready, false, Some(cached.value.checkedAt), None));
      }
      if backoff && !refresh && running.None? {
        return cached, failure, Answer(Fallback(cached, key, Error, FailedAt(failure)));
      }
      next := if running.Some? then Join(running.value) else MustSchedule;
    }
  }

  // All threads together.

  datatype RequestAt =
    | Arrived
    | Scheduling(cached: Option<Entry>, failure: Option<Failure>)
    | Waiting(future: nat)
    | Returned(future: nat)
    | Answered(response: Response)

  datatype Request = Request(config: Json, refresh: bool, at: RequestAt)

  /** `schedules`, `writes` and `records` tell what happened: the keys scheduled, every cache write
      with its time stamp and the number of schedules before it, and every outcome recorded. */
  datatype CacheWrite = CacheWrite(key: Projection, stamp: string, schedulesBefore: nat)
  datatype OutcomeRecord = OutcomeRecord(key: Projection, outcome: Outcome)
  datatype World = World(shared: Shared, requests: map<nat, Request>, schedules: seq<Projection>,
                         writes: seq<CacheWrite>, records: seq<OutcomeRecord>)

  datatype Step =
    | Arrive(id: nat, config: Json, refresh: bool)
    | FirstLook(id: nat, now: real)
    | ScheduleFor(id: nat)
    | FinishProbe(future: nat, outcome: Outcome)
    | RecordFor(future: nat, now: real, stamp: string)
    | Settle(future: nat)
    | Wake(id: nat)
    | SecondLook(id: nat)

  /** A request that holds a future: a refresh waits for it, another request answers at once. */
  function WithFuture(r: Request, future: nat, cached: Option<Entry>, failure: Option<Failure>): RequestAt {
    if r.refresh then Waiting(future) else Answered(Fallback(cached, InputKey(r.config), Refreshing, FailedAt(failure)))
  }

  function MoveRequest(w: World, id: nat, at: RequestAt): World
    requires id in w.requests
  {
    w.(requests := w.requests[id := w.requests[id].(at := at)])
  }

  function LookFirst(w: World, id: nat, now: real): World
    requires id in w.requests
  {
    var r, s, key := w.requests[id], w.shared, InputKey(w.requests[id].config);
    var failure := Lookup(s.failures, key);
    match Decide(s.cache, failure, Lookup(s.inflight, key), key, r.refresh, now)
    case Answer(response) => MoveRequest(w, id, Answered(response))
    case Join(future) => MoveRequest(w, id, WithFuture(r, future, s.cache, failure))
    case MustSchedule => MoveRequest(w, id, Scheduling(s.cache, failure))
  }

  function ScheduleRequest(w: World, id: nat): World
    requires id in w.requests && w.requests[id].at.Scheduling?
  {
    var r, key := w.requests[id], InputKey(w.requests[id].config);
    var (s, future) := Schedule(w.shared, key, r.config);
    MoveRequest(w.(shared := s, schedules := w.schedules + [key]), id, WithFuture(r, future, r.at.cached, r.at.failure))
  }

  function RecordWorker(w: World, future: nat, now: real, stamp: string): World
    requires future < |w.shared.workers| && w.shared.workers[future].at.Probed?
  {
    var key := w.shared.workers[future].key;
    var writes := w.shared.workers[future].at.outcome.Succeeded? && w.shared.latestKey == Some(key);
    w.(shared := Record(w.shared, future, now, stamp),
       records := w.records + [OutcomeRecord(key, w.shared.workers[future].at.outcome)],
       writes := if writes then w.writes + [CacheWrite(key, stamp, |w.schedules|)] else w.writes)
  }

  function MoveWorker(s: Shared, future: nat, at: WorkerAt): Shared
    requires future < |s.workers|
  {
    s.(workers := s.workers[future := s.workers[future].(at := at)])
  }

  /** A step that is not enabled changes nothing. */
  function Apply(w: World, step: Step): World {
    var workers := w.shared.workers;
    match step
    case Arrive(id, config, refresh) =>
      if id in w.requests then w else w.(requests := w.requests[id := Request(config, refresh, Arrived)])
    case FirstLook(id, now) =>
      if id in w.requests && w.requests[id].at.Arrived? then LookFirst(w, id, now) else w
    case ScheduleFor(id) =>
      if id in w.requests && w.requests[id].at.Scheduling? then ScheduleRequest(w, id) else w
    case FinishProbe(future, outcome) =>
      if future < |workers| && workers[future].at.Probing? then w.(shared := MoveWorker(w.shared, future, Probed(outcome))) else w
    case RecordFor(future, now, stamp) =>
      if future < |workers| && workers[future].at.Probed? then RecordWorker(w, future, now, stamp) else w
    case Settle(future) =>
      if future < |workers| && workers[future].at.Recorded?
      then w.(shared := MoveWorker(w.shared, future, Settled(workers[future].at.outcome))) else w
    case Wake(id) =>
      if id in w.requests && w.requests[id].at.Waiting? && Done(w.shared, w.requests[id].at.future)
      then MoveRequest(w, id, Returned(w.requests[id].at.future)) else w
    case SecondLook(id) =>
      if id in w.requests && w.requests[id].at.Returned? && Done(w.shared, w.requests[id].at.future) then
        var key := InputKey(w.requests[id].config);
        MoveRequest(w, id, Answered(AfterRefresh(workers[w.requests[id].at.future].at.outcome, w.shared.cache,
                                                 Lookup(w.shared.failures, key), key)))
      else w
  }

  function Run(w: World, steps: seq<Step>): World {
    if steps == [] then w else Apply(Run(w, steps[..|steps| - 1]), steps[|steps| - 1])
  }

  const START := World(Shared(None, map[], map[], None, []), map[], [], [], [])

  // What is always true.

  function OutcomeOf(at: WorkerAt): Option<Outcome> {
    if at.Probing? then None else Some(at.outcome)
  }

  /** Not yet past the locked section that records the outcome. */
  predicate Live(at: WorkerAt) {
    at.Probing? || at.Probed?
  }

  /** Some probe of a configuration with this key ended like this. */
  ghost predicate Happened(workers: seq<Worker>, key: Projection, outcome: Outcome) {
    exists f :: 0 <= f < |workers| && InputKey(workers[f].config) == key && OutcomeOf(workers[f].at) == Some(outcome)
  }

  ghost predicate Genuine(workers: seq<Worker>, cached: Option<Entry>) {
    cached.Some? ==> Happened(workers, cached.value.inputKey, Succeeded(cached.value.snapshot))
  }

  /** What a request with key `key` may be told. */
  ghost predicate SoundResponse(workers: seq<Worker>, key: Projection, r: Response) {
    && (r.shown.Found? ==> Happened(workers, key, Succeeded(r.shown.snapshot)))
    && (r.status.Ready? ==> r.shown.Found? && !r.stale)
    && (r.stale ==> r.shown.Found?)
    && (r.status.Error? || r.failedAt.Some? ==> Happened(workers, key, Raised))
  }

  ghost predicate SoundRequest(workers: seq<Worker>, r: Request) {
    var key := InputKey(r.config);
    match r.at
    case Arrived => true
    case Scheduling(cached, failure) => Genuine(workers, cached) && (failure.Some? ==> Happened(workers, key, Raised))
    case Waiting(future) => future < |workers| && workers[future].key == key
    case Returned(future) => future < |workers| && workers[future].key == key && workers[future].at.Settled?
    case Answered(response) => SoundResponse(workers, key, response)
  }

  /** In-flight entries and live workers are the same pairs, so no key is probed twice at once. */
  ghost predicate SingleFlight(s: Shared) {
    && (forall k <- s.inflight :: s.inflight[k] < |s.workers| && s.workers[s.inflight[k]].key == k && Live(s.workers[s.inflight[k]].at))
    && (forall f :: 0 <= f < |s.workers| && Live(s.workers[f].at) ==>
          s.workers[f].key in s.inflight && s.inflight[s.workers[f].key] == f)
  }

  ghost predicate SoundShared(s: Shared) {
    && SingleFlight(s)
    && (forall f :: 0 <= f < |s.workers| ==> s.workers[f].key == InputKey(s.workers[f].config))
    && Genuine(s.workers, s.cache)
    && (forall k <- s.failures :: Happened(s.workers, k, Raised))
    // the latest scheduled key is being probed, is cached, or has failed
    && (s.latestKey.Some? ==> s.latestKey.value in s.inflight || Matches(s.cache, s.latestKey.value) || s.latestKey.value in s.failures)
  }

  ghost predicate SoundHistory(w: World) {
    && (w.shared.latestKey == if w.schedules == [] then None else Some(w.schedules[|w.schedules| - 1]))
    && (w.shared.cache.Some? <==> w.writes != [])
    && (w.writes != [] ==>
          var last := w.writes[|w.writes| - 1];
          w.shared.cache.value.inputKey == last.key && w.shared.cache.value.checkedAt == last.stamp)
    && (w.shared.workers != [] ==> w.schedules != [])
    && forall i :: 0 <= i < |w.writes| ==>
         0 < w.writes[i].schedulesBefore <= |w.schedules| && w.schedules[w.writes[i].schedulesBefore - 1] == w.writes[i].key
  }

  /** The outcome recorded last for a key. */
  function LastOutcome(records: seq<OutcomeRecord>, key: Projection): Option<Outcome> {
    if records == [] then None
    else
      var last := records[|records| - 1];
      if last.key == key then Some(last.outcome) else LastOutcome(records[..|records| - 1], key)
  }

  /** The failure table lists exactly the keys whose last recorded outcome is a failure. */
  ghost predicate FailuresCurrent(w: World) {
    forall k :: k in w.shared.failures <==> LastOutcome(w.records, k) == Some(Raised)
  }

  ghost predicate Sound(w: World) {
    && SoundShared(w.shared) && SoundHistory(w) && FailuresCurrent(w)
    && forall id <- w.requests :: SoundRequest(w.shared.workers, w.requests[id])
  }

  /** Workers are only added and only move forward. */
  ghost predicate Grows(a: seq<Worker>, b: seq<Worker>) {
    |a| <= |b| && forall f :: 0 <= f < |a| ==>
      && b[f].key == a[f].key && b[f].config == a[f].config
      && (OutcomeOf(a[f].at).Some? ==> OutcomeOf(b[f].at) == OutcomeOf(a[f].at))
      && (a[f].at.Settled? ==> b[f].at.Settled?)
  }

  lemma StillHappened(a: seq<Worker>, b: seq<Worker>, key: Projection, outcome: Outcome)
    requires Grows(a, b) && Happened(a, key, outcome)
    ensures Happened(b, key, outcome)
  {
    var f :| 0 <= f < |a| && InputKey(a[f].config) == key && OutcomeOf(a[f].at) == Some(outcome);
    assert InputKey(b[f].config) == key && OutcomeOf(b[f].at) == Some(outcome);
  }

  lemma StillGenuine(a: seq<Worker>, b: seq<Worker>, cached: Option<Entry>)
    requires Grows(a, b) && Genuine(a, cached)
    ensures Genuine(b, cached)
  {
    hide Happened;
    if cached.Some? { StillHappened(a, b, cached.value.inputKey, Succeeded(cached.value.snapshot)); }
  }

  lemma StillSound(a: seq<Worker>, b: seq<Worker>, r: Request)
    requires Grows(a, b) && SoundRequest(a, r)
    ensures SoundRequest(b, r)
  {
    hide Happened, InputKey;
    var key := InputKey(r.config);
    match r.at
    case Scheduling(cached, failure) =>
      StillGenuine(a, b, cached);
      if failure.Some? { StillHappened(a, b, key, Raised); }
    case Answered(response) =>
      if response.shown.Found? { StillHappened(a, b, key, Succeeded(response.shown.snapshot)); }
      if response.status.Error? || response.failedAt.Some? { StillHappened(a, b, key, Raised); }
    case _ =>
  }

  lemma StillFailed(a: seq<Worker>, b: seq<Worker>, failures: map<Projection, Failure>)
    requires Grows(a, b) && forall k <- failures :: Happened(a, k, Raised)
    ensures forall k <- failures :: Happened(b, k, Raised)
  {
    hide Happened;
    forall k <- failures ensures Happened(b, k, Raised) { StillHappened(a, b, k, Raised); }
  }

  lemma ScheduleKeeps(s: Shared, key: Projection, config: Json)
    requires SoundShared(s) && key == InputKey(config)
    ensures var (s', future) := Schedule(s, key, config);
      SoundShared(s') && Grows(s.workers, s'.workers) && future < |s'.workers| && s'.workers[future].key == key
  {
    hide Happened, InputKey;
    var (s', future) := Schedule(s, key, config);
    if key in s.inflight {
      assert Live(s.workers[s.inflight[key]].at);
    } else {
      assert forall f :: 0 <= f < |s.workers| ==> s'.workers[f] == s.workers[f];
      StillGenuine(s.workers, s'.workers, s.cache);
      StillFailed(s.workers, s'.workers, s.failures);
    }
  }

  lemma RecordKeeps(s: Shared, future: nat, now: real, stamp: string)
    requires SoundShared(s) && future < |s.workers| && s.workers[future].at.Probed?
    ensures SoundShared(Record(s, future, now, stamp)) && Grows(s.workers, Record(s, future, now, stamp).workers)
  {
    hide InputKey, Happened;
    var s' := Record(s, future, now, stamp);
    var worker := s.workers[future];
    assert Grows(s.workers, s'.workers);
    assert Happened(s'.workers, worker.key, worker.at.outcome) by { Witness(s'.workers, future, worker.key, worker.at.outcome); }
    StillGenuine(s.workers, s'.workers, s.cache);
    StillFailed(s.workers, s'.workers, s.failures);
    assert s.inflight[worker.key] == future;
  }

  lemma Witness(workers: seq<Worker>, f: nat, key: Projection, outcome: Outcome)
    requires f < |workers| && InputKey(workers[f].config) == key && OutcomeOf(workers[f].at) == Some(outcome)
    ensures Happened(workers, key, outcome)
  {
  }

  lemma MoveKeeps(s: Shared, future: nat, at: WorkerAt)
    requires SoundShared(s) && future < |s.workers|
    requires var was := s.workers[future].at;
      (was.Probing? && at.Probed?) || (was.Recorded? && at == Settled(was.outcome))
    ensures SoundShared(MoveWorker(s, future, at)) && Grows(s.workers, MoveWorker(s, future, at).workers)
  {
    hide InputKey, Happened;
    var s' := MoveWorker(s, future, at);
    StillGenuine(s.workers, s'.workers, s.cache);
    StillFailed(s.workers, s'.workers, s.failures);
  }

  /** A request moved to a sound place, everyone else untouched. */
  lemma RequestsKeep(w: World, w': World, id: nat)
    requires forall i <- w.requests :: SoundRequest(w.shared.workers, w.requests[i])
    requires Grows(w.shared.workers, w'.shared.workers)
    requires w'.requests.Keys == w.requests.Keys + {id} && forall i <- w.requests :: i != id ==> w'.requests[i] == w.requests[i]
    requires SoundRequest(w'.shared.workers, w'.requests[id])
    ensures forall i <- w'.requests :: SoundRequest(w'.shared.workers, w'.requests[i])
  {
    hide SoundRequest, Grows;
    forall i <- w'.requests ensures SoundRequest(w'.shared.workers, w'.requests[i]) {
      if i != id { StillSound(w.shared.workers, w'.shared.workers, w.requests[i]); }
    }
  }

  lemma GrowsItself(workers: seq<Worker>)
    ensures Grows(workers, workers)
  {
  }

  /** The first look leads a request to a sound place. */
  lemma FirstLookSound(w: World, id: nat, now: real)
    requires SoundShared(w.shared) && id in w.requests
    ensures SoundRequest(w.shared.workers, LookFirst(w, id, now).requests[id])
  {
    hide Happened, InputKey, SingleFlight;
    var s, key := w.shared, InputKey(w.requests[id].config);
    assert key in s.failures ==> Happened(s.workers, key, Raised);
    if key in s.inflight { InFlightWorker(s, key); }
  }

  lemma InFlightWorker(s: Shared, key: Projection)
    requires SingleFlight(s) && key in s.inflight
    ensures s.inflight[key] < |s.workers| && s.workers[s.inflight[key]].key == key
  {
  }

  lemma FirstLookKeeps(w: World, id: nat, now: real)
    requires Sound(w) && id in w.requests && w.requests[id].at.Arrived?
    ensures Sound(LookFirst(w, id, now))
  {
    hide SoundShared, SoundRequest, InputKey, Lookup, Decide, WithFuture, Happened;
    GrowsItself(w.shared.workers);
    FirstLookSound(w, id, now);
    RequestsKeep(w, LookFirst(w, id, now), id);
  }

  lemma ScheduleStepKeeps(w: World, id: nat)
    requires Sound(w) && id in w.requests && w.requests[id].at.Scheduling?
    ensures Sound(ScheduleRequest(w, id))
  {
    hide Happened, InputKey, SoundShared, Grows, Schedule;
    var r, key := w.requests[id], InputKey(w.requests[id].config);
    ScheduleKeeps(w.shared, key, r.config);
    ScheduleEffect(w.shared, key, r.config);
    var w' := ScheduleRequest(w, id);
    StillSound(w.shared.workers, w'.shared.workers, r);
    RequestsKeep(w, w', id);
  }

  lemma ScheduleEffect(s: Shared, key: Projection, config: Json)
    ensures var (s', _) := Schedule(s, key, config); s'.latestKey == Some(key) && s'.cache == s.cache && s'.failures == s.failures
  {
  }

  lemma RecordStepKeeps(w: World, future: nat, now: real, stamp: string)
    requires Sound(w) && future < |w.shared.workers| && w.shared.workers[future].at.Probed?
    ensures Sound(RecordWorker(w, future, now, stamp))
  {
    hide SoundShared, Grows, SoundRequest;
    RecordKeeps(w.shared, future, now, stamp);
    var w' := RecordWorker(w, future, now, stamp);
    assert w'.records[..|w.records|] == w.records;
    forall i <- w'.requests ensures SoundRequest(w'.shared.workers, w'.requests[i]) {
      StillSound(w.shared.workers, w'.shared.workers, w.requests[i]);
    }
  }

  lemma MoveStepKeeps(w: World, future: nat, at: WorkerAt)
    requires Sound(w) && future < |w.shared.workers|
    requires var was := w.shared.workers[future].at;
      (was.Probing? && at.Probed?) || (was.Recorded? && at == Settled(was.outcome))
    ensures Sound(w.(shared := MoveWorker(w.shared, future, at)))
  {
    hide SoundShared, Grows, SoundRequest;
    MoveKeeps(w.shared, future, at);
    var w' := w.(shared := MoveWorker(w.shared, future, at));
    forall i <- w'.requests ensures SoundRequest(w'.shared.workers, w'.requests[i]) {
      StillSound(w.shared.workers, w'.shared.workers, w.requests[i]);
    }
  }

  lemma SecondLookSound(w: World, id: nat)
    requires Sound(w) && id in w.requests && w.requests[id].at.Returned?
    ensures SoundRequest(w.shared.workers, Apply(w, SecondLook(id)).requests[id])
  {
    hide Happened, InputKey, SingleFlight, SoundHistory, FailuresCurrent;
    var future, key := w.requests[id].at.future, InputKey(w.requests[id].config);
    assert SoundRequest(w.shared.workers, w.requests[id]);
    Witness(w.shared.workers, future, key, w.shared.workers[future].at.outcome);
  }

  lemma SecondLookKeeps(w: World, id: nat)
    requires Sound(w) && id in w.requests && w.requests[id].at.Returned?
    ensures Sound(Apply(w, SecondLook(id)))
  {
    hide SoundShared, SoundRequest, InputKey, Lookup, AfterRefresh;
    GrowsItself(w.shared.workers);
    SecondLookSound(w, id);
    RequestsKeep(w, Apply(w, SecondLook(id)), id);
  }

  /** Every step of every thread keeps the invariant. */
  lemma {:induction false} StepKeepsSound(w: World, step: Step)
    requires Sound(w)
    ensures Sound(Apply(w, step))
  {
    hide SoundShared, LookFirst, ScheduleRequest, RecordWorker, MoveWorker, AfterRefresh, Grows;
    var workers := w.shared.workers;
    match step
    case Arrive(id, config, refresh) =>
    case FirstLook(id, now) =>
      if id in w.requests && w.requests[id].at.Arrived? { FirstLookKeeps(w, id, now); }
    case ScheduleFor(id) =>
      if id in w.requests && w.requests[id].at.Scheduling? { ScheduleStepKeeps(w, id); }
    case FinishProbe(future, outcome) =>
      if future < |workers| && workers[future].at.Probing? { MoveStepKeeps(w, future, Probed(outcome)); }
    case RecordFor(future, now, stamp) =>
      if future < |workers| && workers[future].at.Probed? { RecordStepKeeps(w, future, now, stamp); }
    case Settle(future) =>
      if future < |workers| && workers[future].at.Recorded? { MoveStepKeeps(w, future, Settled(workers[future].at.outcome)); }
    case Wake(id) =>
    case SecondLook(id) =>
      if id in w.requests && w.requests[id].at.Returned? { SecondLookKeeps(w, id); }
  }

  lemma {:induction false} RunIsSound(steps: seq<Step>)
    ensures Sound(Run(START, steps))
  {
    hide Sound, Apply;
    if steps == [] {
      StartIsSound();
    } else {
      RunIsSound(steps[..|steps| - 1]);
      StepKeepsSound(Run(START, steps[..|steps| - 1]), steps[|steps| - 1]);
    }
  }

  lemma StartIsSound()
    ensures Sound(START)
  {
  }

  // Main results, over every interleaving of requests and workers.

  /** The cache entry is the result of a probe of a configuration with its key; every answer shows
      such a result for the requested key or the placeholder, `ready` answers never the placeholder,
      and an error is reported only for a key that was probed and failed. */
  lemma {:induction false} CacheAgreesWithProbe(steps: seq<Step>)
    ensures var w := Run(START, steps);
      && Genuine(w.shared.workers, w.shared.cache)
      && forall id <- w.requests :: w.requests[id].at.Answered? ==>
           SoundResponse(w.shared.workers, InputKey(w.requests[id].config), w.requests[id].at.response)
  {
    hide Run, Genuine, SoundResponse;
    RunIsSound(steps);
    var w := Run(START, steps);
    forall id <- w.requests | w.requests[id].at.Answered?
      ensures SoundResponse(w.shared.workers, InputKey(w.requests[id].config), w.requests[id].at.response)
    {
      assert SoundRequest(w.shared.workers, w.requests[id]);
    }
  }

  /** Two workers that have not recorded their outcome yet probe different keys. */
  lemma {:induction false} OneProbePerKey(steps: seq<Step>, f: nat, g: nat)
    requires var ws := Run(START, steps).shared.workers; f < |ws| && g < |ws| && Live(ws[f].at) && Live(ws[g].at)
    requires var ws := Run(START, steps).shared.workers; ws[f].key == ws[g].key
    ensures f == g
  {
    hide Run;
    RunIsSound(steps);
  }

  /** The cache is written only for the key scheduled last, and holds the last key written: a
      superseded key never overwrites it. */
  lemma {:induction false} SupersededNeverWrites(steps: seq<Step>)
    ensures SoundHistory(Run(START, steps))
  {
    hide Run, SoundHistory;
    RunIsSound(steps);
  }

  /** The failure table is current: a failure is reported for a key exactly until a later probe of
      that key succeeds. */
  lemma {:induction false} FailuresAreLatest(steps: seq<Step>, key: Projection)
    ensures var w := Run(START, steps); key in w.shared.failures <==> LastOutcome(w.records, key) == Some(Raised)
  {
    hide Run;
    RunIsSound(steps);
  }

  /** Scheduling is never forgotten: the key scheduled last is in flight, cached, or recorded as failed. */
  lemma {:induction false} LatestKeyIsServed(steps: seq<Step>)
    ensures var s := Run(START, steps).shared;
      s.latestKey.Some? ==> s.latestKey.value in s.inflight || Matches(s.cache, s.latestKey.value) || s.latestKey.value in s.failures
  {
    hide Run;
    RunIsSound(steps);
  }

  lemma RunSnoc(w: World, steps: seq<Step>, step: Step)
    ensures Run(w, steps + [step]) == Apply(Run(w, steps), step)
  {
    assert (steps + [step])[..|steps|] == steps;
  }

  /** What the waiting refresh `id` and its worker still have to do; a step already done is skipped. */
  function Finishing(id: nat, future: nat, outcome: Outcome, now: real, stamp: string): seq<Step> {
    [FinishProbe(future, outcome), RecordFor(future, now, stamp), Settle(future), Wake(id), SecondLook(id)]
  }

  /** No refresh is stranded: in every reachable world, its worker finishing, whatever the outcome,
      is enough for a waiting request to be answered. */
  lemma {:induction false} WaiterIsReleased(steps: seq<Step>, id: nat, outcome: Outcome, now: real, stamp: string)
    requires var w := Run(START, steps); id in w.requests && w.requests[id].at.Waiting?
    ensures var more := Finishing(id, Run(START, steps).requests[id].at.future, outcome, now, stamp);
      var w := Run(START, steps + more); id in w.requests && w.requests[id].at.Answered?
  {
    hide Run, Sound;
    var w := Run(START, steps);
    var future := w.requests[id].at.future;
    assert future < |w.shared.workers| by { RunIsSound(steps); WaiterHasWorker(w, id); }
    var more := Finishing(id, future, outcome, now, stamp);
    RunMore(START, steps, more);
    Released(w, id, outcome, now, stamp);
  }

  lemma WaiterHasWorker(w: World, id: nat)
    requires Sound(w) && id in w.requests && w.requests[id].at.Waiting?
    ensures w.requests[id].at.future < |w.shared.workers|
  {
    assert SoundRequest(w.shared.workers, w.requests[id]);
  }

  lemma {:induction false} RunMore(w: World, steps: seq<Step>, more: seq<Step>)
    ensures Run(w, steps + more) == Run(Run(w, steps), more)
  {
    hide Apply;
    if more == [] {
      assert steps + more == steps;
    } else {
      var init, last := more[..|more| - 1], more[|more| - 1];
      RunMore(w, steps, init);
      assert steps + more == (steps + init) + [last];
      RunSnoc(w, steps + init, last);
    }
  }

  /** However far a worker is, its three remaining steps settle its future and touch no request. */
  lemma WorkerFinishes(w: World, f: nat, outcome: Outcome, now: real, stamp: string)
    requires f < |w.shared.workers|
    ensures var w' := Apply(Apply(Apply(w, FinishProbe(f, outcome)), RecordFor(f, now, stamp)), Settle(f));
      Done(w'.shared, f) && w'.requests == w.requests
  {
    var w1 := Apply(w, FinishProbe(f, outcome));
    assert |w1.shared.workers| == |w.shared.workers| && !w1.shared.workers[f].at.Probing? && w1.requests == w.requests;
    RecordingMoves(w1, f, now, stamp);
  }

  lemma RecordingMoves(w: World, f: nat, now: real, stamp: string)
    requires f < |w.shared.workers| && !w.shared.workers[f].at.Probing?
    ensures var w' := Apply(w, RecordFor(f, now, stamp));
      |w'.shared.workers| == |w.shared.workers| && !Live(w'.shared.workers[f].at) && w'.requests == w.requests
  {
  }

  lemma Released(w: World, id: nat, outcome: Outcome, now: real, stamp: string)
    requires id in w.requests && w.requests[id].at.Waiting? && w.requests[id].at.future < |w.shared.workers|
    ensures var w' := Run(w, Finishing(id, w.requests[id].at.future, outcome, now, stamp));
      id in w'.requests && w'.requests[id].at.Answered?
  {
    hide Run, RecordWorker, MoveWorker, AfterRefresh, LookFirst, ScheduleRequest;
    var f := w.requests[id].at.future;
    WorkerFinishes(w, f, outcome, now, stamp);
    var s1, s2, s3, s4 := FinishProbe(f, outcome), RecordFor(f, now, stamp), Settle(f), Wake(id);
    var w3 := Apply(Apply(Apply(w, s1), s2), s3);
    var w4 := Apply(w3, s4);
    assert w4.requests[id].at == Returned(f) && w4.shared == w3.shared;
    FiveSteps(w, s1, s2, s3, s4, SecondLook(id));
  }

  lemma FiveSteps(w: World, a: Step, b: Step, c: Step, d: Step, e: Step)
    ensures Run(w, [a, b, c, d, e]) == Apply(Apply(Apply(Apply(Apply(w, a), b), c), d), e)
  {
    hide Apply;
    assert [a, b, c, d, e] == [a, b, c, d] + [e] && [a, b, c, d] == [a, b, c] + [d] && [a, b, c] == [a, b] + [c];
    assert [a, b] == [a] + [b] && [a] == [] + [a];
    RunSnoc(w, [], a);
    RunSnoc(w, [a], b);
    RunSnoc(w, [a, b], c);
    RunSnoc(w, [a, b, c], d);
    RunSnoc(w, [a, b, c, d], e);
  }

  // The time stamp of a refresh.

  /** A refresh whose probe succeeded is about to look at the globals a second time. */
  predicate Refreshed(w: World, id: nat) {
    && id in w.requests && w.requests[id].at.Returned? && Done(w.shared, w.requests[id].at.future)
    && w.shared.workers[w.requests[id].at.future].at.outcome.Succeeded?
  }

  function RefreshResponse(w: World, id: nat): Response
    requires Refreshed(w, id)
  {
    Apply(w, SecondLook(id)).requests[id].at.response
  }

  /** Whose time a refresh shows, over every interleaving: that of the last cache write, whichever key
      it was for. So the entry it is taken from is the requested key's exactly when the last write was. */
  lemma {:induction false} RefreshStampExactly(steps: seq<Step>, id: nat)
    requires Refreshed(Run(START, steps), id)
    ensures var w := Run(START, steps); var key, shown := InputKey(w.requests[id].config), RefreshResponse(w, id).checkedAt;
      && shown == (if w.writes == [] then None else Some(w.writes[|w.writes| - 1].stamp))
      && (Matches(w.shared.cache, key) <==> w.writes != [] && w.writes[|w.writes| - 1].key == key)
  {
    hide Run, SoundShared, SoundRequest, InputKey, FailuresCurrent;
    RunIsSound(steps);
  }

  /** While only one key has been scheduled, every recorded success is matched by the cache. */
  ghost predicate OneKeyCached(w: World) {
    forall key, f :: 0 <= f < |w.shared.workers| && Success(w.shared.workers[f], key) && (forall k <- w.schedules :: k == key) ==>
      Matches(w.shared.cache, key)
  }

  predicate Success(worker: Worker, key: Projection) {
    worker.key == key && (worker.at.Recorded? || worker.at.Settled?) && worker.at.outcome.Succeeded?
  }

  lemma RecordCaches(w: World, future: nat, now: real, stamp: string)
    requires SoundHistory(w) && OneKeyCached(w) && future < |w.shared.workers| && w.shared.workers[future].at.Probed?
    ensures OneKeyCached(RecordWorker(w, future, now, stamp))
  {
    var w' := RecordWorker(w, future, now, stamp);
    forall key, f | 0 <= f < |w'.shared.workers| && Success(w'.shared.workers[f], key) && forall k <- w'.schedules :: k == key
      ensures Matches(w'.shared.cache, key)
    {
      assert w.schedules[|w.schedules| - 1] in w'.schedules;
      if f != future { assert Success(w.shared.workers[f], key); }
    }
  }

  lemma StepKeepsOneKey(w: World, step: Step)
    requires Sound(w) && OneKeyCached(w)
    ensures OneKeyCached(Apply(w, step))
  {
    hide SoundShared, SoundRequest, FailuresCurrent, Decide, Fallback, Lookup, AfterRefresh, InputKey, WithFuture, Matches, SoundHistory;
    var workers, w' := w.shared.workers, Apply(w, step);
    if step.RecordFor? {
      if step.future < |workers| && workers[step.future].at.Probed? { RecordCaches(w, step.future, step.now, step.stamp); }
    } else {
      forall key, f | 0 <= f < |w'.shared.workers| && Success(w'.shared.workers[f], key) && forall k <- w'.schedules :: k == key
        ensures Matches(w'.shared.cache, key)
      {
        assert forall k <- w.schedules :: k in w'.schedules;
        assert Success(workers[f], key);
      }
    }
  }

  lemma {:induction false} RunKeepsOneKey(steps: seq<Step>)
    ensures OneKeyCached(Run(START, steps))
  {
    if steps != [] {
      hide Apply, Sound, OneKeyCached;
      RunKeepsOneKey(steps[..|steps| - 1]);
      RunIsSound(steps[..|steps| - 1]);
      StepKeepsOneKey(Run(START, steps[..|steps| - 1]), steps[|steps| - 1]);
    }
  }

  /** What a caller can check: if no other key was ever scheduled, a successful refresh shows the time
      at which a probe of its own key was recorded. */
  lemma {:induction false} OwnStampWithoutOtherKeys(steps: seq<Step>, id: nat)
    requires Refreshed(Run(START, steps), id)
    requires var w := Run(START, steps); forall k <- w.schedules :: k == InputKey(w.requests[id].config)
    ensures var w := Run(START, steps); var key := InputKey(w.requests[id].config);
      && Matches(w.shared.cache, key) && RefreshResponse(w, id).checkedAt == Some(w.shared.cache.value.checkedAt)
      && w.writes != [] && w.writes[|w.writes| - 1].key == key
  {
    hide Run, InputKey, SoundShared, FailuresCurrent;
    RefreshStampExactly(steps, id);
    RunKeepsOneKey(steps);
    RunIsSound(steps);
    var w := Run(START, steps);
    assert SoundRequest(w.shared.workers, w.requests[id]);
    assert Success(w.shared.workers[w.requests[id].at.future], InputKey(w.requests[id].config));
  }

  lemma KeysDiffer()
    ensures InputKey(Str("a")) != InputKey(Obj(map["remoteLink" := Str("b")]))
  {
    assert InputKey(Obj(map["remoteLink" := Str("b")])).remoteLink == Str("b");
  }

  /** Request 0 refreshes one configuration. */
  lemma OneKeyScheduled(a: Json) returns (steps: seq<Step>)
    ensures var w := Run(START, steps);
      && w.shared == Shared(None, map[], map[InputKey(a) := 0], Some(InputKey(a)), [Worker(InputKey(a), a, Probing)])
      && w.requests == map[0 := Request(a, true, Waiting(0))]
  {
    hide InputKey, Fallback;
    RunSnoc(START, [], Arrive(0, a, true));
    steps := [] + [Arrive(0, a, true)];
    RunSnoc(START, steps, FirstLook(0, 0.0));
    steps := steps + [FirstLook(0, 0.0)];
    RunSnoc(START, steps, ScheduleFor(0));
    steps := steps + [ScheduleFor(0)];
  }

  /** Meanwhile request 1 schedules another. */
  lemma TwoKeysScheduled(a: Json, b: Json) returns (steps: seq<Step>)
    requires InputKey(a) != InputKey(b)
    ensures var (ka, kb) := (InputKey(a), InputKey(b));
      var w := Run(START, steps);
      && w.shared == Shared(None, map[], map[ka := 0, kb := 1], Some(kb), [Worker(ka, a, Probing), Worker(kb, b, Probing)])
      && 0 in w.requests && w.requests[0] == Request(a, true, Waiting(0))
  {
    hide InputKey, Fallback, Run;
    steps := OneKeyScheduled(a);
    RunSnoc(START, steps, Arrive(1, b, false));
    steps := steps + [Arrive(1, b, false)];
    RunSnoc(START, steps, FirstLook(1, 0.0));
    steps := steps + [FirstLook(1, 0.0)];
    RunSnoc(START, steps, ScheduleFor(1));
    steps := steps + [ScheduleFor(1)];
  }

  /** Both probes succeed; only the one scheduled last is cached. */
  lemma BothRecorded(a: Json, b: Json, ours: Snapshot, theirs: Snapshot, before: seq<Step>) returns (steps: seq<Step>)
    requires var (ka, kb) := (InputKey(a), InputKey(b));
      && ka != kb
      && Run(START, before).shared
         == Shared(None, map[], map[ka := 0, kb := 1], Some(kb), [Worker(ka, a, Probing), Worker(kb, b, Probing)])
    ensures var w, was := Run(START, steps), Run(START, before);
      && w.requests == was.requests
      && w.shared.cache == Some(Entry(InputKey(b), 2.0, "theirs", theirs))
      && |w.shared.workers| == 2 && w.shared.workers[0].at == Recorded(Succeeded(ours))
  {
    hide InputKey, Run;
    steps := before;
    RunSnoc(START, steps, FinishProbe(0, Succeeded(ours)));
    steps := steps + [FinishProbe(0, Succeeded(ours))];
    RunSnoc(START, steps, RecordFor(0, 1.0, "ours"));
    steps := steps + [RecordFor(0, 1.0, "ours")];
    assert Run(START, steps).shared.cache == None;
    RunSnoc(START, steps, FinishProbe(1, Succeeded(theirs)));
    steps := steps + [FinishProbe(1, Succeeded(theirs))];
    RunSnoc(START, steps, RecordFor(1, 2.0, "theirs"));
    steps := steps + [RecordFor(1, 2.0, "theirs")];
    assert Run(START, steps).shared.cache == Some(Entry(InputKey(b), 2.0, "theirs", theirs));
  }

  /** The time shown with a refreshed snapshot may be that of another key's probe: the refresh reads
      it from whatever the cache holds once its own future is done. */
  lemma {:induction false} RefreshStampMayBeForeign(ours: Snapshot, theirs: Snapshot)
    ensures exists steps ::
      var w := Run(START, steps);
      && 0 in w.requests && w.requests[0].at == Answered(Response(Found(ours), Ready, false, Some("theirs"), None))
      && w.shared.cache.Some? && w.shared.cache.value.inputKey != InputKey(w.requests[0].config)
  {
    hide InputKey, Run;
    var a, b := Str("a"), Obj(map["remoteLink" := Str("b")]);
    KeysDiffer();
    var steps := TwoKeysScheduled(a, b);
    steps := BothRecorded(a, b, ours, theirs, steps);
    RunSnoc(START, steps, Settle(0));
    steps := steps + [Settle(0)];
    RunSnoc(START, steps, Wake(0));
    steps := steps + [Wake(0)];
    RunSnoc(START, steps, SecondLook(0));
    steps := steps + [SecondLook(0)];
  }
}
