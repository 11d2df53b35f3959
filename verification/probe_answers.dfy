/** Every answer of a run of the probe cache, traced back to the steps that led to it: what the request
    saw when it looked at the globals, the probe it waited for, and the writes that filled the globals. */
module ProbeAnswers {
  import opened PyText
  import opened PyJson
  import opened ProbeCache

  /** The world after the first `n` steps. */
  function At(steps: seq<Step>, n: nat): World
    requires n <= |steps|
  {
    Run(START, steps[..n])
  }

  lemma NextWorld(steps: seq<Step>, n: nat)
    requires n < |steps|
    ensures At(steps, n + 1) == Apply(At(steps, n), steps[n])
  {
    assert steps[..n + 1] == steps[..n] + [steps[n]];
    RunSnoc(START, steps[..n], steps[n]);
  }

  // What the globals hold.

  predicate BothUnsetOrEqual(a: Json, b: Json) {
    Truthy(a) == Truthy(b) && (Truthy(a) ==> a == b)
  }

  /** Two configurations share a key exactly when they agree on both addresses, the desktop tools and
      the remote link, where an empty setting is as good as none. */
  lemma {:induction false} KeysAgreeExactly(a: Json, b: Json)
    ensures InputKey(a) == InputKey(b) <==>
      && BothUnsetOrEqual(Get(Get(a, "bridge"), "adminBaseUrl"), Get(Get(b, "bridge"), "adminBaseUrl"))
      && BothUnsetOrEqual(Get(Get(a, "bridge"), "engineBaseUrl"), Get(Get(b, "bridge"), "engineBaseUrl"))
      && BothUnsetOrEqual(Get(a, "desktopTools"), Get(b, "desktopTools"))
      && BothUnsetOrEqual(Get(a, "remoteLink"), Get(b, "remoteLink"))
  {
    hide Get;
  }

  /** The n-th step records the outcome of a probe of `key`. */
  predicate RecordsKey(steps: seq<Step>, n: nat, key: Projection) {
    && n < |steps| && steps[n].RecordFor?
    && var workers := At(steps, n).shared.workers;
      steps[n].future < |workers| && workers[steps[n].future].at.Probed? && workers[steps[n].future].key == key
  }

  function RecordedOutcome(steps: seq<Step>, n: nat, key: Projection): Outcome
    requires RecordsKey(steps, n, key)
  {
    At(steps, n).shared.workers[steps[n].future].at.outcome
  }

  /** The n-th step records a success for the key that was scheduled last. */
  predicate WritesCache(steps: seq<Step>, n: nat, key: Projection) {
    RecordsKey(steps, n, key) && RecordedOutcome(steps, n, key).Succeeded? && At(steps, n).shared.latestKey == Some(key)
  }

  /** The cache holds what the last write put there, with its time. */
  ghost predicate CacheAsWritten(steps: seq<Step>, n: nat)
    requires n <= |steps|
  {
    match At(steps, n).shared.cache
    case None => forall k, key :: 0 <= k < n ==> !WritesCache(steps, k, key)
    case Some(e) => exists k ::
      && 0 <= k < n && WritesCache(steps, k, e.inputKey)
      && e == Entry(e.inputKey, steps[k].now, steps[k].stamp, RecordedOutcome(steps, k, e.inputKey).snapshot)
      && forall later, key :: k < later < n ==> !WritesCache(steps, later, key)
  }

  /** The failure table holds a key exactly when the last outcome recorded for it is a failure, with
      its time. */
  ghost predicate FailureAsRecorded(steps: seq<Step>, n: nat, key: Projection)
    requires n <= |steps|
  {
    var failures := At(steps, n).shared.failures;
    if key in failures then exists k ::
      && 0 <= k < n && RecordsKey(steps, k, key) && RecordedOutcome(steps, k, key).Raised?
      && failures[key] == Failure(steps[k].stamp, steps[k].now)
      && forall later :: k < later < n ==> !RecordsKey(steps, later, key)
    else forall k :: 0 <= k < n && RecordsKey(steps, k, key) && RecordedOutcome(steps, k, key).Raised? ==>
      exists later :: k < later < n && RecordsKey(steps, later, key) && RecordedOutcome(steps, later, key).Succeeded?
  }

  lemma OtherStepsKeepTables(w: World, step: Step)
    requires !(step.RecordFor? && step.future < |w.shared.workers| && w.shared.workers[step.future].at.Probed?)
    ensures Apply(w, step).shared.cache == w.shared.cache && Apply(w, step).shared.failures == w.shared.failures
  {
    hide InputKey, Decide, Fallback, AfterRefresh, WithFuture;
  }

  lemma RecordingEffect(w: World, step: Step)
    requires step.RecordFor? && step.future < |w.shared.workers| && w.shared.workers[step.future].at.Probed?
    ensures var s, s', worker := w.shared, Apply(w, step).shared, w.shared.workers[step.future];
      && s'.cache == (if worker.at.outcome.Succeeded? && s.latestKey == Some(worker.key)
                      then Some(Entry(worker.key, step.now, step.stamp, worker.at.outcome.snapshot)) else s.cache)
      && s'.failures == (if worker.at.outcome.Raised? then s.failures[worker.key := Failure(step.stamp, step.now)]
                         else s.failures - {worker.key})
      && s'.inflight == (if worker.key in s.inflight && s.inflight[worker.key] == step.future then s.inflight - {worker.key} else s.inflight)
  {
  }

  lemma {:induction false} CacheIsLastWrite(steps: seq<Step>, n: nat)
    requires n <= |steps|
    ensures CacheAsWritten(steps, n)
  {
    hide Run, Apply;
    if n == 0 {
      assert At(steps, 0) == START by { NoSteps(steps); }
    } else {
      CacheIsLastWrite(steps, n - 1);
      NextWorld(steps, n - 1);
      var w, step := At(steps, n - 1), steps[n - 1];
      if step.RecordFor? && step.future < |w.shared.workers| && w.shared.workers[step.future].at.Probed? {
        RecordingEffect(w, step);
        assert RecordsKey(steps, n - 1, w.shared.workers[step.future].key);
        if At(steps, n).shared.cache != w.shared.cache {
          assert WritesCache(steps, n - 1, w.shared.workers[step.future].key);
        }
      } else {
        OtherStepsKeepTables(w, step);
      }
    }
  }

  lemma NoSteps(steps: seq<Step>)
    ensures At(steps, 0) == START
  {
    assert steps[..0] == [];
  }

  lemma {:induction false} FailureIsLastRecord(steps: seq<Step>, n: nat, key: Projection)
    requires n <= |steps|
    ensures FailureAsRecorded(steps, n, key)
  {
    hide Run, Apply;
    if n == 0 {
      assert At(steps, 0) == START by { NoSteps(steps); }
    } else {
      FailureIsLastRecord(steps, n - 1, key);
      NextWorld(steps, n - 1);
      var w, step := At(steps, n - 1), steps[n - 1];
      if step.RecordFor? && step.future < |w.shared.workers| && w.shared.workers[step.future].at.Probed? {
        RecordingEffect(w, step);
        assert w.shared.workers[step.future].key == key ==> RecordsKey(steps, n - 1, key);
      } else {
        OtherStepsKeepTables(w, step);
      }
    }
  }

  // What a request is told.

  predicate InFlight(w: World, key: Projection, f: nat) {
    f < |w.shared.workers| && w.shared.workers[f].key == key && Live(w.shared.workers[f].at)
  }

  ghost predicate Flying(w: World, key: Projection) {
    exists f: nat :: InFlight(w, key, f)
  }

  predicate Ours(w: World, key: Projection) {
    w.shared.cache.Some? && w.shared.cache.value.inputKey == key
  }

  predicate Fresh(w: World, key: Projection, now: real) {
    Ours(w, key) && now - w.shared.cache.value.checkedAtMonotonic < 30.0
  }

  predicate Failing(w: World, key: Projection, now: real) {
    key in w.shared.failures && now - w.shared.failures[key].checkedAtMonotonic < 10.0
  }

  /** The cached snapshot of the requested key, if there is one, with its time. */
  predicate ShowsCache(w: World, key: Projection, r: Response) {
    && r.shown == (if Ours(w, key) then Found(w.shared.cache.value.snapshot) else Placeholder)
    && r.checkedAt == (if Ours(w, key) then Some(w.shared.cache.value.checkedAt) else None)
  }

  function FailureTime(w: World, key: Projection): Option<string> {
    if key in w.shared.failures then Some(w.shared.failures[key].checkedAt) else None
  }

  /** What a request that does not refresh is told, by what it saw at its first look. */
  ghost predicate ToldAtOnce(w: World, key: Projection, now: real, r: Response) {
    && (r.status.Ready? <==> Fresh(w, key, now) && !Flying(w, key))
    && (r.status.Error? <==> !Fresh(w, key, now) && Failing(w, key, now) && !Flying(w, key))
    && ShowsCache(w, key, r)
    && r.stale == (Ours(w, key) && !r.status.Ready?)
    && r.failedAt == if r.status.Ready? then None else FailureTime(w, key)
  }

  /** What a refresh is told once the probe it waited for has ended, by what it saw at its second look. */
  predicate ToldAfterProbe(w: World, key: Projection, outcome: Outcome, r: Response) {
    match outcome
    case Succeeded(snapshot) =>
      && r.status.Ready? && r.shown == Found(snapshot) && !r.stale && r.failedAt == None
      && r.checkedAt == if w.shared.cache.Some? then Some(w.shared.cache.value.checkedAt) else None
    case Raised =>
      r.status.Error? && ShowsCache(w, key, r) && r.stale == Ours(w, key) && r.failedAt == FailureTime(w, key)
  }

  /** A request in the world, and where it is. */
  predicate IsAt(w: World, id: nat, config: Json, refresh: bool, at: RequestAt) {
    id in w.requests && w.requests[id] == Request(config, refresh, at)
  }

  /** The n-th step is the first look of the request. */
  predicate LooksAt(steps: seq<Step>, n: nat, id: nat, config: Json, refresh: bool) {
    && n < |steps| && steps[n].FirstLook? && steps[n].id == id
    && IsAt(At(steps, n), id, config, refresh, Arrived)
  }

  /** With the n-th step the request waits for a probe of its key whose outcome is not yet recorded. */
  predicate StartsWaiting(steps: seq<Step>, n: nat, id: nat, config: Json, f: nat) {
    && n < |steps| && (steps[n] == ScheduleFor(id) || (steps[n].FirstLook? && steps[n].id == id))
    && IsAt(At(steps, n + 1), id, config, true, Waiting(f)) && InFlight(At(steps, n + 1), InputKey(config), f)
  }

  /** With the n-th step the request, whose probe has ended, gets its answer. */
  predicate LooksAgain(steps: seq<Step>, n: nat, id: nat, config: Json, f: nat, r: Response) {
    && n < |steps| && steps[n] == SecondLook(id)
    && var w := At(steps, n);
      && IsAt(w, id, config, true, Returned(f)) && Done(w.shared, f)
      && ToldAfterProbe(w, InputKey(config), w.shared.workers[f].at.outcome, r)
  }

  /** Where a request is, and how it came there. */
  ghost predicate Explained(steps: seq<Step>, n: nat, id: nat)
    requires n <= |steps| && id in At(steps, n).requests
  {
    var Request(config, refresh, at) := At(steps, n).requests[id];
    var key := InputKey(config);
    && (exists k :: 0 <= k < n && steps[k] == Arrive(id, config, refresh) && id !in At(steps, k).requests)
    && match at
      case Arrived => true
      case Scheduling(cached, failure) => exists k ::
        && 0 <= k < n && LooksAt(steps, k, id, config, refresh)
        && cached == At(steps, k).shared.cache && failure == Lookup(At(steps, k).shared.failures, key)
        && !Flying(At(steps, k), key)
        && (!refresh ==> !Fresh(At(steps, k), key, steps[k].now) && !Failing(At(steps, k), key, steps[k].now))
      case Waiting(f) => refresh && exists k :: 0 <= k < n && StartsWaiting(steps, k, id, config, f)
      case Returned(f) => refresh && exists k :: 0 <= k < n && StartsWaiting(steps, k, id, config, f)
      case Answered(r) =>
        if refresh then exists k, f: nat, last :: 0 <= k < last < n && StartsWaiting(steps, k, id, config, f) && LooksAgain(steps, last, id, config, f, r)
        else exists k :: 0 <= k < n && LooksAt(steps, k, id, config, false) && ToldAtOnce(At(steps, k), key, steps[k].now, r)
  }

  // Each step leads to an explained place.

  lemma FlyingIsListed(w: World, key: Projection)
    requires SingleFlight(w.shared)
    ensures Flying(w, key) <==> key in w.shared.inflight
    ensures key in w.shared.inflight ==> InFlight(w, key, w.shared.inflight[key])
  {
    if key in w.shared.inflight { assert InFlight(w, key, w.shared.inflight[key]); }
  }

  /** What the first look leads to. */
  lemma FirstLookCases(w: World, id: nat, now: real)
    requires SingleFlight(w.shared) && id in w.requests && w.requests[id].at.Arrived?
    ensures var w' := Apply(w, FirstLook(id, now));
      var Request(config, refresh, _) := w.requests[id];
      var key := InputKey(config);
      && w'.shared == w.shared && w'.requests.Keys == w.requests.Keys
      && (forall other <- w.requests :: other != id ==> w'.requests[other] == w.requests[other])
      && w'.requests[id].config == config && w'.requests[id].refresh == refresh
      && match w'.requests[id].at
         case Waiting(f) => refresh && InFlight(w', key, f)
         case Scheduling(cached, failure) =>
           && cached == w.shared.cache && failure == Lookup(w.shared.failures, key) && !Flying(w, key)
           && (!refresh ==> !Fresh(w, key, now) && !Failing(w, key, now))
         case Answered(r) => !refresh && ToldAtOnce(w, key, now, r)
         case _ => false
  {
    hide InputKey, SingleFlight;
    FlyingIsListed(w, InputKey(w.requests[id].config));
  }

  /** What scheduling leads to. */
  lemma ScheduleCases(w: World, id: nat)
    requires SingleFlight(w.shared) && id in w.requests && w.requests[id].at.Scheduling?
    ensures var w' := Apply(w, ScheduleFor(id));
      var Request(config, refresh, at) := w.requests[id];
      var key := InputKey(config);
      && w'.requests.Keys == w.requests.Keys
      && (forall other <- w.requests :: other != id ==> w'.requests[other] == w.requests[other])
      && w'.requests[id].config == config && w'.requests[id].refresh == refresh
      && if refresh then w'.requests[id].at.Waiting? && InFlight(w', key, w'.requests[id].at.future)
         else w'.requests[id].at == Answered(Fallback(at.cached, key, Refreshing, FailedAt(at.failure)))
  {
    hide InputKey, Fallback;
  }

  /** The answer given when a probe was scheduled is the one announced by the first look. */
  lemma ScheduledAnswer(w: World, key: Projection, now: real, r: Response)
    requires !Flying(w, key) && !Fresh(w, key, now) && !Failing(w, key, now)
    requires r == Fallback(w.shared.cache, key, Refreshing, FailedAt(Lookup(w.shared.failures, key)))
    ensures ToldAtOnce(w, key, now, r)
  {
  }

  /** What the second look leads to. */
  lemma SecondLookCases(w: World, id: nat)
    requires id in w.requests && w.requests[id].at.Returned? && Done(w.shared, w.requests[id].at.future)
    ensures var w' := Apply(w, SecondLook(id));
      var Request(config, refresh, at) := w.requests[id];
      && w'.requests.Keys == w.requests.Keys
      && (forall other <- w.requests :: other != id ==> w'.requests[other] == w.requests[other])
      && w'.requests[id].config == config && w'.requests[id].refresh == refresh && w'.requests[id].at.Answered?
      && ToldAfterProbe(w, InputKey(config), w.shared.workers[at.future].at.outcome, w'.requests[id].at.response)
  {
    hide InputKey;
  }

  /** The request that a step moves, if it moves one. */
  predicate Moves(w: World, step: Step, id: nat) {
    match step
    case Arrive(i, _, _) => i == id && id !in w.requests
    case FirstLook(i, _) => i == id && id in w.requests && w.requests[id].at.Arrived?
    case ScheduleFor(i) => i == id && id in w.requests && w.requests[id].at.Scheduling?
    case Wake(i) => i == id && id in w.requests && w.requests[id].at.Waiting? && Done(w.shared, w.requests[id].at.future)
    case SecondLook(i) => i == id && id in w.requests && w.requests[id].at.Returned? && Done(w.shared, w.requests[id].at.future)
    case _ => false
  }

  lemma OthersStay(w: World, step: Step, id: nat)
    requires SingleFlight(w.shared) && !Moves(w, step, id)
    ensures var w' := Apply(w, step);
      (id in w'.requests <==> id in w.requests) && (id in w.requests ==> w'.requests[id] == w.requests[id])
  {
    hide InputKey, Decide, Fallback, AfterRefresh, WithFuture, Schedule, Record, SingleFlight;
  }

  lemma StaysExplained(steps: seq<Step>, n: nat, id: nat)
    requires n < |steps| && id in At(steps, n).requests && Explained(steps, n, id)
    requires id in At(steps, n + 1).requests && At(steps, n + 1).requests[id] == At(steps, n).requests[id]
    ensures Explained(steps, n + 1, id)
  {
    hide InputKey, At, LooksAt, StartsWaiting, LooksAgain, ToldAtOnce, Flying, Fresh, Failing, Lookup;
  }

  lemma FirstLookExplained(steps: seq<Step>, n: nat, id: nat)
    requires n < |steps| && Moves(At(steps, n), steps[n], id) && steps[n].FirstLook?
    requires SingleFlight(At(steps, n).shared) && Explained(steps, n, id)
    ensures id in At(steps, n + 1).requests && Explained(steps, n + 1, id)
  {
    hide InputKey, At, Apply, SingleFlight, ToldAtOnce, ToldAfterProbe, Flying, Fresh, Failing, Lookup, InFlight, Fallback;
    NextWorld(steps, n);
    var w, w' := At(steps, n), At(steps, n + 1);
    var Request(config, refresh, _) := w.requests[id];
    FirstLookCases(w, id, steps[n].now);
    assert w'.requests[id].at.Waiting? ==> StartsWaiting(steps, n, id, config, w'.requests[id].at.future);
    assert LooksAt(steps, n, id, config, refresh);
  }

  lemma ScheduleExplained(steps: seq<Step>, n: nat, id: nat)
    requires n < |steps| && Moves(At(steps, n), steps[n], id) && steps[n].ScheduleFor?
    requires SingleFlight(At(steps, n).shared) && Explained(steps, n, id)
    ensures id in At(steps, n + 1).requests && Explained(steps, n + 1, id)
  {
    hide InputKey, At, Apply, SingleFlight, ToldAtOnce, ToldAfterProbe, Flying, Fresh, Failing, Lookup, InFlight, Fallback;
    NextWorld(steps, n);
    var w, w' := At(steps, n), At(steps, n + 1);
    ScheduleCases(w, id);
    var Request(config, refresh, at) := w.requests[id];
    var key := InputKey(config);
    if refresh {
      assert StartsWaiting(steps, n, id, config, w'.requests[id].at.future);
    } else {
      var k :| 0 <= k < n && LooksAt(steps, k, id, config, refresh)
        && at.cached == At(steps, k).shared.cache && at.failure == Lookup(At(steps, k).shared.failures, key)
        && !Flying(At(steps, k), key) && !Fresh(At(steps, k), key, steps[k].now) && !Failing(At(steps, k), key, steps[k].now);
      ScheduledAnswer(At(steps, k), key, steps[k].now, w'.requests[id].at.response);
    }
  }

  lemma SecondLookExplained(steps: seq<Step>, n: nat, id: nat)
    requires n < |steps| && Moves(At(steps, n), steps[n], id) && steps[n].SecondLook? && Explained(steps, n, id)
    ensures id in At(steps, n + 1).requests && Explained(steps, n + 1, id)
  {
    hide InputKey, At, Apply, ToldAtOnce, ToldAfterProbe, Flying, Fresh, Failing, Lookup, InFlight, Fallback, StartsWaiting;
    NextWorld(steps, n);
    var w := At(steps, n);
    SecondLookCases(w, id);
    var Request(config, refresh, at) := w.requests[id];
    var k :| 0 <= k < n && StartsWaiting(steps, k, id, config, at.future);
    assert LooksAgain(steps, n, id, config, at.future, At(steps, n + 1).requests[id].at.response);
  }

  lemma MovesExplained(steps: seq<Step>, n: nat, id: nat)
    requires n < |steps| && Moves(At(steps, n), steps[n], id) && SingleFlight(At(steps, n).shared)
    requires id in At(steps, n).requests ==> Explained(steps, n, id)
    ensures id in At(steps, n + 1).requests && Explained(steps, n + 1, id)
  {
    hide InputKey, At, Apply, SingleFlight, ToldAtOnce, LooksAgain, LooksAt, StartsWaiting, Flying, Fresh, Failing, Lookup, InFlight;
    NextWorld(steps, n);
    match steps[n]
    case Arrive(_, _, _) => ArriveEffect(At(steps, n), steps[n]);
    case FirstLook(_, _) => FirstLookExplained(steps, n, id);
    case ScheduleFor(_) => ScheduleExplained(steps, n, id);
    case Wake(_) => WakeEffect(At(steps, n), id);
    case SecondLook(_) => SecondLookExplained(steps, n, id);
    case _ =>
  }

  lemma ArriveEffect(w: World, step: Step)
    requires step.Arrive? && step.id !in w.requests
    ensures step.id in Apply(w, step).requests && Apply(w, step).requests[step.id] == Request(step.config, step.refresh, Arrived)
  {
  }

  lemma WakeEffect(w: World, id: nat)
    requires Moves(w, Wake(id), id)
    ensures id in Apply(w, Wake(id)).requests
    ensures Apply(w, Wake(id)).requests[id] == w.requests[id].(at := Returned(w.requests[id].at.future))
  {
  }

  lemma {:induction false} AllExplained(steps: seq<Step>, n: nat, id: nat)
    requires n <= |steps| && id in At(steps, n).requests
    ensures Explained(steps, n, id)
  {
    hide At, Explained, Moves, SingleFlight, Apply;
    NoSteps(steps);
    if n > 0 {
      var w := At(steps, n - 1);
      if id in w.requests { AllExplained(steps, n - 1, id); }
      ReachedIsSingleFlight(steps, n - 1);
      if Moves(w, steps[n - 1], id) {
        MovesExplained(steps, n - 1, id);
      } else {
        NextWorld(steps, n - 1);
        OthersStay(w, steps[n - 1], id);
        StaysExplained(steps, n - 1, id);
      }
    }
  }

  lemma ReachedIsSingleFlight(steps: seq<Step>, n: nat)
    requires n <= |steps|
    ensures SingleFlight(At(steps, n).shared)
  {
    hide Run;
    RunIsSound(steps[..n]);
  }

  // Main results, over every interleaving of requests and workers.

  /** A request without refresh is answered by what its first look saw: ready exactly when the entry of
      its key is younger than the time to live, an error exactly when it is not and a failure of its key
      is younger than the back-off, and either only while no probe of its key is in flight. */
  lemma {:induction false} AnsweredByFirstLook(steps: seq<Step>, id: nat)
    requires var w := Run(START, steps); id in w.requests && !w.requests[id].refresh && w.requests[id].at.Answered?
    ensures var Request(config, _, at) := Run(START, steps).requests[id];
      exists k :: 0 <= k < |steps| && LooksAt(steps, k, id, config, false) && ToldAtOnce(At(steps, k), InputKey(config), steps[k].now, at.response)
  {
    hide Run, InputKey, LooksAt, ToldAtOnce, Lookup;
    assert steps[..|steps|] == steps;
    AllExplained(steps, |steps|, id);
  }

  /** A refresh is answered by a probe: it waited for one that had not recorded its outcome when the
      wait began, and its answer is that outcome. So no first look ever answers a refresh. */
  lemma {:induction false} RefreshAnsweredByProbe(steps: seq<Step>, id: nat)
    requires var w := Run(START, steps); id in w.requests && w.requests[id].refresh && w.requests[id].at.Answered?
    ensures var w := Run(START, steps);
      var Request(config, _, at) := w.requests[id];
      exists k, f: nat, last ::
        && 0 <= k < last < |steps| && StartsWaiting(steps, k, id, config, f) && LooksAgain(steps, last, id, config, f, at.response)
        && Done(w.shared, f) && w.shared.workers[f].key == InputKey(config)
        && (at.response.status.Ready? <==> w.shared.workers[f].at.outcome.Succeeded?)
        && (at.response.status.Error? <==> w.shared.workers[f].at.outcome.Raised?)
        && (at.response.status.Ready? ==> at.response.shown == Found(w.shared.workers[f].at.outcome.snapshot))
  {
    hide Run, InputKey, StartsWaiting, Lookup, ShowsCache;
    assert steps[..|steps|] == steps;
    AllExplained(steps, |steps|, id);
    var Request(config, _, at) := Run(START, steps).requests[id];
    var k, f: nat, last :| 0 <= k < last < |steps| && StartsWaiting(steps, k, id, config, f) && LooksAgain(steps, last, id, config, f, at.response);
    OutcomeIsKept(steps, last, |steps|, f);
    WaitedForKey(steps, k, id, config, f);
    KeyIsKept(steps, k + 1, |steps|, f);
  }

  lemma WaitedForKey(steps: seq<Step>, k: nat, id: nat, config: Json, f: nat)
    requires StartsWaiting(steps, k, id, config, f)
    ensures InFlight(At(steps, k + 1), InputKey(config), f)
  {
  }

  lemma StepKeepsWorker(w: World, step: Step, f: nat)
    requires f < |w.shared.workers|
    ensures f < |Apply(w, step).shared.workers| && Apply(w, step).shared.workers[f].key == w.shared.workers[f].key
    ensures w.shared.workers[f].at.Settled? ==> Apply(w, step).shared.workers[f] == w.shared.workers[f]
  {
    hide InputKey, Decide, Fallback, AfterRefresh, WithFuture;
  }

  lemma {:induction false} OutcomeIsKept(steps: seq<Step>, n: nat, m: nat, f: nat)
    requires n <= m <= |steps| && Done(At(steps, n).shared, f)
    ensures Done(At(steps, m).shared, f) && At(steps, m).shared.workers[f] == At(steps, n).shared.workers[f]
    decreases m
  {
    hide At, Apply;
    if n < m {
      OutcomeIsKept(steps, n, m - 1, f);
      NextWorld(steps, m - 1);
      StepKeepsWorker(At(steps, m - 1), steps[m - 1], f);
    }
  }

  lemma {:induction false} KeyIsKept(steps: seq<Step>, n: nat, m: nat, f: nat)
    requires n <= m <= |steps| && f < |At(steps, n).shared.workers|
    ensures f < |At(steps, m).shared.workers| && At(steps, m).shared.workers[f].key == At(steps, n).shared.workers[f].key
    decreases m
  {
    hide At, Apply;
    if n < m {
      KeyIsKept(steps, n, m - 1, f);
      NextWorld(steps, m - 1);
      StepKeepsWorker(At(steps, m - 1), steps[m - 1], f);
    }
  }

  /** Each request is the one that arrived under its number. */
  lemma {:induction false} RequestsAsArrived(steps: seq<Step>, id: nat)
    requires id in Run(START, steps).requests
    ensures var r := Run(START, steps).requests[id];
      exists k :: 0 <= k < |steps| && steps[k] == Arrive(id, r.config, r.refresh) && id !in At(steps, k).requests
  {
    hide Run;
    assert steps[..|steps|] == steps;
    AllExplained(steps, |steps|, id);
  }
}
