/** The race between `session/cancel` and a prompt that has not yet learned its run id: the shared
    cancel flag and run id, one prompt thread and any number of cancel threads, step by step. */
module CancelRace {
  import opened PyText

  /** Where the prompt thread is. A fresh prompt clears the flag, resets the run id, learns the run
      id from the stream, tests the flag and, if it is set, cancels. A resumed prompt takes its run
      id from the backend's response instead and never tests the flag. */
  datatype PromptAt =
    | BeforeClear | BeforeReset | BeforeLearn | BeforeTest | SelfCancelSet | SelfCancelRead | SelfCancelCall(run: string)
    | Reading

  /** Where a cancel thread is: set the flag, read the run id, read it again as the call's
      argument, call. `late` when its flag was set after the prompt cleared it. */
  datatype CancelAt =
    | BeforeSet
    | BeforeRead(late: bool)
    | BeforeArgument(late: bool)
    | BeforeCall(late: bool, argument: Option<string>)
    | Finished(late: bool)

  datatype State = State(flag: bool, runId: Option<string>, prompt: PromptAt, cancels: map<nat, CancelAt>, calls: seq<string>)

  /** A step of the prompt thread, the arrival of a cancel request, or a step of a cancel thread. */
  datatype Step = PromptStep | Arrive(id: nat) | CancelStep(id: nat)

  /** Whether the prompt has cleared the flag. */
  predicate Cleared(at: PromptAt) { !at.BeforeClear? }

  function StepPrompt(s: State, learned: string): State {
    match s.prompt
    case BeforeClear => s.(flag := false, prompt := BeforeReset)
    case BeforeReset => s.(runId := None, prompt := BeforeLearn)
    case BeforeLearn => s.(runId := Some(learned), prompt := BeforeTest)
    case BeforeTest => s.(prompt := if s.flag then SelfCancelSet else Reading)
    case SelfCancelSet => s.(flag := true, prompt := SelfCancelRead)
    case SelfCancelRead => s.(prompt := if s.runId.Some? then SelfCancelCall(s.runId.value) else Reading)
    case SelfCancelCall(run) => s.(calls := s.calls + [run], prompt := Reading)
    case Reading => s
  }

  /** The backend refuses a call without a run id; that call reaches nothing. */
  function StepCancel(s: State, id: nat): State
    requires id in s.cancels
  {
    match s.cancels[id]
    case BeforeSet => s.(flag := true, cancels := s.cancels[id := BeforeRead(Cleared(s.prompt))])
    case BeforeRead(late) => s.(cancels := s.cancels[id := if s.runId.Some? then BeforeArgument(late) else Finished(late)])
    case BeforeArgument(late) => s.(cancels := s.cancels[id := BeforeCall(late, s.runId)])
    case BeforeCall(late, argument) =>
      s.(cancels := s.cancels[id := Finished(late)], calls := if argument.Some? then s.calls + [argument.value] else s.calls)
    case Finished(_) => s
  }

  /** The prompt thread when a pending question is answered: it clears the flag and takes the resumed
      run id from the backend's response, without resetting the old one or testing the flag. */
  function StepResumed(s: State, resumed: string): State {
    match s.prompt
    case BeforeClear => s.(flag := false, prompt := BeforeLearn)
    case BeforeLearn => s.(runId := Some(resumed), prompt := Reading)
    case _ => s
  }

  datatype Kind = FreshPrompt | ResumedPrompt

  function Apply(kind: Kind, s: State, step: Step, learned: string): State {
    match step
    case PromptStep => if kind.FreshPrompt? then StepPrompt(s, learned) else StepResumed(s, learned)
    case Arrive(id) => if id in s.cancels then s else s.(cancels := s.cancels[id := BeforeSet])
    case CancelStep(id) => if id in s.cancels then StepCancel(s, id) else s
  }

  /** The state after a schedule; `learned` is the run id the prompt learns. */
  function Run(kind: Kind, s: State, steps: seq<Step>, learned: string): State {
    if steps == [] then s
    else Apply(kind, Run(kind, s, steps[..|steps| - 1], learned), steps[|steps| - 1], learned)
  }

  /** A session about to start a prompt: the flag and the run id are left over from before, and
      earlier cancel requests may be anywhere. */
  predicate Start(s: State) {
    s.prompt.BeforeClear? && s.calls == [] && forall id <- s.cancels :: NotLate(s.cancels[id])
  }

  predicate NotLate(c: CancelAt) {
    match c
    case BeforeSet => true
    case BeforeRead(late) => !late
    case BeforeArgument(late) => !late
    case BeforeCall(late, _) => !late
    case Finished(late) => !late
  }

  predicate HasRun(at: PromptAt) {
    at.BeforeTest? || at.SelfCancelSet? || at.SelfCancelRead? || at.SelfCancelCall? || at.Reading?
  }

  /** The prompt is past its test and has not called the backend itself, nor is it about to. */
  ghost predicate Unanswered(s: State, learned: string) {
    s.prompt.Reading? && learned !in s.calls
  }

  ghost predicate Invariant(s: State, learned: string) {
    // a late cancel set the flag, and nothing clears it any more
    && (Cleared(s.prompt) ==> (exists id :: id in s.cancels && !NotLate(s.cancels[id])) ==> s.flag)
    && (!Cleared(s.prompt) ==> forall id <- s.cancels :: NotLate(s.cancels[id]))
    // the learned run id stays
    && (HasRun(s.prompt) ==> s.runId == Some(learned))
    && (s.prompt.SelfCancelCall? ==> s.prompt.run == learned)
    // a prompt that did not cancel itself met no late cancel; those that come later read its run id
    && (Unanswered(s, learned) ==> forall id <- s.cancels :: !NotLate(s.cancels[id]) ==>
          match s.cancels[id]
          case BeforeRead(_) => true
          case BeforeArgument(_) => true
          case BeforeCall(_, argument) => argument == Some(learned)
          case _ => false)
  }

  lemma PromptStepKeeps(s: State, learned: string)
    requires Invariant(s, learned)
    ensures Invariant(StepPrompt(s, learned), learned)
  {
    if s.prompt.SelfCancelCall? {
      assert learned in StepPrompt(s, learned).calls;
    }
  }

  lemma CancelStepKeeps(s: State, id: nat, learned: string)
    requires Invariant(s, learned) && id in s.cancels
    ensures Invariant(StepCancel(s, id), learned)
  {
    var next := StepCancel(s, id);
    if Cleared(s.prompt) && !s.flag {
      assert NotLate(s.cancels[id]);
    }
    if s.cancels[id].BeforeCall? && s.cancels[id].argument.Some? {
      assert s.cancels[id].argument.value in next.calls;
    }
    assert forall run :: run in s.calls ==> run in next.calls;
  }

  lemma {:induction false} RunKeeps(s: State, steps: seq<Step>, learned: string)
    requires Invariant(s, learned)
    ensures Invariant(Run(FreshPrompt, s, steps, learned), learned)
  {
    if steps != [] {
      var before := Run(FreshPrompt, s, steps[..|steps| - 1], learned);
      RunKeeps(s, steps[..|steps| - 1], learned);
      match steps[|steps| - 1] {
        case PromptStep => PromptStepKeeps(before, learned);
        case CancelStep(id) =>
          if id in before.cancels {
            CancelStepKeeps(before, id, learned);
          }
        case Arrive(id) =>
      }
    }
  }

  /** Once the prompt reads its stream, every cancel that set the flag after the prompt cleared it
      and has finished was served: the backend was told to cancel the prompt's run. */
  ghost predicate Served(s: State, learned: string) {
    s.prompt.Reading? && (exists id :: id in s.cancels && s.cancels[id] == Finished(true)) ==> learned in s.calls
  }

  /** A cancel is never lost in a fresh prompt, over all interleavings of the prompt with any number
      of cancel requests. */
  lemma {:induction false} CancelNeverLost(s: State, steps: seq<Step>, learned: string)
    requires Start(s)
    ensures Served(Run(FreshPrompt, s, steps, learned), learned)
  {
    RunKeeps(s, steps, learned);
  }

  /** Run ids held or about to be used are the learned one or the one left over from before. */
  ghost predicate OnlyKnown(s: State, previous: Option<string>, learned: string) {
    && (forall run <- s.calls :: run == learned || Some(run) == previous)
    && (s.runId.Some? ==> s.runId.value == learned || s.runId == previous)
    && (s.prompt.SelfCancelCall? ==> s.prompt.run == learned || Some(s.prompt.run) == previous)
    && (forall id <- s.cancels :: s.cancels[id].BeforeCall? && s.cancels[id].argument.Some? ==>
          s.cancels[id].argument.value == learned || s.cancels[id].argument == previous)
  }

  lemma StepOnlyKnown(kind: Kind, s: State, step: Step, previous: Option<string>, learned: string)
    requires OnlyKnown(s, previous, learned)
    ensures OnlyKnown(Apply(kind, s, step, learned), previous, learned)
  {
    hide Cleared;
  }

  /** Every cancel the backend receives names the prompt's run or the one left over from before. */
  lemma {:induction false} CallsNameKnownRuns(kind: Kind, s: State, steps: seq<Step>, learned: string)
    requires Start(s) && forall id <- s.cancels :: !s.cancels[id].BeforeCall?
    ensures OnlyKnown(Run(kind, s, steps, learned), s.runId, learned)
  {
    if steps != [] {
      CallsNameKnownRuns(kind, s, steps[..|steps| - 1], learned);
      StepOnlyKnown(kind, Run(kind, s, steps[..|steps| - 1], learned), steps[|steps| - 1], s.runId, learned);
    }
  }

  // Resumed prompts.

  /** While the run id never changes, a late cancel always finds it. */
  ghost predicate ResumedInvariant(s: State, run: string) {
    && s.runId == Some(run) && (s.prompt.BeforeClear? || s.prompt.BeforeLearn? || s.prompt.Reading?)
    && (s.prompt.BeforeClear? ==> forall id <- s.cancels :: NotLate(s.cancels[id]))
    && (forall id <- s.cancels :: !NotLate(s.cancels[id]) ==>
          match s.cancels[id]
          case BeforeCall(_, argument) => argument == Some(run)
          case Finished(_) => run in s.calls
          case _ => true)
  }

  lemma ResumedStepKeeps(s: State, step: Step, run: string)
    requires ResumedInvariant(s, run)
    ensures ResumedInvariant(Apply(ResumedPrompt, s, step, run), run)
  {
    var next := Apply(ResumedPrompt, s, step, run);
    assert forall r :: r in s.calls ==> r in next.calls;
    if step.CancelStep? && step.id in s.cancels && s.cancels[step.id].BeforeCall? && s.cancels[step.id].argument.Some? {
      assert s.cancels[step.id].argument.value in next.calls;
    }
  }

  lemma {:induction false} ResumedRunKeeps(s: State, steps: seq<Step>, run: string)
    requires ResumedInvariant(s, run)
    ensures ResumedInvariant(Run(ResumedPrompt, s, steps, run), run)
  {
    if steps != [] {
      ResumedRunKeeps(s, steps[..|steps| - 1], run);
      ResumedStepKeeps(Run(ResumedPrompt, s, steps[..|steps| - 1], run), steps[|steps| - 1], run);
    }
  }

  /** A schedule that loses a cancel: it is handled between the clear and the backend's response. */
  function LosingSchedule(id: nat): seq<Step> {
    [PromptStep, Arrive(id), CancelStep(id), CancelStep(id), CancelStep(id), CancelStep(id), PromptStep]
  }

  lemma RunOneMore(kind: Kind, s: State, steps: seq<Step>, step: Step, learned: string)
    ensures Run(kind, s, steps + [step], learned) == Apply(kind, Run(kind, s, steps, learned), step, learned)
  {
    assert (steps + [step])[..|steps|] == steps;
  }

  lemma {:induction false} LosingScheduleLoses(s: State, run: string, id: nat)
    requires Start(s) && id !in s.cancels && s.runId != Some(run)
    ensures !Served(Run(ResumedPrompt, s, LosingSchedule(id), run), run)
  {
    var k := ResumedPrompt;
    var p1 := [] + [PromptStep];
    var p2 := p1 + [Arrive(id)];
    var p3 := p2 + [CancelStep(id)];
    var p4 := p3 + [CancelStep(id)];
    var p5 := p4 + [CancelStep(id)];
    var p6 := p5 + [CancelStep(id)];
    RunOneMore(k, s, [], PromptStep, run);
    RunOneMore(k, s, p1, Arrive(id), run);
    RunOneMore(k, s, p2, CancelStep(id), run);
    RunOneMore(k, s, p3, CancelStep(id), run);
    RunOneMore(k, s, p4, CancelStep(id), run);
    RunOneMore(k, s, p5, CancelStep(id), run);
    RunOneMore(k, s, p6, PromptStep, run);
    assert p6 + [PromptStep] == LosingSchedule(id);
    var end := Run(k, s, p6, run);
    assert end.cancels[id] == Finished(true) && end.prompt == BeforeLearn;
    assert forall r <- end.calls :: Some(r) == s.runId;
  }

  /** In a resumed prompt a cancel can be lost. It is safe in every interleaving if and only if the
      session already held the run id that the backend's response names. */
  lemma {:induction false} ResumedCancelSafeExactly(s: State, run: string)
    requires Start(s)
    ensures (forall steps :: Served(Run(ResumedPrompt, s, steps, run), run)) <==> s.runId == Some(run)
  {
    if s.runId == Some(run) {
      forall steps ensures Served(Run(ResumedPrompt, s, steps, run), run) {
        ResumedRunKeeps(s, steps, run);
      }
    } else {
      var id := UnusedId(s.cancels.Keys);
      LosingScheduleLoses(s, run, id);
    }
  }

  lemma UnusedId(used: set<nat>) returns (id: nat)
    ensures id !in used
    decreases |used|
  {
    if used == {} {
      id := 0;
    } else {
      var top := Largest(used);
      id := top + 1;
    }
  }

  lemma {:induction false} Largest(used: set<nat>) returns (top: nat)
    requires used != {}
    ensures top in used && forall n <- used :: n <= top
    decreases |used|
  {
    var any :| any in used;
    if used == {any} {
      top := any;
    } else {
      assert used - {any} != {} by {
        assert used == (used - {any}) + {any};
      }
      var rest := Largest(used - {any});
      top := if rest < any then any else rest;
    }
  }

  // What a fresh prompt leaves behind.

  /** The flag tells exactly whether a cancel was requested after the prompt cleared it. */
  ghost predicate FlagIsOwn(s: State) {
    Cleared(s.prompt) ==> (s.flag <==> exists id :: id in s.cancels && !NotLate(s.cancels[id]))
  }

  /** The prompt is on its way to cancel its run itself. */
  predicate CancelsItself(at: PromptAt) {
    at.SelfCancelSet? || at.SelfCancelRead? || at.SelfCancelCall?
  }

  lemma LateStays(s: State, id: nat, other: nat)
    requires id in s.cancels && other in s.cancels && !NotLate(s.cancels[other])
    ensures other in StepCancel(s, id).cancels && !NotLate(StepCancel(s, id).cancels[other])
  {
  }

  lemma FlagStepCancel(s: State, id: nat)
    requires id in s.cancels && FlagIsOwn(s)
    ensures FlagIsOwn(StepCancel(s, id))
  {
    var next := StepCancel(s, id);
    if other :| other in s.cancels && !NotLate(s.cancels[other]) { LateStays(s, id, other); }
    if Cleared(s.prompt) && s.cancels[id].BeforeSet? { assert !NotLate(next.cancels[id]); }
    if other :| other in next.cancels && !NotLate(next.cancels[other]) {
      assert other != id ==> !NotLate(s.cancels[other]);
    }
  }

  /** An earlier prompt's cancel never reaches the next prompt: the flag is set, and the prompt on its way to
      cancel its run, only if a cancel was requested after the prompt began. */
  lemma {:induction false} NoStaleCancel(s: State, steps: seq<Step>, learned: string)
    requires Start(s)
    ensures var t := Run(FreshPrompt, s, steps, learned);
      && FlagIsOwn(t) && (CancelsItself(t.prompt) ==> t.flag)
      && (!Cleared(t.prompt) ==> forall id <- t.cancels :: NotLate(t.cancels[id]))
  {
    if steps != [] {
      var t := Run(FreshPrompt, s, steps[..|steps| - 1], learned);
      NoStaleCancel(s, steps[..|steps| - 1], learned);
      match steps[|steps| - 1] {
        case PromptStep =>
        case CancelStep(id) => if id in t.cancels { FlagStepCancel(t, id); }
        case Arrive(id) =>
          assert forall other <- t.cancels :: id !in t.cancels ==> t.cancels[id := BeforeSet][other] == t.cancels[other];
      }
    }
  }

  /** From here on only the learned run can be named. */
  ghost predicate OnlyLearned(s: State, learned: string) {
    && !s.prompt.BeforeClear? && !s.prompt.BeforeReset?
    && (s.runId == None || s.runId == Some(learned))
    && (s.prompt.SelfCancelCall? ==> s.prompt.run == learned)
    && forall id <- s.cancels :: s.cancels[id].BeforeCall? ==> s.cancels[id].argument == None || s.cancels[id].argument == Some(learned)
  }

  lemma OnlyLearnedStep(s: State, step: Step, learned: string)
    requires OnlyLearned(s, learned)
    ensures var t := Apply(FreshPrompt, s, step, learned);
      OnlyLearned(t, learned) && s.calls <= t.calls && forall k :: |s.calls| <= k < |t.calls| ==> t.calls[k] == learned
  {
  }

  lemma {:induction false} OnlyLearnedRun(s: State, steps: seq<Step>, learned: string)
    requires OnlyLearned(s, learned)
    ensures var t := Run(FreshPrompt, s, steps, learned);
      OnlyLearned(t, learned) && s.calls <= t.calls && forall k :: |s.calls| <= k < |t.calls| ==> t.calls[k] == learned
  {
    hide Apply, OnlyLearned;
    if steps != [] {
      OnlyLearnedRun(s, steps[..|steps| - 1], learned);
      OnlyLearnedStep(Run(FreshPrompt, s, steps[..|steps| - 1], learned), steps[|steps| - 1], learned);
    }
  }

  /** The reset takes effect: once a fresh prompt has passed it, with no cancel about to call, every further
      call names the run the prompt learns, whichever run the session held before. */
  lemma {:induction false} ResetForgetsOldRun(s: State, before: seq<Step>, after: seq<Step>, learned: string)
    requires Start(s)
    requires var t := Run(FreshPrompt, s, before, learned);
      !t.prompt.BeforeClear? && !t.prompt.BeforeReset? && forall id <- t.cancels :: !t.cancels[id].BeforeCall?
    ensures var t := Run(FreshPrompt, s, before, learned);
      var u := Run(FreshPrompt, t, after, learned);
      t.calls <= u.calls && forall k :: |t.calls| <= k < |u.calls| ==> u.calls[k] == learned
  {
    var t := Run(FreshPrompt, s, before, learned);
    ResetIsNone(s, before, learned);
    RunKeeps(s, before, learned);
    OnlyLearnedRun(t, after, learned);
  }

  lemma {:induction false} ResetIsNone(s: State, steps: seq<Step>, learned: string)
    requires Start(s)
    ensures Run(FreshPrompt, s, steps, learned).prompt.BeforeLearn? ==> Run(FreshPrompt, s, steps, learned).runId == None
  {
    if steps != [] { ResetIsNone(s, steps[..|steps| - 1], learned); }
  }
}
