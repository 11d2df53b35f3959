/** Incremental memory extraction: the checkpoint (count and hash) that decides which part of a
    growing transcript a run reads, and what a run of any outcome leaves behind. */
module MemoryCheckpoint {
  import opened PyText
  import opened PyJson

  /** The fields of a transcript entry that are hashed. */
  datatype Fields = Fields(id: Json, role: Json, content: Json, source: Json, seqNo: Json, createdAt: Json)

  function Project(message: Json): Fields {
    Fields(Or(Get(message, "id"), Get(message, "entry_id")), Get(message, "role"),
           Or(Or(Get(message, "content"), Get(message, "text")), Str("")),
           Get(message, "source"), Get(message, "seq"), Get(message, "created_at"))
  }

  /** The message hash. It is taken to be injective, so it is the hashed payload itself. */
  type Digest = seq<Fields>

  function MessageHash(messages: seq<Json>): (d: Digest)
    ensures |d| == |messages| && forall i :: 0 <= i < |messages| ==> d[i] == Project(messages[i])
  {
    seq(|messages|, i requires 0 <= i < |messages| => Project(messages[i]))
  }

  datatype Checkpoint = Checkpoint(count: int, hash: Option<Digest>)

  datatype Mode = FullScan | CheckpointReset | DuplicateTranscript | TranscriptChanged | DuplicateIncrement | Incremental

  /** The messages a run reads, and why. */
  function Resolve(state: Option<Checkpoint>, messages: seq<Json>): (seq<Json>, Mode) {
    if state.None? then (messages, FullScan)
    else
      var last := state.value;
      if last.count < 0 || last.count > |messages| then (messages, CheckpointReset)
      else if last.hash == Some(MessageHash(messages)) then ([], DuplicateTranscript)
      else if messages[last.count..] == [] then (messages, TranscriptChanged)
      else if last.hash == Some(MessageHash(messages[last.count..])) then ([], DuplicateIncrement)
      else (messages[last.count..], Incremental)
  }

  function Saved(messages: seq<Json>): Option<Checkpoint> {
    Some(Checkpoint(|messages|, Some(MessageHash(messages))))
  }

  predicate IsUser(message: Json) {
    Get(message, "role") == Str("user")
  }

  predicate HasUser(messages: seq<Json>) {
    exists i :: 0 <= i < |messages| && IsUser(messages[i])
  }

  /** How a run ends once it has something to read: completed, skipped by a later policy check, or
      failed in the model or the parser. */
  datatype Ending = Completed | SkippedLater | Failed

  /** The messages a run reads: none when it is skipped before extraction. */
  function ToRead(state: Option<Checkpoint>, messages: seq<Json>): seq<Json> {
    if !HasUser(messages) then [] else Resolve(state, messages).0
  }

  predicate Completes(state: Option<Checkpoint>, messages: seq<Json>, ending: Ending) {
    ToRead(state, messages) != [] && ending.Completed?
  }

  // The store as the source updates it.

  class ExtractionStore {
    var checkpoints: map<string, Checkpoint>

    constructor ()
      ensures checkpoints == map[]
    {
      checkpoints := map[];
    }

    function State(session: string): Option<Checkpoint>
      reads this
    {
      if session in checkpoints then Some(checkpoints[session]) else None
    }

    /** One extraction run. Only a completed one saves a checkpoint, for its own session. */
    method Analyze(session: string, messages: seq<Json>, ending: Ending) returns (extracted: seq<Json>)
      modifies this
      ensures State(session) == if Completes(old(State(session)), messages, ending) then Saved(messages) else old(State(session))
      ensures extracted == if Completes(old(State(session)), messages, ending) then Resolve(old(State(session)), messages).0 else []
      ensures forall other :: other != session ==> State(other) == old(State(other))
    {
      extracted := [];
      var users := 0;
      for i := 0 to |messages|
        invariant users > 0 <==> HasUser(messages[..i])
      {
        assert messages[..i + 1] == messages[..i] + [messages[i]];
        assert forall k :: 0 <= k < i ==> messages[..i + 1][k] == messages[..i][k];
        if IsUser(messages[i]) {
          assert IsUser(messages[..i + 1][i]);
          users := users + 1;
        }
      }
      assert messages[..|messages|] == messages;
      if users <= 0 { return; }
      var (increment, mode) := Resolve(State(session), messages);
      if increment == [] { return; }
      if !ending.Completed? { return; }
      checkpoints := checkpoints[session := Checkpoint(|messages|, Some(MessageHash(messages)))];
      extracted := increment;
    }
  }

  // One session over time.

  /** A transcript grows, is revised (which drops the checkpoint), or is extracted. */
  datatype Step = Append(more: seq<Json>) | Revise(transcript: seq<Json>) | Extract(ending: Ending)

  /** `extracted` is what the completed runs since the last revision read, in order; `covered` is the
      transcript length at the last of them. */
  datatype World = World(transcript: seq<Json>, state: Option<Checkpoint>, extracted: seq<Json>, covered: nat)

  function Apply(w: World, step: Step): World {
    match step
    case Append(more) => w.(transcript := w.transcript + more)
    case Revise(transcript) => World(transcript, None, [], 0)
    case Extract(ending) =>
      if Completes(w.state, w.transcript, ending)
      then World(w.transcript, Saved(w.transcript), w.extracted + ToRead(w.state, w.transcript), |w.transcript|)
      else w
  }

  function Run(steps: seq<Step>): World {
    if steps == [] then World([], None, [], 0) else Apply(Run(steps[..|steps| - 1]), steps[|steps| - 1])
  }

  ghost predicate Consistent(w: World) {
    && w.covered <= |w.transcript|
    && w.extracted == w.transcript[..w.covered]
    && (w.state == if w.covered == 0 then None else Saved(w.transcript[..w.covered]))
  }

  lemma ReadingWhatIsNew(w: World)
    requires Consistent(w)
    ensures ToRead(w.state, w.transcript) == [] || ToRead(w.state, w.transcript) == w.transcript[w.covered..]
  {
    var t := w.transcript;
    if w.covered == |t| {
      assert t[..w.covered] == t;
    } else {
      assert |MessageHash(t)| != |MessageHash(t[..w.covered])|;
    }
  }

  lemma StepKeepsConsistent(w: World, step: Step)
    requires Consistent(w)
    ensures Consistent(Apply(w, step))
  {
    hide Resolve, MessageHash;
    match step
    case Append(more) =>
      assert (w.transcript + more)[..w.covered] == w.transcript[..w.covered];
    case Revise(transcript) =>
    case Extract(ending) =>
      ReadingWhatIsNew(w);
      var t := w.transcript;
      assert t[..w.covered] + t[w.covered..] == t == t[..|t|];
  }

  lemma {:induction false} RunIsConsistent(steps: seq<Step>)
    ensures Consistent(Run(steps))
  {
    hide Consistent, Apply;
    if steps == [] {
      EmptyIsConsistent();
    } else {
      RunIsConsistent(steps[..|steps| - 1]);
      StepKeepsConsistent(Run(steps[..|steps| - 1]), steps[|steps| - 1]);
    }
  }

  lemma EmptyIsConsistent()
    ensures Consistent(World([], None, [], 0))
  {
  }

  /** Exactly once: after any history of appends, revisions and runs, completed, skipped or failed,
      what the completed runs have read is the transcript as it was at the last of them, every entry
      once and in order. */
  lemma {:induction false} ExactlyOnce(steps: seq<Step>)
    ensures var w := Run(steps); w.covered <= |w.transcript| && w.extracted == w.transcript[..w.covered]
  {
    RunIsConsistent(steps);
  }

  /** After a completed run nothing is left to read until the transcript changes. */
  lemma {:induction false} UnchangedDoesNothing(steps: seq<Step>, ending: Ending)
    requires var w := Run(steps); w.covered == |w.transcript| > 0
    ensures Apply(Run(steps), Extract(ending)) == Run(steps)
    ensures Resolve(Run(steps).state, Run(steps).transcript) == ([], DuplicateTranscript)
  {
    RunIsConsistent(steps);
    var t := Run(steps).transcript;
    assert t[..|t|] == t;
  }

  /** New entries repeat everything that was extracted before, field by field. */
  predicate Repeats(transcript: seq<Json>, covered: nat)
    requires covered <= |transcript|
  {
    covered > 0 && MessageHash(transcript[covered..]) == MessageHash(transcript[..covered])
  }

  /** When a run catches up: with new entries and a user message it reads all of them, except
      exactly when they repeat the covered transcript, and then it is skipped as a duplicate. */
  lemma {:induction false} CatchesUpExactly(steps: seq<Step>)
    requires var w := Run(steps); w.covered < |w.transcript| && HasUser(w.transcript)
    ensures var w := Run(steps);
      Apply(w, Extract(Completed)).covered == |w.transcript| <==> !Repeats(w.transcript, w.covered)
    ensures var w := Run(steps);
      Repeats(w.transcript, w.covered) <==> Resolve(w.state, w.transcript) == ([], DuplicateIncrement)
  {
    RunIsConsistent(steps);
    var w := Run(steps);
    assert |MessageHash(w.transcript)| != |MessageHash(w.transcript[..w.covered])|;
  }

  predicate Distinct(messages: seq<Json>) {
    forall i, j :: 0 <= i < j < |messages| ==> Project(messages[i]) != Project(messages[j])
  }

  /** Entries with distinct hashed fields never repeat, so for them no increment is lost. */
  lemma {:induction false} DistinctNeverRepeat(transcript: seq<Json>, covered: nat)
    requires covered <= |transcript| && Distinct(transcript)
    ensures !Repeats(transcript, covered)
  {
    if 0 < covered < |transcript| {
      assert MessageHash(transcript[covered..])[0] == Project(transcript[covered]);
      assert MessageHash(transcript[..covered])[0] == Project(transcript[0]);
    }
  }

  /** A skipped duplicate is only put off: when the transcript grows further, the next completed run
      reads the skipped entries together with the new ones. */
  lemma {:induction false} DuplicateIsPutOff(steps: seq<Step>, more: seq<Json>)
    requires var w := Run(steps); HasUser(w.transcript) && w.covered <= |w.transcript| && Repeats(w.transcript, w.covered) && more != []
    ensures var w' := Apply(Apply(Run(steps), Append(more)), Extract(Completed)); w'.covered == |w'.transcript|
  {
    RunIsConsistent(steps);
    var w := Run(steps);
    var grown := Apply(w, Append(more));
    assert Consistent(grown) by { StepKeepsConsistent(w, Append(more)); }
    var t := grown.transcript;
    var i :| 0 <= i < |w.transcript| && IsUser(w.transcript[i]);
    assert IsUser(t[i]);
    assert |MessageHash(w.transcript[w.covered..])| == |MessageHash(w.transcript[..w.covered])|;
    assert t[..w.covered] == w.transcript[..w.covered];
    assert |MessageHash(t)| != w.covered && |MessageHash(t[w.covered..])| != w.covered;
  }

  /** A transcript rewritten in place, without the revision that drops the checkpoint, is read again
      in full exactly when it has not grown; when it has, changed entries before the checkpoint are
      not read. */
  lemma {:induction false} RewriteIsRereadExactly(before: seq<Json>, after: seq<Json>)
    requires before != [] && MessageHash(after) != MessageHash(before)
    ensures Resolve(Saved(before), after).0 == after <==> |after| <= |before|
  {
    if |after| > |before| {
      assert |after[|before|..]| < |after|;
    }
  }

  // What the hash and the modes say.

  /** The first of two fields that is set. */
  function FirstSet(message: Json, key: string, other: string): Json {
    if Truthy(Get(message, key)) then Get(message, key) else Get(message, other)
  }

  /** Both entries hash alike: `id` or else `entry_id`, `content` or else `text`, and the other fields. */
  predicate HashAlike(a: Json, b: Json) {
    && FirstSet(a, "id", "entry_id") == FirstSet(b, "id", "entry_id")
    && (FirstSet(a, "content", "text") == FirstSet(b, "content", "text")
        || (!Truthy(FirstSet(a, "content", "text")) && !Truthy(FirstSet(b, "content", "text"))))
    && forall key <- ["role", "source", "seq", "created_at"] :: Get(a, key) == Get(b, key)
  }

  lemma ProjectExactly(a: Json, b: Json)
    ensures Project(a) == Project(b) <==> HashAlike(a, b)
  {
    hide Get;
    var keys := ["role", "source", "seq", "created_at"];
    assert keys[0] in keys && keys[1] in keys && keys[2] in keys && keys[3] in keys;
  }

  /** Two lists have one hash exactly when they are equally long and agree, entry by entry, on these
      fields, where missing content is as good as empty content. */
  lemma {:induction false} HashesAgreeExactly(a: seq<Json>, b: seq<Json>)
    ensures MessageHash(a) == MessageHash(b) <==> |a| == |b| && forall i :: 0 <= i < |a| ==> HashAlike(a[i], b[i])
  {
    hide Project, HashAlike;
    if |a| == |b| {
      forall i | 0 <= i < |a| ensures Project(a[i]) == Project(b[i]) <==> HashAlike(a[i], b[i]) { ProjectExactly(a[i], b[i]); }
      if MessageHash(a) == MessageHash(b) {
        forall i | 0 <= i < |a| ensures HashAlike(a[i], b[i]) {
          assert MessageHash(a)[i] == MessageHash(b)[i];
        }
      }
    }
  }

  /** What a run reads and why, for every checkpoint: nothing without a user message; otherwise all of
      it without a usable checkpoint or when nothing was added to a changed transcript; nothing when
      the checkpoint's hash is that of the whole or of the added part; and else the added part. */
  lemma {:induction false} ReadsExactly(state: Option<Checkpoint>, messages: seq<Json>)
    ensures var (read, mode) := Resolve(state, messages);
      var usable := state.Some? && 0 <= state.value.count <= |messages|;
      var added := if usable then messages[state.value.count..] else [];
      var seen := part => state.Some? && state.value.hash == Some(MessageHash(part));
      && (mode == FullScan <==> state.None?)
      && (mode == CheckpointReset <==> state.Some? && !usable)
      && (mode == DuplicateTranscript <==> usable && seen(messages))
      && (mode == TranscriptChanged <==> usable && !seen(messages) && added == [])
      && (mode == DuplicateIncrement <==> usable && !seen(messages) && added != [] && seen(added))
      && (mode == Incremental <==> usable && !seen(messages) && added != [] && !seen(added))
      && read == (match mode
                  case Incremental => added
                  case DuplicateTranscript => []
                  case DuplicateIncrement => []
                  case _ => messages)
      && ToRead(state, messages)
         == if exists i :: 0 <= i < |messages| && Get(messages[i], "role") == Str("user") then read else []
  {
    hide MessageHash, Get;
  }
}
