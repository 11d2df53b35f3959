/** From aligned facts to the knowledge graph: duplicate facts are merged, the remaining ones are
    persisted, and each extracted relation is written under one persisted fact. */
module MemoryGraph {
  import opened PyText
  import opened MemoryScopes

  // Merging duplicates.

  /** Text functions and policies the source applies here: category and text canonicalization, case
      mapping, and which facts the policy stores. */
  datatype Policy = Policy(
    category: string -> string, normalize: string -> string, lower: string -> string, upper: string -> string,
    shouldStore: Fact -> bool)

  datatype GroupKey = GroupKey(scope: string, category: string, text: string)

  function KeyOf(p: Policy, f: Fact): GroupKey {
    GroupKey(if Strip(f.scope) == "" then "global" else Strip(f.scope), f.category, p.normalize(f.text))
  }

  function Score(f: Fact): real { f.confidence + f.importance as real / 100.0 }

  function Canonical(p: Policy, f: Fact): Fact { f.(category := p.category(Strip(f.category))) }

  function CanonicalFacts(p: Policy, facts: seq<Fact>): (r: seq<Fact>)
    ensures |r| == |facts| && forall i :: 0 <= i < |facts| ==> r[i] == Canonical(p, facts[i])
  {
    seq(|facts|, i requires 0 <= i < |facts| => Canonical(p, facts[i]))
  }

  /** Position of the fact with this key, or the length. */
  function Find(p: Policy, facts: seq<Fact>, key: GroupKey): (i: nat)
    ensures i <= |facts|
    ensures i < |facts| ==> KeyOf(p, facts[i]) == key
    ensures forall k :: 0 <= k < i ==> KeyOf(p, facts[k]) != key
  {
    if facts == [] || KeyOf(p, facts[0]) == key then 0 else 1 + Find(p, facts[1..], key)
  }

  function MergeOne(p: Policy, kept: seq<Fact>, f: Fact): seq<Fact> {
    var i := Find(p, kept, KeyOf(p, f));
    if i == |kept| then kept + [f] else if Score(f) >= Score(kept[i]) then kept[i := f] else kept
  }

  /** One fact per key, in order of first appearance, the best-scored one of each key. */
  function Merge(p: Policy, facts: seq<Fact>): seq<Fact> {
    if facts == [] then [] else MergeOne(p, Merge(p, facts[..|facts| - 1]), facts[|facts| - 1])
  }

  predicate DistinctKeys(p: Policy, facts: seq<Fact>) {
    forall i, j :: 0 <= i < j < |facts| ==> KeyOf(p, facts[i]) != KeyOf(p, facts[j])
  }

  /** `groups` is the position of every key. */
  ghost predicate Tabulates(p: Policy, kept: seq<Fact>, groups: map<GroupKey, nat>) {
    && (forall k <- groups :: groups[k] < |kept| && KeyOf(p, kept[groups[k]]) == k)
    && (forall i :: 0 <= i < |kept| ==> KeyOf(p, kept[i]) in groups && groups[KeyOf(p, kept[i])] == i)
  }

  lemma EmptyTable(p: Policy)
    ensures Tabulates(p, [], map[])
  {
  }

  lemma TableFinds(p: Policy, kept: seq<Fact>, groups: map<GroupKey, nat>, key: GroupKey)
    requires Tabulates(p, kept, groups)
    ensures key in groups ==> groups[key] < |kept|
    ensures Find(p, kept, key) == if key in groups then groups[key] else |kept|
  {
    hide KeyOf;
  }

  lemma TableGrows(p: Policy, kept: seq<Fact>, groups: map<GroupKey, nat>, f: Fact)
    requires Tabulates(p, kept, groups)
    ensures KeyOf(p, f) !in groups ==> Tabulates(p, kept + [f], groups[KeyOf(p, f) := |kept|])
    ensures KeyOf(p, f) in groups ==> Tabulates(p, kept[groups[KeyOf(p, f)] := f], groups)
  {
    hide KeyOf;
  }

  /** One turn of the merging loop, by the table. */
  lemma MergeOneByTable(p: Policy, kept: seq<Fact>, groups: map<GroupKey, nat>, f: Fact)
    requires Tabulates(p, kept, groups)
    ensures KeyOf(p, f) in groups ==> groups[KeyOf(p, f)] < |kept|
    ensures MergeOne(p, kept, f)
         == if KeyOf(p, f) !in groups then kept + [f]
            else if Score(f) >= Score(kept[groups[KeyOf(p, f)]]) then kept[groups[KeyOf(p, f)] := f] else kept
  {
    hide KeyOf, Score, Tabulates;
    TableFinds(p, kept, groups, KeyOf(p, f));
  }

  /** The merging loop as the source runs it, with a table from keys to positions. */
  method MergeFacts(p: Policy, facts: seq<Fact>) returns (kept: seq<Fact>)
    ensures kept == Merge(p, CanonicalFacts(p, facts))
  {
    hide Canonical, KeyOf, Score, Tabulates, MergeOne;
    kept := [];
    var groups: map<GroupKey, nat> := map[];
    assert Tabulates(p, kept, groups) by { EmptyTable(p); }
    ghost var canonical := CanonicalFacts(p, facts);
    for index := 0 to |facts|
      invariant kept == Merge(p, canonical[..index])
      invariant Tabulates(p, kept, groups)
    {
      assert canonical[..index + 1][..index] == canonical[..index];
      var fact := Canonical(p, facts[index]);
      var key := KeyOf(p, fact);
      MergeOneByTable(p, kept, groups, fact);
      TableGrows(p, kept, groups, fact);
      if key !in groups {
        groups := groups[key := |kept|];
        kept := kept + [fact];
      } else {
        var prior := groups[key];
        if Score(fact) >= Score(kept[prior]) {
          kept := kept[prior := fact];
        }
      }
    }
    assert canonical[..|facts|] == canonical;
  }

  /** The fact kept under `f`'s key scores at least as high. */
  ghost predicate Represents(p: Policy, kept: seq<Fact>, f: Fact) {
    exists i :: 0 <= i < |kept| && KeyOf(p, kept[i]) == KeyOf(p, f) && Score(kept[i]) >= Score(f)
  }

  lemma MergeOneRepresents(p: Policy, kept: seq<Fact>, last: Fact, f: Fact)
    requires f == last || Represents(p, kept, f)
    ensures Represents(p, MergeOne(p, kept, last), f)
  {
    hide KeyOf, Score;
    var i, after := Find(p, kept, KeyOf(p, last)), MergeOne(p, kept, last);
    if f == last {
      assert KeyOf(p, after[i]) == KeyOf(p, f) && Score(after[i]) >= Score(f);
    } else {
      var k :| 0 <= k < |kept| && KeyOf(p, kept[k]) == KeyOf(p, f) && Score(kept[k]) >= Score(f);
      assert KeyOf(p, after[k]) == KeyOf(p, f) && Score(after[k]) >= Score(f);
    }
  }

  lemma MergeOneDistinct(p: Policy, kept: seq<Fact>, last: Fact)
    requires DistinctKeys(p, kept)
    ensures DistinctKeys(p, MergeOne(p, kept, last))
    ensures forall k <- MergeOne(p, kept, last) :: k in kept || k == last
  {
    hide KeyOf, Score;
  }

  /** Merging keeps one of the given facts per key, for every key, with the best score of that key. */
  lemma {:induction false} MergeKeepsBest(p: Policy, facts: seq<Fact>)
    ensures var kept := Merge(p, facts);
      && DistinctKeys(p, kept)
      && (forall k <- kept :: k in facts)
      && (forall f <- facts :: Represents(p, kept, f))
  {
    hide KeyOf, Score, MergeOne, Represents, DistinctKeys;
    if facts == [] {
      assert DistinctKeys(p, []) by { EmptyIsDistinct(p); }
    } else {
      var init, last := facts[..|facts| - 1], facts[|facts| - 1];
      assert facts == init + [last];
      MergeKeepsBest(p, init);
      MergeOneDistinct(p, Merge(p, init), last);
      forall f <- facts ensures Represents(p, Merge(p, facts), f) {
        MergeOneRepresents(p, Merge(p, init), last, f);
      }
    }
  }

  lemma EmptyIsDistinct(p: Policy)
    ensures DistinctKeys(p, [])
  {
  }

  /** Keys never move and never change, so those kept from a prefix stay in front. */
  lemma {:induction false} MergePrefix(p: Policy, facts: seq<Fact>, n: nat)
    requires n <= |facts|
    ensures var a, b := Merge(p, facts[..n]), Merge(p, facts);
      |a| <= |b| && forall k :: 0 <= k < |a| ==> KeyOf(p, b[k]) == KeyOf(p, a[k])
    decreases |facts| - n
  {
    hide KeyOf, Score;
    if n == |facts| {
      assert facts[..n] == facts;
    } else {
      assert facts[..n + 1][..n] == facts[..n];
      MergePrefix(p, facts, n + 1);
    }
  }

  lemma {:induction false} MergeOfDistinct(p: Policy, facts: seq<Fact>)
    requires DistinctKeys(p, facts)
    ensures Merge(p, facts) == facts
  {
    hide KeyOf, Score;
    if facts != [] {
      var init, last := facts[..|facts| - 1], facts[|facts| - 1];
      assert facts == init + [last];
      MergeOfDistinct(p, init);
    }
  }

  lemma {:induction false} MergeShrinks(p: Policy, facts: seq<Fact>)
    ensures |Merge(p, facts)| <= |facts|
    ensures !DistinctKeys(p, facts) ==> |Merge(p, facts)| < |facts|
  {
    hide KeyOf, Score;
    if facts != [] {
      var init, last := facts[..|facts| - 1], facts[|facts| - 1];
      assert facts == init + [last];
      MergeShrinks(p, init);
      if DistinctKeys(p, init) { MergeOfDistinct(p, init); }
    }
  }

  /** A relation names its fact by the fact's position in the extractor's own list, but is looked up
      in the merged list. The position still names a fact with the same key exactly when no two facts
      up to it were duplicates. */
  lemma {:induction false} PositionSurvivesExactly(p: Policy, facts: seq<Fact>, i: nat)
    requires i < |facts|
    ensures var kept := Merge(p, facts);
      i < |kept| && KeyOf(p, kept[i]) == KeyOf(p, facts[i]) <==> DistinctKeys(p, facts[..i + 1])
  {
    hide KeyOf, Merge, MergeOne;
    var kept, head, first := Merge(p, facts), Merge(p, facts[..i + 1]), facts[..i + 1];
    assert first[i] == facts[i];
    MergePrefix(p, facts, i + 1);
    if DistinctKeys(p, first) {
      MergeOfDistinct(p, first);
    } else {
      MergeShrinks(p, first);
      MergeKeepsBest(p, first);
      assert facts[i] in first;
      assert Represents(p, head, facts[i]);
      MergeKeepsBest(p, facts);
    }
  }

  // Persisting.

  /** What the knowledge store answers to a write: the canonical and the new id, or a `ValueError`. */
  datatype WriteResult = Written(canonicalFactId: string, factId: string) | Rejected

  datatype FactWrite = FactWrite(text: string, category: string, scope: string, relation: string, target: Option<string>, id: string)

  predicate KnownRelation(relation: string) {
    relation in {"new", "reinforce", "replace", "refine", "conflict"}
  }

  function RelationOf(p: Policy, f: Fact): string {
    var relation := if Strip(f.relation) == "" then "new" else p.lower(Strip(f.relation));
    if f.overwriteId != "" then "replace" else if KnownRelation(relation) then relation else "new"
  }

  function TargetOf(f: Fact): Option<string> {
    Requested(if f.targetFactId != "" then f.targetFactId else f.overwriteId)
  }

  function PersistedId(r: WriteResult): string
    requires r.Written?
  {
    if r.canonicalFactId != "" then r.canonicalFactId else r.factId
  }

  predicate Stores(p: Policy, answers: nat -> WriteResult, facts: seq<Fact>, i: nat)
    requires i < |facts|
  {
    p.shouldStore(facts[i]) && answers(i).Written?
  }

  /** A fact after the run: its persisted id is set when it was stored. */
  function AfterStore(p: Policy, answers: nat -> WriteResult, facts: seq<Fact>, i: nat): Fact
    requires i < |facts|
  {
    if Stores(p, answers, facts, i) then facts[i].(persistedFactId := PersistedId(answers(i))) else facts[i]
  }

  function WriteOf(p: Policy, f: Fact): FactWrite {
    FactWrite(f.text, f.category, f.scope, RelationOf(p, f), TargetOf(f), f.persistedFactId)
  }

  function FactsAfter(p: Policy, answers: nat -> WriteResult, facts: seq<Fact>): (r: seq<Fact>)
    ensures |r| == |facts| && forall i :: 0 <= i < |facts| ==> r[i] == AfterStore(p, answers, facts, i)
  {
    seq(|facts|, i requires 0 <= i < |facts| => AfterStore(p, answers, facts, i))
  }

  /** The stored facts among the first `n`, in order. */
  function StoredFacts(p: Policy, answers: nat -> WriteResult, facts: seq<Fact>, n: nat): seq<Fact>
    requires n <= |facts|
  {
    if n == 0 then []
    else StoredFacts(p, answers, facts, n - 1) + if Stores(p, answers, facts, n - 1) then [AfterStore(p, answers, facts, n - 1)] else []
  }

  function Writes(p: Policy, stored: seq<Fact>): (r: seq<FactWrite>)
    ensures |r| == |stored| && forall i :: 0 <= i < |stored| ==> r[i] == WriteOf(p, stored[i])
  {
    seq(|stored|, i requires 0 <= i < |stored| => WriteOf(p, stored[i]))
  }

  // The graph.

  datatype Entity = Entity(name: string, kind: string)
  datatype Relation = Relation(subject: string, predicateText: string, object_: string, sourceFactIndex: Option<int>)
  datatype Edge = Edge(subject: string, predicateText: string, object_: string, scope: string, sourceFactIds: seq<string>)

  predicate Contains(text: string, part: string) {
    exists k: nat :: k + |part| <= |text| && OccursAt(text, part, k)
  }

  predicate OccursAt(text: string, part: string, k: nat)
    requires k + |part| <= |text|
  {
    text[k..k + |part|] == part
  }

  predicate Mentions(p: Policy, f: Fact, subject: string, object_: string) {
    Contains(p.lower(f.text), subject) && Contains(p.lower(f.text), object_)
  }

  function Matching(p: Policy, stored: seq<Fact>, subject: string, object_: string): (r: seq<Fact>)
    ensures forall f <- r :: f in stored && Mentions(p, f, subject, object_)
  {
    if stored == [] then []
    else Matching(p, stored[..|stored| - 1], subject, object_)
         + if Mentions(p, stored[|stored| - 1], subject, object_) then [stored[|stored| - 1]] else []
  }

  /** The fact a relation is written under: the one its index names if that was stored, else the only
      stored fact, else the only stored fact that mentions both ends. */
  function SourceFact(p: Policy, r: Relation, subject: string, object_: string, facts: seq<Fact>, stored: seq<Fact>): (f: Option<Fact>)
    ensures f.Some? ==> f.value in stored
  {
    var index := if r.sourceFactIndex.Some? then r.sourceFactIndex.value else -1;
    if 0 <= index < |facts| && facts[index] in stored then Some(facts[index])
    else if |stored| == 1 then Some(stored[0])
    else
      var matching := Matching(p, stored, subject, object_);
      if |matching| == 1 then Some(matching[0]) else None
  }

  /** The edge a relation becomes, unless it is blank or ungrounded or the store refuses it. */
  function EdgeOf(p: Policy, refuses: Edge -> bool, r: Relation, facts: seq<Fact>, stored: seq<Fact>): Option<Edge> {
    var subject, middle, object_ := p.lower(Strip(r.subject)), p.upper(Strip(r.predicateText)), p.lower(Strip(r.object_));
    if subject == "" || middle == "" || object_ == "" then None
    else
      var source := SourceFact(p, r, subject, object_, facts, stored);
      if source.None? || source.value.persistedFactId == "" then None
      else
        var edge := Edge(subject, middle, object_, source.value.scope, [source.value.persistedFactId]);
        if refuses(edge) then None else Some(edge)
  }

  function Edges(p: Policy, refuses: Edge -> bool, relations: seq<Relation>, facts: seq<Fact>, stored: seq<Fact>): seq<Edge> {
    if relations == [] then []
    else
      var last := EdgeOf(p, refuses, relations[|relations| - 1], facts, stored);
      Edges(p, refuses, relations[..|relations| - 1], facts, stored) + if last.Some? then [last.value] else []
  }

  function Entities(p: Policy, entities: seq<Entity>): seq<Entity> {
    if entities == [] then []
    else
      var last := entities[|entities| - 1];
      var name := p.lower(Strip(last.name));
      Entities(p, entities[..|entities| - 1]) + if name != "" then [Entity(name, last.kind)] else []
  }

  /** Extraction, alignment to the effective scope, merging and storing: the facts stored. */
  function Persisted(c: Classifiers, p: Policy, effectiveScope: string, x: Extraction, answers: nat -> WriteResult): seq<Fact> {
    var facts := Merge(p, CanonicalFacts(p, Align(c, effectiveScope, x).knowledge));
    StoredFacts(p, answers, facts, |facts|)
  }

  function GraphEdges(c: Classifiers, p: Policy, effectiveScope: string, x: Extraction, answers: nat -> WriteResult,
                      refuses: Edge -> bool, relations: seq<Relation>): seq<Edge> {
    var facts := Merge(p, CanonicalFacts(p, Align(c, effectiveScope, x).knowledge));
    Edges(p, refuses, relations, FactsAfter(p, answers, facts), StoredFacts(p, answers, facts, |facts|))
  }

  lemma {:induction false} NothingStoredNoEdges(p: Policy, refuses: Edge -> bool, relations: seq<Relation>, facts: seq<Fact>)
    ensures Edges(p, refuses, relations, facts, []) == []
  {
    if relations != [] {
      NothingStoredNoEdges(p, refuses, relations[..|relations| - 1], facts);
    }
  }

  /** The knowledge store: what was written to it, in order. */
  class KnowledgeStore {
    var facts: seq<FactWrite>
    var entities: seq<Entity>
    var edges: seq<Edge>

    constructor ()
      ensures facts == [] && entities == [] && edges == []
    {
      facts, entities, edges := [], [], [];
    }

    /** `_store_knowledge`: `answers(i)` is the store's answer for the i-th fact of the result. */
    method StoreKnowledge(p: Policy, answers: nat -> WriteResult, result: ExtractionResult) returns (stored: nat, items: seq<Fact>)
      modifies this`facts, result`knowledge
      ensures result.knowledge == FactsAfter(p, answers, old(result.knowledge))
      ensures items == StoredFacts(p, answers, old(result.knowledge), |old(result.knowledge)|) && stored == |items|
      ensures facts == old(facts) + Writes(p, items)
    {
      hide RelationOf, TargetOf;
      stored, items := 0, [];
      ghost var before := result.knowledge;
      for i := 0 to |result.knowledge|
        invariant |result.knowledge| == |before| && stored == |items|
        invariant forall k :: 0 <= k < |before| ==>
          result.knowledge[k] == if k < i then AfterStore(p, answers, before, k) else before[k]
        invariant items == StoredFacts(p, answers, before, i)
        invariant facts == old(facts) + Writes(p, items)
      {
        var fact := result.knowledge[i];
        if p.shouldStore(fact) {
          var answer := answers(i);
          if answer.Written? {
            var persisted := fact.(persistedFactId := PersistedId(answer));
            facts := facts + [WriteOf(p, persisted)];
            result.knowledge := result.knowledge[i := persisted];
            stored := stored + 1;
            assert Writes(p, items + [persisted]) == Writes(p, items) + [WriteOf(p, persisted)];
            items := items + [persisted];
          }
        }
      }
      assert result.knowledge == FactsAfter(p, answers, before);
    }

    /** `_build_knowledge_graph`. */
    method BuildGraph(p: Policy, refuses: Edge -> bool, newEntities: seq<Entity>, relations: seq<Relation>,
                      result: ExtractionResult, items: seq<Fact>) returns (entitiesAdded: nat, relationsAdded: nat)
      modifies this`entities, this`edges
      ensures entities == old(entities) + if items == [] then [] else Entities(p, newEntities)
      ensures edges == old(edges) + if items == [] then [] else Edges(p, refuses, relations, result.knowledge, items)
      ensures |entities| == |old(entities)| + entitiesAdded && |edges| == |old(edges)| + relationsAdded
    {
      hide EdgeOf;
      entitiesAdded, relationsAdded := 0, 0;
      if items == [] { return; }
      for i := 0 to |newEntities|
        invariant edges == old(edges)
        invariant entities == old(entities) + Entities(p, newEntities[..i]) && |entities| == |old(entities)| + entitiesAdded
      {
        assert newEntities[..i + 1][..i] == newEntities[..i];
        var name := p.lower(Strip(newEntities[i].name));
        if name == "" { continue; }
        entities := entities + [Entity(name, newEntities[i].kind)];
        entitiesAdded := entitiesAdded + 1;
      }
      assert newEntities[..|newEntities|] == newEntities;
      for i := 0 to |relations|
        invariant entities == old(entities) + Entities(p, newEntities)
        invariant edges == old(edges) + Edges(p, refuses, relations[..i], result.knowledge, items)
        invariant |edges| == |old(edges)| + relationsAdded
      {
        assert relations[..i + 1][..i] == relations[..i];
        var edge := EdgeOf(p, refuses, relations[i], result.knowledge, items);
        if edge.None? { continue; }
        edges := edges + [edge.value];
        relationsAdded := relationsAdded + 1;
      }
      assert relations[..|relations|] == relations;
    }

    /** The part of a durable run from scope alignment to the graph. */
    method PersistExtraction(c: Classifiers, p: Policy, effectiveScope: string, answers: nat -> WriteResult,
                             refuses: Edge -> bool, newEntities: seq<Entity>, relations: seq<Relation>, result: ExtractionResult)
      modifies this, result
      ensures facts == old(facts) + Writes(p, Persisted(c, p, effectiveScope, old(result.Value()), answers))
      ensures edges == old(edges) + GraphEdges(c, p, effectiveScope, old(result.Value()), answers, refuses, relations)
      ensures entities == old(entities)
        + if Persisted(c, p, effectiveScope, old(result.Value()), answers) == [] then [] else Entities(p, newEntities)
      ensures result.identity == Align(c, effectiveScope, old(result.Value())).identity
      ensures result.preferences == Align(c, effectiveScope, old(result.Value())).preferences
    {
      hide Align, Merge, Writes, Edges, StoredFacts, Entities, AlignDecisions;
      ghost var x := result.Value();
      var decisions := result.AlignScopes(c, effectiveScope);
      var kept := MergeFacts(p, result.knowledge);
      result.knowledge := kept;
      var stored, items := StoreKnowledge(p, answers, result);
      var entitiesAdded, relationsAdded := BuildGraph(p, refuses, newEntities, relations, result, items);
      if items == [] {
        NothingStoredNoEdges(p, refuses, relations, result.knowledge);
      }
    }
  }

  // Provenance.

  lemma {:induction false} StoredWhere(p: Policy, answers: nat -> WriteResult, facts: seq<Fact>, n: nat, f: Fact)
    requires n <= |facts| && f in StoredFacts(p, answers, facts, n)
    ensures exists i :: 0 <= i < n && Stores(p, answers, facts, i) && f == AfterStore(p, answers, facts, i)
  {
    hide Stores, AfterStore;
    if f in StoredFacts(p, answers, facts, n - 1) {
      StoredWhere(p, answers, facts, n - 1, f);
    } else {
      assert f == AfterStore(p, answers, facts, n - 1);
    }
  }

  lemma {:induction false} EdgeWhere(p: Policy, refuses: Edge -> bool, relations: seq<Relation>, facts: seq<Fact>, stored: seq<Fact>, e: Edge)
    requires e in Edges(p, refuses, relations, facts, stored)
    ensures exists r <- relations :: EdgeOf(p, refuses, r, facts, stored) == Some(e)
  {
    hide EdgeOf;
    var init, last := relations[..|relations| - 1], relations[|relations| - 1];
    if e in Edges(p, refuses, init, facts, stored) {
      EdgeWhere(p, refuses, init, facts, stored, e);
    } else {
      assert last in relations && EdgeOf(p, refuses, last, facts, stored) == Some(e);
    }
  }

  lemma EdgeIsGrounded(p: Policy, refuses: Edge -> bool, r: Relation, facts: seq<Fact>, stored: seq<Fact>)
    requires EdgeOf(p, refuses, r, facts, stored).Some?
    ensures var e := EdgeOf(p, refuses, r, facts, stored).value;
      exists f <- stored :: e.scope == f.scope && f.persistedFactId != "" && e.sourceFactIds == [f.persistedFactId]
  {
  }

  /** A stored fact is in the target scope, or global with the target global or its own promotion. */
  lemma {:induction false} PersistedScope(c: Classifiers, p: Policy, effectiveScope: string, x: Extraction, answers: nat -> WriteResult, f: Fact)
    requires f in Persisted(c, p, effectiveScope, x, answers)
    ensures f.scope in {Target(effectiveScope), "global"}
    ensures f.scope == "global" && Target(effectiveScope) != "global" ==>
      exists g <- x.knowledge :: g.text == f.text && Strip(g.scope) == "global" && Promoted(c, FactText(g))
  {
    hide Align, KeyOf, Score, Merge, Strip, Promoted, FactText, Represents, DistinctKeys, Stores;
    var aligned := Align(c, effectiveScope, x).knowledge;
    var canonical := CanonicalFacts(p, aligned);
    var facts := Merge(p, canonical);
    StoredWhere(p, answers, facts, |facts|, f);
    var i :| 0 <= i < |facts| && Stores(p, answers, facts, i) && f == AfterStore(p, answers, facts, i);
    MergeKeepsBest(p, canonical);
    assert facts[i] in canonical;
    var k :| 0 <= k < |canonical| && canonical[k] == facts[i];
    ScopesAreContained(c, effectiveScope, x);
    assert aligned[k].scope == f.scope;
  }

  /** Provenance: every edge of a run names exactly one fact, which the run stored under that id, and
      carries that fact's scope: the target scope or `global`. */
  lemma {:induction false} EdgesHaveProvenance(c: Classifiers, p: Policy, effectiveScope: string, x: Extraction, answers: nat -> WriteResult,
                            refuses: Edge -> bool, relations: seq<Relation>, e: Edge)
    requires e in GraphEdges(c, p, effectiveScope, x, answers, refuses, relations)
    ensures exists w <- Writes(p, Persisted(c, p, effectiveScope, x, answers)) ::
      w.id != "" && e.sourceFactIds == [w.id] && e.scope == w.scope
    ensures e.scope in {Target(effectiveScope), "global"}
  {
    hide Align, Merge, CanonicalFacts, EdgeOf, FactsAfter, StoredFacts;
    var facts := Merge(p, CanonicalFacts(p, Align(c, effectiveScope, x).knowledge));
    var stored := Persisted(c, p, effectiveScope, x, answers);
    EdgeWhere(p, refuses, relations, FactsAfter(p, answers, facts), stored, e);
    var r :| r in relations && EdgeOf(p, refuses, r, FactsAfter(p, answers, facts), stored) == Some(e);
    EdgeIsGrounded(p, refuses, r, FactsAfter(p, answers, facts), stored);
    var f :| f in stored && e.scope == f.scope && f.persistedFactId != "" && e.sourceFactIds == [f.persistedFactId];
    var k :| 0 <= k < |stored| && stored[k] == f;
    assert Writes(p, stored)[k] == WriteOf(p, f) && Writes(p, stored)[k] in Writes(p, stored);
    PersistedScope(c, p, effectiveScope, x, answers, f);
  }
}
