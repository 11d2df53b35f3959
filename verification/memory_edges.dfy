/** What a run of the memory agent writes, fact by fact and edge by edge, told from the extraction alone:
    which facts are kept of duplicates, which rows they become, and which relation becomes which edge. */
module MemoryEdges {
  import opened PyText
  import opened MemoryScopes
  import opened MemoryDecisions
  import opened MemoryGraph

  // Which facts are kept.

  predicate SameScope(a: string, b: string) {
    Strip(a) == Strip(b) || (Strip(a) in {"", "global"} && Strip(b) in {"", "global"})
  }

  /** Duplicates: same scope, where a blank one is global, same category and same normalized text. */
  predicate Duplicates(p: Policy, a: Fact, b: Fact) {
    SameScope(a.scope, b.scope) && a.category == b.category && p.normalize(a.text) == p.normalize(b.text)
  }

  lemma KeysExactly(p: Policy, a: Fact, b: Fact)
    ensures KeyOf(p, a) == KeyOf(p, b) <==> Duplicates(p, a, b)
  {
    hide Strip;
  }

  /** A hundredth of the importance counts like confidence. */
  predicate NotWorse(a: Fact, b: Fact) {
    100.0 * a.confidence + a.importance as real >= 100.0 * b.confidence + b.importance as real
  }

  lemma ScoresExactly(a: Fact, b: Fact)
    ensures Score(a) >= Score(b) <==> NotWorse(a, b)
  {
  }

  /** `facts[j]` is the fact kept of its duplicates: none is better, and no later one is as good. */
  predicate BestOfItsKind(p: Policy, facts: seq<Fact>, j: nat) {
    j < |facts| && forall m :: 0 <= m < |facts| && Duplicates(p, facts[m], facts[j]) ==>
      NotWorse(facts[j], facts[m]) && (m > j ==> !NotWorse(facts[m], facts[j]))
  }

  predicate FirstOfItsKind(p: Policy, facts: seq<Fact>, j: nat) {
    j < |facts| && forall m :: 0 <= m < j ==> !Duplicates(p, facts[m], facts[j])
  }

  /** `kept` holds the best fact of each kind, in the order in which the kinds first appear. */
  ghost predicate KeptBest(p: Policy, facts: seq<Fact>, kept: seq<Fact>, firsts: seq<nat>, best: seq<nat>) {
    && |firsts| == |kept| == |best| && Increasing(firsts, |facts|)
    && (forall j :: 0 <= j < |facts| ==> (FirstOfItsKind(p, facts, j) <==> j in firsts))
    && forall i :: 0 <= i < |kept| ==>
      && firsts[i] < |facts| && best[i] < |facts| && kept[i] == facts[best[i]]
      && BestOfItsKind(p, facts, best[i]) && Duplicates(p, facts[best[i]], facts[firsts[i]])
  }

  lemma DuplicatesEquivalence(p: Policy, a: Fact, b: Fact, c: Fact)
    ensures Duplicates(p, a, a) && (Duplicates(p, a, b) <==> Duplicates(p, b, a))
    ensures Duplicates(p, a, b) && Duplicates(p, b, c) ==> Duplicates(p, a, c)
  {
    hide Strip;
  }

  lemma BestStays(p: Policy, facts: seq<Fact>, last: Fact, j: nat)
    requires BestOfItsKind(p, facts, j)
    requires Duplicates(p, last, facts[j]) ==> !NotWorse(last, facts[j])
    ensures BestOfItsKind(p, facts + [last], j)
  {
    hide Duplicates;
  }

  lemma BestReplaced(p: Policy, facts: seq<Fact>, last: Fact, j: nat)
    requires BestOfItsKind(p, facts, j) && Duplicates(p, last, facts[j]) && NotWorse(last, facts[j])
    ensures BestOfItsKind(p, facts + [last], |facts|)
  {
    hide Duplicates;
    forall m | 0 <= m < |facts| && Duplicates(p, facts[m], last) ensures NotWorse(last, facts[m]) {
      DuplicatesEquivalence(p, facts[m], last, facts[j]);
    }
  }

  lemma BestAlone(p: Policy, facts: seq<Fact>, last: Fact)
    requires forall m :: 0 <= m < |facts| ==> !Duplicates(p, facts[m], last)
    ensures BestOfItsKind(p, facts + [last], |facts|)
  {
    hide Duplicates;
  }

  lemma FirstsStay(p: Policy, facts: seq<Fact>, last: Fact, j: nat)
    requires j < |facts|
    ensures FirstOfItsKind(p, facts + [last], j) <==> FirstOfItsKind(p, facts, j)
  {
    hide Duplicates;
    assert forall m :: 0 <= m < |facts| ==> facts[m] == (facts + [last])[m];
  }

  lemma LastIsFirst(p: Policy, facts: seq<Fact>, last: Fact)
    ensures FirstOfItsKind(p, facts + [last], |facts|) <==> forall m :: 0 <= m < |facts| ==> !Duplicates(p, facts[m], last)
  {
    hide Duplicates;
    assert forall m :: 0 <= m < |facts| ==> facts[m] == (facts + [last])[m];
  }

  /** A fact of a new kind is kept. */
  lemma KeepsNew(p: Policy, facts: seq<Fact>, kept: seq<Fact>, firsts: seq<nat>, best: seq<nat>, last: Fact)
    requires KeptBest(p, facts, kept, firsts, best)
    requires forall m :: 0 <= m < |facts| ==> !Duplicates(p, facts[m], last)
    ensures KeptBest(p, facts + [last], kept + [last], firsts + [|facts|], best + [|facts|])
  {
    hide Duplicates, NotWorse, BestOfItsKind, FirstOfItsKind, Increasing;
    var all := facts + [last];
    IncreasingSnoc(firsts, |facts|);
    LastIsFirst(p, facts, last);
    BestAlone(p, facts, last);
    DuplicatesEquivalence(p, last, last, last);
    forall j | 0 <= j < |facts| ensures FirstOfItsKind(p, all, j) <==> j in firsts { FirstsStay(p, facts, last, j); }
    forall i | 0 <= i < |kept|
      ensures BestOfItsKind(p, all, best[i]) && Duplicates(p, all[best[i]], all[firsts[i]]) && kept[i] == all[best[i]]
    {
      DuplicatesEquivalence(p, last, facts[best[i]], last);
      BestStays(p, facts, last, best[i]);
    }
  }

  /** A further fact of the i-th kind replaces the one kept unless it is worse. */
  lemma KeepsBetter(p: Policy, facts: seq<Fact>, kept: seq<Fact>, firsts: seq<nat>, best: seq<nat>, last: Fact, i: nat)
    requires KeptBest(p, facts, kept, firsts, best) && DistinctKeys(p, kept)
    requires i < |kept| && KeyOf(p, kept[i]) == KeyOf(p, last)
    ensures if NotWorse(last, kept[i]) then KeptBest(p, facts + [last], kept[i := last], firsts, best[i := |facts|])
            else KeptBest(p, facts + [last], kept, firsts, best)
  {
    hide Duplicates, NotWorse, BestOfItsKind, FirstOfItsKind, Increasing, KeyOf;
    var all := facts + [last];
    IncreasingSnoc(firsts, |facts|);
    KeysExactly(p, kept[i], last);
    LastIsFirst(p, facts, last);
    DuplicatesEquivalence(p, last, facts[best[i]], facts[firsts[i]]);
    if NotWorse(last, kept[i]) { BestReplaced(p, facts, last, best[i]); } else { BestStays(p, facts, last, best[i]); }
    assert |facts| !in firsts by { NotBeyond(firsts, |facts|); }
    forall j | 0 <= j < |facts| ensures FirstOfItsKind(p, all, j) <==> j in firsts { FirstsStay(p, facts, last, j); }
    forall k | 0 <= k < |kept| && k != i
      ensures BestOfItsKind(p, all, best[k]) && Duplicates(p, all[best[k]], all[firsts[k]]) && kept[k] == all[best[k]]
    {
      KeysExactly(p, last, kept[k]);
      BestStays(p, facts, last, best[k]);
    }
  }

  lemma NotBeyond(ks: seq<nat>, bound: nat)
    requires Increasing(ks, bound)
    ensures bound !in ks
  {
  }

  lemma AllKindsKept(p: Policy, facts: seq<Fact>, last: Fact)
    requires Find(p, Merge(p, facts), KeyOf(p, last)) == |Merge(p, facts)|
    ensures forall m :: 0 <= m < |facts| ==> !Duplicates(p, facts[m], last)
  {
    hide Duplicates, KeyOf, Score, Merge, DistinctKeys;
    MergeKeepsBest(p, facts);
    forall m | 0 <= m < |facts| ensures !Duplicates(p, facts[m], last) {
      KeysExactly(p, facts[m], last);
      assert facts[m] in facts;
    }
  }

  /** Merging keeps of all duplicates the best one, the last of equally good ones, in the order in which
      the kinds first appear. */
  lemma {:induction false} MergeExactly(p: Policy, facts: seq<Fact>) returns (firsts: seq<nat>, best: seq<nat>)
    ensures KeptBest(p, facts, Merge(p, facts), firsts, best)
  {
    hide Duplicates, NotWorse, BestOfItsKind, FirstOfItsKind, KeyOf, Score, DistinctKeys;
    firsts, best := [], [];
    if facts != [] {
      var init, last := facts[..|facts| - 1], facts[|facts| - 1];
      assert facts == init + [last];
      firsts, best := MergeExactly(p, init);
      var kept := Merge(p, init);
      var i := Find(p, kept, KeyOf(p, last));
      if i == |kept| {
        AllKindsKept(p, init, last);
        KeepsNew(p, init, kept, firsts, best, last);
        firsts, best := firsts + [|init|], best + [|init|];
      } else {
        MergeKeepsBest(p, init);
        KeepsBetter(p, init, kept, firsts, best, last, i);
        ScoresExactly(last, kept[i]);
        if NotWorse(last, kept[i]) { best := best[i := |init|]; }
      }
    }
  }

  // Which rows facts become.

  /** The rows written: those of the facts worth storing that the store accepts, in order. */
  predicate IsStored(p: Policy, answers: nat -> WriteResult, facts: seq<Fact>, i: nat) {
    i < |facts| && p.shouldStore(facts[i]) && answers(i).Written?
  }

  /** The fact as stored: only its id is new, the canonical one if the store names one. */
  predicate StoredAs(answer: WriteResult, f: Fact, stored: Fact) {
    && answer.Written? && stored.(persistedFactId := f.persistedFactId) == f
    && (answer.canonicalFactId != "" ==> stored.persistedFactId == answer.canonicalFactId)
    && (answer.canonicalFactId == "" ==> stored.persistedFactId == answer.factId)
  }

  lemma {:induction false} StoredInOrder(p: Policy, answers: nat -> WriteResult, facts: seq<Fact>, n: nat) returns (ks: seq<nat>)
    requires n <= |facts|
    ensures var stored := StoredFacts(p, answers, facts, n);
      && |ks| == |stored| && Increasing(ks, n)
      && (forall i: nat :: i < n ==> (IsStored(p, answers, facts, i) <==> i in ks))
      && forall k :: 0 <= k < |ks| ==> ks[k] < n && StoredAs(answers(ks[k]), facts[ks[k]], stored[k])
  {
    hide Increasing;
    NoneIncreasing();
    ks := [];
    if n > 0 {
      ks := StoredInOrder(p, answers, facts, n - 1);
      IncreasingSnoc(ks, n - 1);
      if IsStored(p, answers, facts, n - 1) { ks := ks + [n - 1]; }
    }
  }

  /** The row of a stored fact. */
  lemma {:induction false} RowExactly(p: Policy, f: Fact)
    ensures var w := WriteOf(p, f);
      && w.text == f.text && w.category == f.category && w.scope == f.scope && w.id == f.persistedFactId
      && w.relation in {"new", "reinforce", "replace", "refine", "conflict"}
      && (f.overwriteId != "" ==> w.relation == "replace")
      && (f.overwriteId == "" && Strip(f.relation) == "" ==> w.relation == "new")
      && (f.overwriteId == "" && Strip(f.relation) != "" ==>
            if p.lower(Strip(f.relation)) in {"reinforce", "replace", "refine", "conflict"}
            then w.relation == p.lower(Strip(f.relation)) else w.relation == "new")
      && var named := if f.targetFactId != "" then f.targetFactId else f.overwriteId;
        w.target == if Strip(named) == "" then None else Some(Strip(named))
  {
    hide Strip;
  }

  // Which relations become edges.

  predicate MentionsBoth(p: Policy, f: Fact, subject: string, object_: string) {
    Contains(p.lower(f.text), subject) && Contains(p.lower(f.text), object_)
  }

  /** The index of the relation names a fact that was stored. */
  predicate NamesStored(r: Relation, facts: seq<Fact>, stored: seq<Fact>) {
    r.sourceFactIndex.Some? && 0 <= r.sourceFactIndex.value < |facts| && facts[r.sourceFactIndex.value] in stored
  }

  /** The fact a relation rests on: the stored one its index names; failing that the only stored fact;
      failing that the only stored fact that mentions both ends. */
  ghost predicate RestsOn(p: Policy, r: Relation, facts: seq<Fact>, stored: seq<Fact>, f: Fact) {
    if NamesStored(r, facts, stored) then f == facts[r.sourceFactIndex.value]
    else if |stored| == 1 then f == stored[0]
    else exists k :: 0 <= k < |stored| && stored[k] == f && OnlyMention(p, p.lower(Strip(r.subject)), p.lower(Strip(r.object_)), stored, k)
  }

  ghost predicate OnlyMention(p: Policy, subject: string, object_: string, stored: seq<Fact>, k: nat) {
    k < |stored| && forall m :: 0 <= m < |stored| ==> (MentionsBoth(p, stored[m], subject, object_) <==> m == k)
  }

  predicate Complete(p: Policy, r: Relation) {
    p.lower(Strip(r.subject)) != "" && p.upper(Strip(r.predicateText)) != "" && p.lower(Strip(r.object_)) != ""
  }

  /** The edge says what the relation says, and names the fact it rests on. */
  ghost predicate EdgeSays(p: Policy, r: Relation, f: Fact, e: Edge) {
    && e.subject == p.lower(Strip(r.subject))
    && e.predicateText == p.upper(Strip(r.predicateText))
    && e.object_ == p.lower(Strip(r.object_))
    && e.scope == f.scope && e.sourceFactIds == [f.persistedFactId] && f.persistedFactId != ""
  }

  /** The relation becomes this edge. */
  ghost predicate Becomes(p: Policy, refuses: Edge -> bool, r: Relation, facts: seq<Fact>, stored: seq<Fact>, e: Edge) {
    Complete(p, r) && !refuses(e) && exists f :: RestsOn(p, r, facts, stored, f) && EdgeSays(p, r, f, e)
  }

  lemma SameMention(p: Policy, f: Fact, subject: string, object_: string)
    ensures Mentions(p, f, subject, object_) <==> MentionsBoth(p, f, subject, object_)
  {
  }

  lemma {:induction false} MatchingNone(p: Policy, subject: string, object_: string, stored: seq<Fact>)
    requires forall m :: 0 <= m < |stored| ==> !MentionsBoth(p, stored[m], subject, object_)
    ensures Matching(p, stored, subject, object_) == []
  {
    hide Mentions, MentionsBoth;
    if stored != [] {
      var init, last := stored[..|stored| - 1], stored[|stored| - 1];
      assert forall m :: 0 <= m < |init| ==> init[m] == stored[m];
      SameMention(p, last, subject, object_);
      MatchingNone(p, subject, object_, init);
    }
  }

  lemma {:induction false} MatchingOne(p: Policy, subject: string, object_: string, stored: seq<Fact>, k: nat)
    requires OnlyMention(p, subject, object_, stored, k)
    ensures Matching(p, stored, subject, object_) == [stored[k]]
  {
    hide Mentions, MentionsBoth;
    var init, last := stored[..|stored| - 1], stored[|stored| - 1];
    assert forall m :: 0 <= m < |init| ==> init[m] == stored[m];
    SameMention(p, last, subject, object_);
    if k == |stored| - 1 {
      MatchingNone(p, subject, object_, init);
    } else {
      MatchingOne(p, subject, object_, init, k);
    }
  }

  lemma {:induction false} MatchingSome(p: Policy, subject: string, object_: string, stored: seq<Fact>, k: nat)
    requires k < |stored| && MentionsBoth(p, stored[k], subject, object_)
    ensures Matching(p, stored, subject, object_) != []
  {
    hide Mentions, MentionsBoth;
    SameMention(p, stored[|stored| - 1], subject, object_);
    if k < |stored| - 1 { MatchingSome(p, subject, object_, stored[..|stored| - 1], k); }
  }

  lemma {:induction false} MatchingMany(p: Policy, subject: string, object_: string, stored: seq<Fact>)
      returns (k: nat)
    requires |Matching(p, stored, subject, object_)| == 1
    ensures OnlyMention(p, subject, object_, stored, k)
  {
    hide Mentions, MentionsBoth;
    var init, last := stored[..|stored| - 1], stored[|stored| - 1];
    assert forall m :: 0 <= m < |init| ==> init[m] == stored[m];
    SameMention(p, last, subject, object_);
    if MentionsBoth(p, last, subject, object_) {
      k := |stored| - 1;
      forall m | 0 <= m < |init| ensures !MentionsBoth(p, init[m], subject, object_) {
        if MentionsBoth(p, init[m], subject, object_) { MatchingSome(p, subject, object_, init, m); }
      }
    } else {
      k := MatchingMany(p, subject, object_, init);
    }
  }

  lemma SourceExactly(p: Policy, r: Relation, facts: seq<Fact>, stored: seq<Fact>, f: Fact)
    ensures SourceFact(p, r, p.lower(Strip(r.subject)), p.lower(Strip(r.object_)), facts, stored) == Some(f) <==>
      RestsOn(p, r, facts, stored, f)
  {
    hide Strip, Matching, MentionsBoth;
    var subject, object_ := p.lower(Strip(r.subject)), p.lower(Strip(r.object_));
    var found := Matching(p, stored, subject, object_);
    if |found| == 1 {
      var k := MatchingMany(p, subject, object_, stored);
      MatchingOne(p, subject, object_, stored, k);
    }
    if k: nat :| k < |stored| && stored[k] == f && OnlyMention(p, subject, object_, stored, k) {
      MatchingOne(p, subject, object_, stored, k);
    }
  }

  lemma EdgeOfExactly(p: Policy, refuses: Edge -> bool, r: Relation, facts: seq<Fact>, stored: seq<Fact>, e: Edge)
    ensures EdgeOf(p, refuses, r, facts, stored) == Some(e) <==> Becomes(p, refuses, r, facts, stored, e)
  {
    hide Strip, SourceFact, RestsOn;
    var source := SourceFact(p, r, p.lower(Strip(r.subject)), p.lower(Strip(r.object_)), facts, stored);
    forall f ensures source == Some(f) <==> RestsOn(p, r, facts, stored, f) {
      SourceExactly(p, r, facts, stored, f);
    }
  }

  lemma {:induction false} EdgesExactly(p: Policy, refuses: Edge -> bool, relations: seq<Relation>, facts: seq<Fact>, stored: seq<Fact>, e: Edge)
    ensures e in Edges(p, refuses, relations, facts, stored) <==> exists r <- relations :: Becomes(p, refuses, r, facts, stored, e)
  {
    hide EdgeOf, Becomes;
    if relations != [] {
      var init, last := relations[..|relations| - 1], relations[|relations| - 1];
      assert relations == init + [last];
      EdgesExactly(p, refuses, init, facts, stored, e);
      EdgeOfExactly(p, refuses, last, facts, stored, e);
    }
  }

  // Whole runs.

  /** The facts of a run, aligned and merged, before they are stored. */
  function Prepared(c: Classifiers, p: Policy, effectiveScope: string, x: Extraction): seq<Fact> {
    Merge(p, CanonicalFacts(p, Align(c, effectiveScope, x).knowledge))
  }

  /** The edges of a run are exactly what its relations say: subject, predicate and object in these
      places, under the scope and the id of the fact the relation rests on. A relation becomes an edge
      exactly when its three parts are not blank, it rests on a stored fact with an id and the store
      does not refuse it. */
  lemma {:induction false} GraphSaysWhatRelationsSay(c: Classifiers, p: Policy, effectiveScope: string, x: Extraction,
      answers: nat -> WriteResult, refuses: Edge -> bool, relations: seq<Relation>, e: Edge)
    ensures var facts := FactsAfter(p, answers, Prepared(c, p, effectiveScope, x));
      var stored := Persisted(c, p, effectiveScope, x, answers);
      e in GraphEdges(c, p, effectiveScope, x, answers, refuses, relations) <==>
        exists r <- relations :: Becomes(p, refuses, r, facts, stored, e)
  {
    hide Align, Merge, CanonicalFacts, Edges, StoredFacts, Becomes, FactsAfter;
    var facts, stored := FactsAfter(p, answers, Prepared(c, p, effectiveScope, x)), Persisted(c, p, effectiveScope, x, answers);
    EdgesExactly(p, refuses, relations, facts, stored, e);
  }

  /** A relation that names a stored fact is written under that fact: with its scope and the id the
      store gave it. */
  lemma {:induction false} NamedFactIsTheSource(c: Classifiers, p: Policy, effectiveScope: string, x: Extraction,
      answers: nat -> WriteResult, refuses: Edge -> bool, relations: seq<Relation>, r: Relation, i: nat, e: Edge)
    requires r in relations && r.sourceFactIndex == Some(i) && IsStored(p, answers, Prepared(c, p, effectiveScope, x), i)
    requires Complete(p, r)
    requires var id := if answers(i).canonicalFactId != "" then answers(i).canonicalFactId else answers(i).factId;
      id != "" && e == Edge(p.lower(Strip(r.subject)), p.upper(Strip(r.predicateText)), p.lower(Strip(r.object_)),
                            Prepared(c, p, effectiveScope, x)[i].scope, [id])
    ensures e in GraphEdges(c, p, effectiveScope, x, answers, refuses, relations) || refuses(e)
  {
    hide Align, Merge, CanonicalFacts, Edges, Strip, GraphEdges, Prepared, StoredFacts;
    var before := Prepared(c, p, effectiveScope, x);
    var facts, stored := FactsAfter(p, answers, before), StoredFacts(p, answers, before, |before|);
    assert stored == Persisted(c, p, effectiveScope, x, answers) by { PersistedIs(c, p, effectiveScope, x, answers); }
    var ks := StoredInOrder(p, answers, before, |before|);
    assert i in ks;
    var k :| 0 <= k < |ks| && ks[k] == i;
    assert StoredAs(answers(i), before[i], stored[k]) && stored[k] in stored;
    assert facts[i] == stored[k];
    assert RestsOn(p, r, facts, stored, facts[i]) && EdgeSays(p, r, facts[i], e);
    GraphSaysWhatRelationsSay(c, p, effectiveScope, x, answers, refuses, relations, e);
  }

  /** A stored fact is one of the extracted facts, with its category canonicalized; only its scope and
      its id are new. */
  lemma {:induction false} PersistedComesFrom(c: Classifiers, p: Policy, effectiveScope: string, x: Extraction, answers: nat -> WriteResult, f: Fact)
    requires f in Persisted(c, p, effectiveScope, x, answers)
    ensures exists g <- x.knowledge :: f == g.(category := p.category(Strip(g.category)), scope := f.scope, persistedFactId := f.persistedFactId)
  {
    hide Align, Strip, Merge, KeyOf, Represents, DistinctKeys, Target, StoredFacts, CanonicalFacts;
    PersistedIs(c, p, effectiveScope, x, answers);
    var before := Prepared(c, p, effectiveScope, x);
    var ks := StoredInOrder(p, answers, before, |before|);
    var k :| 0 <= k < |ks| && StoredFacts(p, answers, before, |before|)[k] == f;
    var aligned := Align(c, effectiveScope, x).knowledge;
    MergeKeepsBest(p, CanonicalFacts(p, aligned));
    assert before[ks[k]] in CanonicalFacts(p, aligned);
    var j :| 0 <= j < |aligned| && CanonicalFacts(p, aligned)[j] == before[ks[k]];
    ScopesAreContained(c, effectiveScope, x);
    var g := x.knowledge[j];
    assert g in x.knowledge;
    assert f == g.(category := p.category(Strip(g.category)), scope := f.scope, persistedFactId := f.persistedFactId);
  }

  lemma PersistedIs(c: Classifiers, p: Policy, effectiveScope: string, x: Extraction, answers: nat -> WriteResult)
    ensures var before := Prepared(c, p, effectiveScope, x);
      Persisted(c, p, effectiveScope, x, answers) == StoredFacts(p, answers, before, |before|)
  {
  }

  /** Of the first `n` entities those with a name, in lower case and otherwise as extracted, in order. */
  lemma {:induction false} EntitiesInOrder(p: Policy, entities: seq<Entity>, n: nat) returns (ks: seq<nat>)
    requires n <= |entities|
    ensures var added := Entities(p, entities[..n]);
      && |ks| == |added| && Increasing(ks, n)
      && (forall i: nat :: i < n ==> (p.lower(Strip(entities[i].name)) != "" <==> i in ks))
      && forall k :: 0 <= k < |ks| ==>
        ks[k] < n && added[k].name == p.lower(Strip(entities[ks[k]].name)) && added[k].kind == entities[ks[k]].kind
  {
    hide Strip, Increasing;
    NoneIncreasing();
    ks := [];
    if n > 0 {
      assert entities[..n][..n - 1] == entities[..n - 1];
      ks := EntitiesInOrder(p, entities, n - 1);
      IncreasingSnoc(ks, n - 1);
      if p.lower(Strip(entities[n - 1].name)) != "" { ks := ks + [n - 1]; }
    }
  }
}
