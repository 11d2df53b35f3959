/** What scope alignment reports about its decisions, and what adopting an identity value does: both
    told from the extraction alone. */
module MemoryDecisions {
  import opened PyText
  import opened MemoryScopes

  /** Positions in a list, in order. */
  ghost predicate Increasing(ks: seq<nat>, bound: nat) {
    (forall i :: 0 <= i < |ks| ==> ks[i] < bound) && (forall i, j :: 0 <= i < j < |ks| ==> ks[i] < ks[j])
  }

  lemma NoneIncreasing()
    ensures Increasing([], 0)
  {
  }

  lemma IncreasingSnoc(ks: seq<nat>, bound: nat)
    requires Increasing(ks, bound)
    ensures Increasing(ks, bound + 1) && Increasing(ks + [bound], bound + 1)
  {
  }

  // Decisions on facts and preferences.

  predicate HasReason(reason: Option<string>) {
    reason.Some? && reason.value != ""
  }

  predicate NamesOther(scope: string, target: string) {
    && scope != target
    && exists k :: 0 <= k <= |scope| && scope[..k] in {"project:", "channel:", "workspace:", "external_api_thread:"}
  }

  /** The decision reported on an entry: what it asked for, where it went and why. */
  predicate Reports(d: Decision, promotion: Option<string>, target: string, requested: string, final: string) {
    && d.finalScope == final
    && (Strip(requested) == "" ==> d.requestedScope == None)
    && (Strip(requested) != "" ==> d.requestedScope == Some(Strip(requested)))
    && (d.why == TargetGlobal <==> target == "global")
    && (d.why.GlobalPromoted? <==> target != "global" && Strip(requested) == "global" && HasReason(promotion))
    && (d.why.GlobalPromoted? ==> Some(d.why.reason) == promotion)
    && (d.why == GlobalRejected <==> target != "global" && Strip(requested) == "global" && !HasReason(promotion))
    && (d.why == SpecificRebound <==> target != "global" && Strip(requested) != "global" && NamesOther(Strip(requested), target))
    && (d.why == CurrentScope <==> target != "global" && Strip(requested) != "global" && !NamesOther(Strip(requested), target))
  }

  lemma SpecificExactly(scope: string)
    ensures IsSpecific(scope) <==>
      exists k :: 0 <= k <= |scope| && scope[..k] in {"project:", "channel:", "workspace:", "external_api_thread:"}
  {
    if StartsWith(scope, "project:") { assert scope[..8] == "project:"; }
    if StartsWith(scope, "channel:") { assert scope[..8] == "channel:"; }
    if StartsWith(scope, "workspace:") { assert scope[..10] == "workspace:"; }
    if StartsWith(scope, "external_api_thread:") { assert scope[..20] == "external_api_thread:"; }
  }

  /** An entry without a scope goes to the target unreported; about any other, and about every one when
      the target is global, exactly one decision is reported. */
  lemma {:induction false} CoerceReports(c: Classifiers, target: string, requested: string, text: string)
    ensures var (final, decisions) := Coerce(c, target, requested, text);
      && (target != "global" && Strip(requested) == "" <==> decisions == [])
      && (decisions != [] ==> |decisions| == 1 && Reports(decisions[0], c.promotionReason(text), target, requested, final))
  {
    hide Strip, IsSpecific;
    SpecificExactly(Strip(requested));
  }

  predicate ReportsFact(c: Classifiers, target: string, f: Fact, d: Decision) {
    Reports(d, c.promotionReason(f.category + " " + f.text), target, f.scope, AlignFact(c, target, f).0.scope)
  }

  predicate Reported(target: string, scope: string) {
    target == "global" || Strip(scope) != ""
  }

  lemma FactReports(c: Classifiers, target: string, f: Fact)
    ensures var decisions := AlignFact(c, target, f).1;
      && (decisions != [] <==> Reported(target, f.scope))
      && (decisions != [] ==> |decisions| == 1 && ReportsFact(c, target, f, decisions[0]))
  {
    hide Strip, Coerce, Reports;
    CoerceReports(c, target, f.scope, f.category + " " + f.text);
  }

  /** The decisions on the first `n` facts are those on the facts with a scope, in order, one each. */
  lemma {:induction false} FactsReported(c: Classifiers, target: string, facts: seq<Fact>, n: nat) returns (ks: seq<nat>)
    requires n <= |facts|
    ensures var decisions := FactDecisions(c, target, facts[..n]);
      && |ks| == |decisions| && Increasing(ks, n)
      && (forall i: nat :: i < n ==> (Reported(target, facts[i].scope) <==> i in ks))
      && forall k :: 0 <= k < |ks| ==> ks[k] < n && ReportsFact(c, target, facts[ks[k]], decisions[k])
  {
    hide AlignFact, ReportsFact, Reported, Increasing;
    NoneIncreasing();
    ks := [];
    if n > 0 {
      assert facts[..n][..n - 1] == facts[..n - 1];
      ks := FactsReported(c, target, facts, n - 1);
      IncreasingSnoc(ks, n - 1);
      FactReports(c, target, facts[n - 1]);
      if Reported(target, facts[n - 1].scope) { ks := ks + [n - 1]; }
    }
  }

  predicate ReportsPreference(c: Classifiers, target: string, p: Preference, d: Decision) {
    var aligned := AlignPreference(c, target, p).0.scope;
    var profile := c.profileReason(p.key, p.evidenceRole, p.evidenceQuote);
    if HasReason(profile)
    then d.finalScope == aligned == "global" && d.why == GlobalProfilePromoted(profile.value)
         && d.requestedScope == (if Strip(p.scope) == "" then None else Some(Strip(p.scope)))
    else Reports(d, c.promotionReason(p.key + " " + p.value), target, p.scope, aligned)
  }

  predicate PreferenceReported(c: Classifiers, target: string, p: Preference) {
    HasReason(c.profileReason(p.key, p.evidenceRole, p.evidenceQuote)) || Reported(target, p.scope)
  }

  lemma PreferenceReports(c: Classifiers, target: string, p: Preference)
    ensures var decisions := AlignPreference(c, target, p).1;
      && (decisions != [] <==> PreferenceReported(c, target, p))
      && (decisions != [] ==> |decisions| == 1 && ReportsPreference(c, target, p, decisions[0]))
  {
    hide Strip, Coerce, Reports;
    CoerceReports(c, target, p.scope, p.key + " " + p.value);
  }

  /** The decisions on the preferences, likewise; one that the user's own profile makes global is
      reported even without a scope. */
  lemma {:induction false} PreferencesReported(c: Classifiers, target: string, prefs: seq<Preference>, n: nat) returns (ks: seq<nat>)
    requires n <= |prefs|
    ensures var decisions := PreferenceDecisions(c, target, prefs[..n]);
      && |ks| == |decisions| && Increasing(ks, n)
      && (forall i: nat :: i < n ==> (PreferenceReported(c, target, prefs[i]) <==> i in ks))
      && forall k :: 0 <= k < |ks| ==> ks[k] < n && ReportsPreference(c, target, prefs[ks[k]], decisions[k])
  {
    hide AlignPreference, ReportsPreference, PreferenceReported, Increasing;
    NoneIncreasing();
    ks := [];
    if n > 0 {
      assert prefs[..n][..n - 1] == prefs[..n - 1];
      ks := PreferencesReported(c, target, prefs, n - 1);
      IncreasingSnoc(ks, n - 1);
      PreferenceReports(c, target, prefs[n - 1]);
      if PreferenceReported(c, target, prefs[n - 1]) { ks := ks + [n - 1]; }
    }
  }

  // Adopting identity values.

  predicate Offers(c: Classifiers, field: IdentityField, p: Preference) {
    c.identityField(p.key) == Some(field) && Strip(p.value) != ""
  }

  /** The i-th entry is the first offer for an identity field that is blank. */
  predicate AdoptedFor(c: Classifiers, identity: Identity, prefs: seq<Preference>, i: nat, field: IdentityField) {
    && i < |prefs| && Offers(c, field, prefs[i]) && Strip(IdentityValue(identity, field)) == ""
    && forall k :: 0 <= k < i ==> !Offers(c, field, prefs[k])
  }

  predicate Adopted(c: Classifiers, identity: Identity, prefs: seq<Preference>, i: nat) {
    AdoptedFor(c, identity, prefs, i, AssistantName) || AdoptedFor(c, identity, prefs, i, UserCallName)
  }

  ghost predicate NoneAdopted(c: Classifiers, identity: Identity, prefs: seq<Preference>) {
    forall i: nat :: !Adopted(c, identity, prefs, i)
  }

  /** Importance and confidence are the largest of the identity's own and those of the adopted entries. */
  ghost predicate Largest(c: Classifiers, identity: Identity, prefs: seq<Preference>, after: Identity) {
    && after.importance >= identity.importance && after.confidence >= identity.confidence
    && (forall i: nat :: Adopted(c, identity, prefs, i) ==>
          after.importance >= prefs[i].importance && after.confidence >= prefs[i].confidence)
    && (after.importance == identity.importance
        || exists i: nat :: Adopted(c, identity, prefs, i) && after.importance == prefs[i].importance)
    && (after.confidence == identity.confidence
        || exists i: nat :: Adopted(c, identity, prefs, i) && after.confidence == prefs[i].confidence)
  }

  lemma AdoptedEarlier(c: Classifiers, identity: Identity, prefs: seq<Preference>, last: Preference, i: nat)
    requires i < |prefs|
    ensures Adopted(c, identity, prefs + [last], i) <==> Adopted(c, identity, prefs, i)
  {
    hide Strip, Offers, IdentityValue;
    assert forall k :: 0 <= k < |prefs| ==> (prefs + [last])[k] == prefs[k];
  }

  /** A value is offered before exactly when it is not blank afterwards although it was. */
  lemma {:induction false} BlankUntilOffered(c: Classifiers, identity: Identity, prefs: seq<Preference>, field: IdentityField)
    ensures Strip(IdentityValue(RouteAll(c, identity, prefs).identity, field)) == "" <==>
      Strip(IdentityValue(identity, field)) == "" && forall k :: 0 <= k < |prefs| ==> !Offers(c, field, prefs[k])
  {
    hide Strip;
    if prefs != [] {
      var init, last := prefs[..|prefs| - 1], prefs[|prefs| - 1];
      assert forall k :: 0 <= k < |init| ==> init[k] == prefs[k];
      BlankUntilOffered(c, identity, init, field);
      StripTwice(last.value);
    }
  }

  lemma LastAdopted(c: Classifiers, identity: Identity, prefs: seq<Preference>, last: Preference, field: IdentityField)
    requires c.identityField(last.key) == Some(field)
    ensures Adopted(c, identity, prefs + [last], |prefs|) <==>
      Strip(IdentityValue(RouteAll(c, identity, prefs).identity, field)) == "" && Strip(last.value) != ""
  {
    hide Strip, RouteAll;
    BlankUntilOffered(c, identity, prefs, field);
    assert forall k :: 0 <= k < |prefs| ==> (prefs + [last])[k] == prefs[k];
  }

  /** One entry: nothing changes unless it is adopted. */
  lemma AdoptStep(c: Classifiers, identity: Identity, prefs: seq<Preference>, last: Preference)
    ensures var before, after := RouteAll(c, identity, prefs).identity, RouteAll(c, identity, prefs + [last]).identity;
      if Adopted(c, identity, prefs + [last], |prefs|)
      then && after.importance == (if before.importance < last.importance then last.importance else before.importance)
           && after.confidence == (if before.confidence < last.confidence then last.confidence else before.confidence)
           && after.durability == "stable" && after.targetStore == "identity"
      else after == before
  {
    hide Strip, AdoptedFor;
    assert (prefs + [last])[..|prefs|] == prefs;
    match c.identityField(last.key) {
      case Some(field) => LastAdopted(c, identity, prefs, last, field);
      case None => NotAnOffer(c, identity, prefs, last);
    }
  }

  lemma NotAnOffer(c: Classifiers, identity: Identity, prefs: seq<Preference>, last: Preference)
    requires c.identityField(last.key).None?
    ensures !Adopted(c, identity, prefs + [last], |prefs|)
  {
  }

  lemma AdoptedInRange(c: Classifiers, identity: Identity, prefs: seq<Preference>, i: nat)
    requires Adopted(c, identity, prefs, i)
    ensures i < |prefs|
  {
  }

  lemma LargestStep(c: Classifiers, identity: Identity, prefs: seq<Preference>, last: Preference, before: Identity, after: Identity)
    requires Largest(c, identity, prefs, before)
    requires forall i: nat :: i < |prefs| ==> (Adopted(c, identity, prefs + [last], i) <==> Adopted(c, identity, prefs, i))
    requires if Adopted(c, identity, prefs + [last], |prefs|)
      then && after.importance == (if before.importance < last.importance then last.importance else before.importance)
           && after.confidence == (if before.confidence < last.confidence then last.confidence else before.confidence)
      else after == before
    ensures Largest(c, identity, prefs + [last], after)
  {
    hide Adopted;
    var all := prefs + [last];
    forall i: nat | Adopted(c, identity, all, i) ensures i <= |prefs| && (i < |prefs| ==> all[i] == prefs[i]) {
      AdoptedInRange(c, identity, all, i);
    }
    forall i: nat | Adopted(c, identity, prefs, i) ensures i < |prefs| { AdoptedInRange(c, identity, prefs, i); }
  }

  /** Adopting raises importance and confidence to those of the adopted entries and makes the identity
      stable; without an adopted entry nothing of the identity changes. */
  lemma {:induction false} AdoptionExactly(c: Classifiers, identity: Identity, prefs: seq<Preference>)
    ensures var after := RouteAll(c, identity, prefs).identity;
      && Largest(c, identity, prefs, after)
      && (NoneAdopted(c, identity, prefs) ==> after == identity)
      && (!NoneAdopted(c, identity, prefs) ==> after.durability == "stable" && after.targetStore == "identity")
  {
    hide Strip, Adopted, Largest, RouteStep;
    if prefs == [] {
      assert Largest(c, identity, [], identity) && NoneAdopted(c, identity, []) by { NothingAdopted(c, identity); }
    } else {
      var init, last := prefs[..|prefs| - 1], prefs[|prefs| - 1];
      assert prefs == init + [last];
      AdoptionExactly(c, identity, init);
      forall i: nat | i < |init| ensures Adopted(c, identity, prefs, i) <==> Adopted(c, identity, init, i) {
        AdoptedEarlier(c, identity, init, last, i);
      }
      forall i: nat | Adopted(c, identity, prefs, i) ensures i <= |init| { AdoptedInRange(c, identity, prefs, i); }
      forall i: nat | Adopted(c, identity, init, i) ensures i < |init| { AdoptedInRange(c, identity, init, i); }
      AdoptStep(c, identity, init, last);
      LargestStep(c, identity, init, last, RouteAll(c, identity, init).identity, RouteAll(c, identity, prefs).identity);
    }
  }

  lemma NothingAdopted(c: Classifiers, identity: Identity)
    ensures Largest(c, identity, [], identity) && NoneAdopted(c, identity, [])
  {
  }

  /** The value of the field is there before the i-th entry: typed, or offered by an earlier entry. */
  predicate Known(c: Classifiers, identity: Identity, prefs: seq<Preference>, i: nat, field: IdentityField)
    requires i <= |prefs|
  {
    Strip(IdentityValue(identity, field)) != "" || exists k :: 0 <= k < i && Offers(c, field, prefs[k])
  }

  /** The decision reported on the i-th entry, an identity entry. */
  predicate ReportsIdentity(c: Classifiers, identity: Identity, prefs: seq<Preference>, i: nat, d: Decision) {
    && i < |prefs| && d.finalScope == "global"
    && d.requestedScope == (if Strip(prefs[i].scope) == "" then None else Some(Strip(prefs[i].scope)))
    && match c.identityField(prefs[i].key)
       case None => false
       case Some(field) =>
         d.why == if Known(c, identity, prefs, i, field) then TypedValuePresent
                  else if Strip(prefs[i].value) != "" then PromotedGlobal else EmptyIdentity
  }

  lemma ReportsLast(c: Classifiers, identity: Identity, prefs: seq<Preference>, n: nat)
    requires n < |prefs|
    ensures var before, after := RouteAll(c, identity, prefs[..n]).decisions, RouteAll(c, identity, prefs[..n + 1]).decisions;
      if c.identityField(prefs[n].key).None? then after == before
      else |after| == |before| + 1 && after[..|before|] == before && ReportsIdentity(c, identity, prefs, n, after[|before|])
  {
    hide Strip, Offers, IdentityValue;
    assert prefs[..n + 1][..n] == prefs[..n] && prefs[..n + 1][n] == prefs[n];
    match c.identityField(prefs[n].key) {
      case None =>
      case Some(field) =>
        BlankUntilOffered(c, identity, prefs[..n], field);
        assert forall k :: 0 <= k < n ==> prefs[..n][k] == prefs[k];
    }
  }

  /** Routing reports on exactly the identity entries among the first `n`, in order, one decision each. */
  lemma {:induction false} RoutingReported(c: Classifiers, identity: Identity, prefs: seq<Preference>, n: nat) returns (ks: seq<nat>)
    requires n <= |prefs|
    ensures var decisions := RouteAll(c, identity, prefs[..n]).decisions;
      && |ks| == |decisions| && Increasing(ks, n)
      && (forall i: nat :: i < n ==> (c.identityField(prefs[i].key).Some? <==> i in ks))
      && forall k :: 0 <= k < |ks| ==> ks[k] < n && ReportsIdentity(c, identity, prefs, ks[k], decisions[k])
  {
    hide ReportsIdentity, RouteStep, Increasing;
    NoneIncreasing();
    ks := [];
    if n > 0 {
      ks := RoutingReported(c, identity, prefs, n - 1);
      IncreasingSnoc(ks, n - 1);
      ReportsLast(c, identity, prefs, n - 1);
      if c.identityField(prefs[n - 1].key).Some? { ks := ks + [n - 1]; }
    }
  }

  /** All decisions of an alignment: those on the identity entries, one more when the identity has a
      value, those on the remaining preferences and those on the facts. */
  lemma {:induction false} DecisionsInOrder(c: Classifiers, effectiveScope: string, x: Extraction)
    ensures var routed := RouteAll(c, x.identity, x.preferences);
      var target := if Strip(effectiveScope) == "" then "global" else Strip(effectiveScope);
      var named := Strip(routed.identity.assistantName) != "" || Strip(routed.identity.userCallName) != "";
      AlignDecisions(c, effectiveScope, x)
      == routed.decisions + (if named then [Decision(None, "global", IdentityGlobalTruth)] else [])
         + PreferenceDecisions(c, target, NotIdentity(c, x.preferences)) + FactDecisions(c, target, x.knowledge)
  {
    hide Strip, RouteAll, NotIdentity;
    RoutingIsExact(c, x.identity, x.preferences, AssistantName);
  }
}
