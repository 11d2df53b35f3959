/** Scope alignment of extracted memory: identity entries are taken out of the preferences, and every
    preference and fact is bound to the effective scope unless it may be global. */
module MemoryScopes {
  import opened PyText

  datatype IdentityField = AssistantName | UserCallName

  datatype Identity = Identity(
    assistantName: string, userCallName: string, importance: int, confidence: real, durability: string, targetStore: string)

  datatype Preference = Preference(
    scope: string, key: string, value: string, importance: int, confidence: real, evidenceRole: string, evidenceQuote: string)

  datatype Fact = Fact(
    text: string, category: string, scope: string, relation: string, targetFactId: string, overwriteId: string,
    importance: int, confidence: real, persistedFactId: string)

  /** The classifiers, which read text and evidence but no scope: the identity field a key stands for,
      the reason a user's own profile preference is global, and the reason a text is. */
  datatype Classifiers = Classifiers(
    identityField: string -> Option<IdentityField>,
    profileReason: (string, string, string) -> Option<string>,
    promotionReason: string -> Option<string>)

  datatype Why =
    | TypedValuePresent | PromotedGlobal | EmptyIdentity | IdentityGlobalTruth | GlobalProfilePromoted(reason: string)
    | TargetGlobal | GlobalPromoted(reason: string) | GlobalRejected | SpecificRebound | CurrentScope

  datatype Decision = Decision(requestedScope: Option<string>, finalScope: string, why: Why)

  function Requested(scope: string): Option<string> {
    if Strip(scope) == "" then None else Some(Strip(scope))
  }

  // Identity entries.

  function IdentityValue(identity: Identity, field: IdentityField): string {
    if field.AssistantName? then identity.assistantName else identity.userCallName
  }

  function WithIdentityValue(identity: Identity, field: IdentityField, value: string): Identity {
    if field.AssistantName? then identity.(assistantName := value) else identity.(userCallName := value)
  }

  function MaxInt(a: int, b: int): int { if a < b then b else a }

  function MaxReal(a: real, b: real): real { if a < b then b else a }

  /** One identity entry: a value already present wins, then the first non-blank candidate. */
  function Adopt(identity: Identity, field: IdentityField, pref: Preference): (Identity, Why) {
    if Strip(IdentityValue(identity, field)) != "" then (identity, TypedValuePresent)
    else if Strip(pref.value) != "" then
      (WithIdentityValue(identity, field, Strip(pref.value)).(
         importance := MaxInt(identity.importance, pref.importance),
         confidence := MaxReal(identity.confidence, pref.confidence),
         durability := "stable", targetStore := "identity"), PromotedGlobal)
    else (identity, EmptyIdentity)
  }

  datatype Routed = Routed(identity: Identity, retained: seq<Preference>, decisions: seq<Decision>)

  function RouteStep(c: Classifiers, r: Routed, pref: Preference): Routed {
    match c.identityField(pref.key)
    case None => r.(retained := r.retained + [pref])
    case Some(field) =>
      var (identity, why) := Adopt(r.identity, field, pref);
      r.(identity := identity, decisions := r.decisions + [Decision(Requested(pref.scope), "global", why)])
  }

  function RouteAll(c: Classifiers, identity: Identity, prefs: seq<Preference>): Routed {
    if prefs == [] then Routed(identity, [], [])
    else RouteStep(c, RouteAll(c, identity, prefs[..|prefs| - 1]), prefs[|prefs| - 1])
  }

  function Route(c: Classifiers, identity: Identity, prefs: seq<Preference>): Routed {
    var r := RouteAll(c, identity, prefs);
    if Strip(r.identity.assistantName) != "" || Strip(r.identity.userCallName) != "" then
      r.(decisions := r.decisions + [Decision(None, "global", IdentityGlobalTruth)])
    else r
  }

  // Scopes.

  predicate IsSpecific(scope: string) {
    StartsWith(scope, "project:") || StartsWith(scope, "channel:") || StartsWith(scope, "workspace:")
    || StartsWith(scope, "external_api_thread:")
  }

  function Target(effectiveScope: string): string {
    if Strip(effectiveScope) == "" then "global" else Strip(effectiveScope)
  }

  function Coerce(c: Classifiers, target: string, requested: string, text: string): (string, seq<Decision>) {
    var normalized := Strip(requested);
    if target == "global" then ("global", [Decision(Requested(requested), "global", TargetGlobal)])
    else if normalized == "global" then
      match c.promotionReason(text)
      case Some(reason) =>
        if reason != "" then ("global", [Decision(Some(normalized), "global", GlobalPromoted(reason))])
        else (target, [Decision(Some(normalized), target, GlobalRejected)])
      case None => (target, [Decision(Some(normalized), target, GlobalRejected)])
    else if normalized == "" then (target, [])
    else if IsSpecific(normalized) && normalized != target then (target, [Decision(Some(normalized), target, SpecificRebound)])
    else (target, [Decision(Some(normalized), target, CurrentScope)])
  }

  function PreferenceText(p: Preference): string { p.key + " " + p.value }

  function FactText(f: Fact): string { f.category + " " + f.text }

  function ProfileReason(c: Classifiers, p: Preference): string {
    var reason := c.profileReason(p.key, p.evidenceRole, p.evidenceQuote);
    if reason.Some? then reason.value else ""
  }

  function AlignPreference(c: Classifiers, target: string, p: Preference): (Preference, seq<Decision>) {
    if ProfileReason(c, p) != "" then
      (p.(scope := "global"), [Decision(Requested(p.scope), "global", GlobalProfilePromoted(ProfileReason(c, p)))])
    else
      var (scope, decisions) := Coerce(c, target, p.scope, PreferenceText(p));
      (p.(scope := scope), decisions)
  }

  function AlignFact(c: Classifiers, target: string, f: Fact): (Fact, seq<Decision>) {
    var (scope, decisions) := Coerce(c, target, f.scope, FactText(f));
    (f.(scope := scope), decisions)
  }

  function AlignedPreferences(c: Classifiers, target: string, prefs: seq<Preference>): (a: seq<Preference>)
    ensures |a| == |prefs| && forall i :: 0 <= i < |prefs| ==> a[i] == AlignPreference(c, target, prefs[i]).0
  {
    seq(|prefs|, i requires 0 <= i < |prefs| => AlignPreference(c, target, prefs[i]).0)
  }

  function AlignedFacts(c: Classifiers, target: string, facts: seq<Fact>): (a: seq<Fact>)
    ensures |a| == |facts| && forall i :: 0 <= i < |facts| ==> a[i] == AlignFact(c, target, facts[i]).0
  {
    seq(|facts|, i requires 0 <= i < |facts| => AlignFact(c, target, facts[i]).0)
  }

  function PreferenceDecisions(c: Classifiers, target: string, prefs: seq<Preference>): seq<Decision> {
    if prefs == [] then []
    else PreferenceDecisions(c, target, prefs[..|prefs| - 1]) + AlignPreference(c, target, prefs[|prefs| - 1]).1
  }

  function FactDecisions(c: Classifiers, target: string, facts: seq<Fact>): seq<Decision> {
    if facts == [] then []
    else FactDecisions(c, target, facts[..|facts| - 1]) + AlignFact(c, target, facts[|facts| - 1]).1
  }

  datatype Extraction = Extraction(identity: Identity, preferences: seq<Preference>, knowledge: seq<Fact>)

  /** `_align_extraction_scopes` on values. */
  function Align(c: Classifiers, effectiveScope: string, x: Extraction): Extraction {
    var routed := Route(c, x.identity, x.preferences);
    Extraction(routed.identity, AlignedPreferences(c, Target(effectiveScope), routed.retained),
               AlignedFacts(c, Target(effectiveScope), x.knowledge))
  }

  function AlignDecisions(c: Classifiers, effectiveScope: string, x: Extraction): seq<Decision> {
    var routed := Route(c, x.identity, x.preferences);
    routed.decisions + PreferenceDecisions(c, Target(effectiveScope), routed.retained)
      + FactDecisions(c, Target(effectiveScope), x.knowledge)
  }

  // The result object as the source updates it.

  class ExtractionResult {
    var identity: Identity
    var preferences: seq<Preference>
    var knowledge: seq<Fact>

    constructor (x: Extraction)
      ensures Value() == x
    {
      identity, preferences, knowledge := x.identity, x.preferences, x.knowledge;
    }

    ghost function Value(): Extraction
      reads this
    {
      Extraction(identity, preferences, knowledge)
    }

    method RouteLegacyIdentity(c: Classifiers) returns (decisions: seq<Decision>)
      modifies this
      ensures var r := Route(c, old(identity), old(preferences));
        identity == r.identity && preferences == r.retained && decisions == r.decisions
      ensures knowledge == old(knowledge)
    {
      hide Adopt;
      var retained: seq<Preference> := [];
      decisions := [];
      var current := identity;
      for i := 0 to |preferences|
        invariant preferences == old(preferences) && knowledge == old(knowledge) && identity == old(identity)
        invariant Routed(current, retained, decisions) == RouteAll(c, identity, preferences[..i])
      {
        assert preferences[..i + 1][..i] == preferences[..i];
        var pref := preferences[i];
        match c.identityField(pref.key) {
          case None =>
            retained := retained + [pref];
          case Some(field) =>
            var (adopted, why) := Adopt(current, field, pref);
            current := adopted;
            decisions := decisions + [Decision(Requested(pref.scope), "global", why)];
        }
      }
      assert preferences[..|preferences|] == preferences;
      identity := current;
      preferences := retained;
      if Strip(identity.assistantName) != "" || Strip(identity.userCallName) != "" {
        decisions := decisions + [Decision(None, "global", IdentityGlobalTruth)];
      }
    }

    /** The loop over the preferences that routing retained. */
    method AlignPreferences(c: Classifiers, target: string) returns (decisions: seq<Decision>)
      modifies this`preferences
      ensures preferences == AlignedPreferences(c, target, old(preferences))
      ensures decisions == PreferenceDecisions(c, target, old(preferences))
    {
      hide AlignPreference;
      ghost var retained := preferences;
      decisions := [];
      for i := 0 to |preferences|
        invariant |preferences| == |retained|
        invariant forall k :: 0 <= k < |retained| ==>
          preferences[k] == if k < i then AlignPreference(c, target, retained[k]).0 else retained[k]
        invariant decisions == PreferenceDecisions(c, target, retained[..i])
      {
        assert retained[..i + 1][..i] == retained[..i];
        var (aligned, why) := AlignPreference(c, target, preferences[i]);
        preferences := preferences[i := aligned];
        decisions := decisions + why;
      }
      assert retained[..|retained|] == retained;
    }

    /** The loop over the facts. */
    method AlignKnowledge(c: Classifiers, target: string) returns (decisions: seq<Decision>)
      modifies this`knowledge
      ensures knowledge == AlignedFacts(c, target, old(knowledge))
      ensures decisions == FactDecisions(c, target, old(knowledge))
    {
      hide AlignFact;
      ghost var facts := knowledge;
      decisions := [];
      for i := 0 to |knowledge|
        invariant |knowledge| == |facts|
        invariant forall k :: 0 <= k < |facts| ==>
          knowledge[k] == if k < i then AlignFact(c, target, facts[k]).0 else facts[k]
        invariant decisions == FactDecisions(c, target, facts[..i])
      {
        assert facts[..i + 1][..i] == facts[..i];
        var (aligned, why) := AlignFact(c, target, knowledge[i]);
        knowledge := knowledge[i := aligned];
        decisions := decisions + why;
      }
      assert facts[..|facts|] == facts;
    }

    method AlignScopes(c: Classifiers, effectiveScope: string) returns (decisions: seq<Decision>)
      modifies this
      ensures Value() == Align(c, effectiveScope, old(Value())) && decisions == AlignDecisions(c, effectiveScope, old(Value()))
    {
      hide Route, AlignedPreferences, AlignedFacts;
      decisions := RouteLegacyIdentity(c);
      var onPreferences := AlignPreferences(c, Target(effectiveScope));
      var onKnowledge := AlignKnowledge(c, Target(effectiveScope));
      decisions := decisions + onPreferences + onKnowledge;
    }
  }

  // What routing does.

  /** The entries that are no identity entries, in order. */
  function NotIdentity(c: Classifiers, prefs: seq<Preference>): seq<Preference> {
    if prefs == [] then []
    else NotIdentity(c, prefs[..|prefs| - 1])
         + if c.identityField(prefs[|prefs| - 1].key).None? then [prefs[|prefs| - 1]] else []
  }

  /** The first non-blank value offered for an identity field, stripped. */
  function FirstOffer(c: Classifiers, field: IdentityField, prefs: seq<Preference>): Option<string> {
    if prefs == [] then None
    else
      var before, last := FirstOffer(c, field, prefs[..|prefs| - 1]), prefs[|prefs| - 1];
      if before.Some? then before
      else if c.identityField(last.key) == Some(field) && Strip(last.value) != "" then Some(Strip(last.value))
      else None
  }

  /** Routing takes out exactly the identity entries; a typed identity value is never overwritten, and
      a blank one becomes the first non-blank value offered for it. */
  lemma {:induction false} RoutingIsExact(c: Classifiers, identity: Identity, prefs: seq<Preference>, field: IdentityField)
    ensures var r := RouteAll(c, identity, prefs);
      && r.retained == NotIdentity(c, prefs)
      && (Strip(IdentityValue(identity, field)) != "" ==> IdentityValue(r.identity, field) == IdentityValue(identity, field))
      && (Strip(IdentityValue(identity, field)) == "" ==>
            IdentityValue(r.identity, field)
            == match FirstOffer(c, field, prefs) { case Some(value) => value case None => IdentityValue(identity, field) })
      && (FirstOffer(c, field, prefs).Some? ==> Trimmed(FirstOffer(c, field, prefs).value))
  {
    hide Strip;
    if prefs != [] {
      var last := prefs[|prefs| - 1];
      RoutingIsExact(c, identity, prefs[..|prefs| - 1], field);
      StripTwice(last.value);
      var before := FirstOffer(c, field, prefs[..|prefs| - 1]);
      if before.Some? { StripTrimmed(before.value); }
    }
  }

  lemma StripTrimmed(s: string)
    requires Trimmed(s)
    ensures Strip(s) == s
  {
  }

  lemma {:induction false} NoIdentityLeft(c: Classifiers, prefs: seq<Preference>)
    ensures forall p <- NotIdentity(c, prefs) :: c.identityField(p.key).None?
  {
    if prefs != [] { NoIdentityLeft(c, prefs[..|prefs| - 1]); }
  }

  /** When there are no identity entries routing changes nothing. */
  lemma {:induction false} RoutingNothing(c: Classifiers, identity: Identity, prefs: seq<Preference>)
    requires forall p <- prefs :: c.identityField(p.key).None?
    ensures RouteAll(c, identity, prefs) == Routed(identity, prefs, [])
  {
    hide Adopt, Strip;
    if prefs != [] {
      var init, last := prefs[..|prefs| - 1], prefs[|prefs| - 1];
      assert prefs == init + [last];
      assert last in prefs && forall p <- init :: p in prefs;
      RoutingNothing(c, identity, init);
    }
  }

  // What alignment does.

  predicate Promoted(c: Classifiers, text: string) {
    c.promotionReason(text).Some? && c.promotionReason(text).value != ""
  }

  /** Containment: every preference and fact ends in the target scope or `global`, and in `global`
      exactly when the target is global, the entry asked for `global` with a promotion reason, or, for
      a preference, the user's own profile says so. Nothing but the scope changes. */
  lemma {:induction false} ScopesAreContained(c: Classifiers, effectiveScope: string, x: Extraction)
    ensures var t, y, retained := Target(effectiveScope), Align(c, effectiveScope, x), NotIdentity(c, x.preferences);
      && |y.preferences| == |retained| && |y.knowledge| == |x.knowledge|
      && (forall i :: 0 <= i < |retained| ==>
            && y.preferences[i].scope in {t, "global"}
            && (y.preferences[i].scope == "global" <==>
                  t == "global" || ProfileReason(c, retained[i]) != ""
                  || (Strip(retained[i].scope) == "global" && Promoted(c, PreferenceText(retained[i]))))
            && y.preferences[i].(scope := retained[i].scope) == retained[i])
      && (forall i :: 0 <= i < |x.knowledge| ==>
            && y.knowledge[i].scope in {t, "global"}
            && (y.knowledge[i].scope == "global" <==>
                  t == "global" || (Strip(x.knowledge[i].scope) == "global" && Promoted(c, FactText(x.knowledge[i]))))
            && y.knowledge[i].(scope := x.knowledge[i].scope) == x.knowledge[i])
  {
    hide Strip, RouteAll, NotIdentity;
    RoutingIsExact(c, x.identity, x.preferences, AssistantName);
  }

  lemma TargetIsStripped(effectiveScope: string)
    ensures Strip(Target(effectiveScope)) == Target(effectiveScope) != ""
  {
    StripTwice(effectiveScope);
  }

  /** Coercing an already coerced scope changes nothing. */
  lemma CoerceTwice(c: Classifiers, target: string, requested: string, text: string)
    requires Strip(target) == target != ""
    ensures var once := Coerce(c, target, requested, text).0; Coerce(c, target, once, text).0 == once
  {
    hide Strip, IsSpecific;
    assert Strip("global") == "global" by { StripTrimmed("global"); }
  }

  /** Alignment is idempotent. */
  lemma {:induction false} AlignTwice(c: Classifiers, effectiveScope: string, x: Extraction)
    ensures var once := Align(c, effectiveScope, x); Align(c, effectiveScope, once) == once
  {
    hide Strip, RouteAll, NotIdentity, Coerce;
    var t, once := Target(effectiveScope), Align(c, effectiveScope, x);
    TargetIsStripped(effectiveScope);
    RoutingIsExact(c, x.identity, x.preferences, AssistantName);
    NoIdentityLeft(c, x.preferences);
    assert forall p <- once.preferences :: c.identityField(p.key).None? by {
      forall i | 0 <= i < |once.preferences| ensures c.identityField(once.preferences[i].key).None? {
        assert NotIdentity(c, x.preferences)[i] in NotIdentity(c, x.preferences);
      }
    }
    RoutingNothing(c, once.identity, once.preferences);
    forall i | 0 <= i < |once.preferences| ensures AlignPreference(c, t, once.preferences[i]).0 == once.preferences[i] {
      var p := NotIdentity(c, x.preferences)[i];
      CoerceTwice(c, t, p.scope, PreferenceText(p));
    }
    forall i | 0 <= i < |once.knowledge| ensures AlignFact(c, t, once.knowledge[i]).0 == once.knowledge[i] {
      CoerceTwice(c, t, x.knowledge[i].scope, FactText(x.knowledge[i]));
    }
    assert AlignedPreferences(c, t, once.preferences) == once.preferences;
    assert AlignedFacts(c, t, once.knowledge) == once.knowledge;
  }
}
