/**
 Convergence, exactness and independence of the Feature drift verdict: the request
 builders of convert.go against the comparison of convert.go and rules_drift.go, with
 the wire and the server's patch semantics between them.
 */
module FeatureDrift {
  import opened Options
  import opened Decimals
  import opened FeatureTypes
  import opened FeatureWire
  import opened FeatureConvert
  import opened StringSets
  import opened RuleConvert
  import opened RuleDrift
  import opened RuleMeaning

  /** Why a write never reaches the server. */
  datatype SendError = Invalid(cause: RequestError) | Unencodable

  /** The body `UpdateFeature` puts on the wire: id and valueType are dropped. */
  function UpdateBody(parse: ParseFloat, p: FeatureParameters): Result<FeatureBody, SendError> {
    var req := Updating(parse, p);
    if req.Failure? then Failure(Invalid(req.error))
    else if !Encodable(req.value.(id := "", valueType := "")) then Failure(Unencodable)
    else Success(Encode(req.value.(id := "", valueType := "")))
  }

  /** The body `CreateFeature` puts on the wire. */
  function CreateBody(parse: ParseFloat, id: string, p: FeatureParameters, ip: FeatureInitParameters)
    : Result<FeatureBody, SendError>
  {
    var req := Creating(parse, id, p, ip);
    if req.Failure? then Failure(Invalid(req.error))
    else if !Encodable(req.value) then Failure(Unencodable)
    else Success(Encode(req.value))
  }

  // ---- Converter and comparator agree ---------------------------------------------

  /** What a rule needs to compare as up to date once stored: no explicitly empty id, no id with two values. */
  predicate RuleSettles(w: RuleSpec) {
    w.id != Some("") && Consistent(Converted(w.variations))
  }

  predicate RulesSettle(rules: Option<seq<RuleSpec>>) {
    rules.Some? ==> forall w :: w in rules.value ==> RuleSettles(w)
  }

  /** However the server keeps a converted rule, it compares as up to date exactly when the rule settles. */
  lemma StoredRuleMatches(parse: ParseFloat, w: RuleSpec, g: Rule)
    requires Parses(parse, w.coverage) && Finitely(ConvertedRule(parse, w).coverage)
    requires Keeps(ConvertedRule(parse, w), g)
    ensures RuleMatches(parse, w, g) <==> RuleSettles(w)
  {
    ConsistentMatch(w.variations, g.variations);
    assert SavedGroupsMatch(w.savedGroups, g.savedGroups);
  }

  /** The rules the wire carries for a desired list. */
  predicate CarriesRules(parse: ParseFloat, rules: seq<RuleSpec>, sent: seq<RuleBody>) {
    && AllParse(parse, rules)
    && |sent| == |rules|
    && forall i :: 0 <= i < |rules| ==>
         && Finitely(ConvertedRule(parse, rules[i]).coverage)
         && sent[i] == EncodeRule(ConvertedRule(parse, rules[i]))
  }

  lemma StoredRulesMatch(parse: ParseFloat, rules: seq<RuleSpec>, sent: seq<RuleBody>, got: seq<Rule>)
    requires CarriesRules(parse, rules, sent) && KeepsAll(sent, got)
    ensures RulesMatch(parse, Some(rules), got) <==> RulesSettle(Some(rules))
  {
    forall i | 0 <= i < |rules| ensures RuleMatches(parse, rules[i], got[i]) <==> RuleSettles(rules[i]) {
      assert rules[i] in rules;
      RuleRoundTrip(ConvertedRule(parse, rules[i]));
      assert Keeps(DecodeRule(sent[i]), got[i]);
      StoredRuleMatches(parse, rules[i], got[i]);
    }
    if RulesMatch(parse, Some(rules), got) {
      forall w | w in rules ensures RuleSettles(w) {
        var i :| 0 <= i < |rules| && rules[i] == w;
        assert RuleMatches(parse, rules[i], got[i]);
      }
    }
  }

  /**
   The body carries every field the spec sets, except those omitempty drops: an empty
   default value, an empty list of tags and an empty map of environments.
   */
  predicate Carries(parse: ParseFloat, p: FeatureParameters, b: FeatureBody) {
    && (p.defaultValue != "" ==> b.defaultValue == Some(p.defaultValue))
    && (p.description.Some? ==> b.description == p.description)
    && (p.project.Some? ==> b.project == p.project)
    && (p.tags.Some? && p.tags != Some([]) ==> b.tags == p.tags)
    && (p.archived.Some? ==> b.archived == p.archived)
    && (p.owner.Some? ==> b.owner == p.owner)
    && (p.environments.Some? && p.environments != Some(map[]) ==> b.environments == ConvertedEnvironments(p.environments))
    && (p.rules.Some? ==> b.rules.Some? && CarriesRules(parse, p.rules.value, b.rules.value))
  }

  lemma RequestCarriesRules(parse: ParseFloat, rules: seq<RuleSpec>, req: FeatureRequest)
    requires AllParse(parse, rules) && req.rules == Some(ConvertedList(parse, rules)) && Encodable(req)
    ensures CarriesRules(parse, rules, Encode(req).rules.value)
  {
    forall i | 0 <= i < |rules| ensures Finitely(ConvertedRule(parse, rules[i]).coverage) {
      assert rules[i] in rules;
      assert req.rules.value[i] in req.rules.value;
    }
  }

  lemma EnvironmentsSent(p: FeatureParameters)
    requires p.environments.Some? && p.environments != Some(map[])
    ensures ConvertedEnvironments(p.environments) != Some(map[])
  {
    var k :| k in p.environments.value;
    assert k in ConvertedEnvironments(p.environments).value;
  }

  lemma UpdateCarries(parse: ParseFloat, p: FeatureParameters)
    requires UpdateBody(parse, p).Success?
    ensures Carries(parse, p, UpdateBody(parse, p).value)
  {
    if p.rules.Some? {
      RequestCarriesRules(parse, p.rules.value, Updating(parse, p).value.(id := "", valueType := ""));
    }
    if p.environments.Some? && p.environments != Some(map[]) {
      EnvironmentsSent(p);
    }
  }

  lemma CreateCarries(parse: ParseFloat, id: string, p: FeatureParameters, ip: FeatureInitParameters)
    requires CreateBody(parse, id, p, ip).Success?
    ensures Carries(parse, Merged(p, ip), CreateBody(parse, id, p, ip).value)
    ensures Carries(parse, p, CreateBody(parse, id, p, ip).value)
  {
    var m := Merged(p, ip);
    if m.rules.Some? {
      RequestCarriesRules(parse, m.rules.value, Creating(parse, id, p, ip).value);
    }
    if m.environments.Some? && m.environments != Some(map[]) {
      EnvironmentsSent(m);
    }
  }

  /** What remains to compare once every carried field is stored. */
  predicate Remains(p: FeatureParameters, f: Feature) {
    && p.valueType == f.valueType
    && (p.defaultValue == "" ==> f.defaultValue == "")
    && (p.tags == Some([]) ==> f.tags == [])
    && RulesSettle(p.rules)
  }

  lemma StoredEnvironmentsMatch(p: FeatureParameters, b: FeatureBody, f: Feature)
    requires p.environments.Some? && p.environments != Some(map[]) ==>
               b.environments == ConvertedEnvironments(p.environments)
    requires forall k :: k in Toggles(b.environments) ==>
               k in f.environments && f.environments[k] == Toggles(b.environments)[k]
    ensures EnvironmentsMatch(p.environments, f.environments)
  {
    if p.environments.Some? {
      forall k | k in p.environments.value && p.environments.value[k].enabled.Some?
        ensures k in f.environments && f.environments[k] == p.environments.value[k].enabled.value
      {
        assert k in Toggles(b.environments);
      }
    }
  }

  lemma NoTagsMatch(tags: seq<string>)
    ensures TagsMatch(Some([]), tags) <==> tags == []
  {
    assert |multiset(tags)| == |tags|;
  }

  /** The heart of convergence: stored as sent, a spec compares as up to date exactly when nothing remains. */
  lemma StoredSpecMatches(parse: ParseFloat, p: FeatureParameters, b: FeatureBody, f: Feature)
    requires Carries(parse, p, b) && Stores(b, f)
    ensures UpToDate(parse, p, f) <==> Remains(p, f)
  {
    if p.rules.Some? {
      StoredRulesMatch(parse, p.rules.value, b.rules.value, f.rules);
    }
    NoTagsMatch(f.tags);
    StoredEnvironmentsMatch(p, b, f);
  }

  // ---- Convergence of one Update ---------------------------------------------------

  /**
   The guard of convergence, checkable before the call: valueType is compared but never
   updated, an empty default value and an empty list of tags are compared but never sent,
   and every rule must settle.
   */
  predicate Settles(p: FeatureParameters, ext: Feature) {
    && p.valueType == ext.valueType
    && (p.defaultValue == "" ==> ext.defaultValue == "")
    && (p.tags == Some([]) ==> ext.tags == [])
    && RulesSettle(p.rules)
  }

  /** One Update converges, whatever ids and order the server chooses, exactly when the guard holds. */
  lemma UpdateConvergesExactlyWhen(parse: ParseFloat, p: FeatureParameters, f: Feature, f': Feature)
    requires UpdateBody(parse, p).Success? && Patches(UpdateBody(parse, p).value, f, f')
    ensures UpToDate(parse, p, f') <==> Settles(p, f)
  {
    var b := UpdateBody(parse, p).value;
    UpdateCarries(parse, p);
    StoredSpecMatches(parse, p, b, f');
    assert b.valueType == None;
    assert p.defaultValue == "" ==> b.defaultValue == None;
    assert p.tags == Some([]) ==> b.tags == None;
  }

  /** A spec that does not settle stays unsettled after the Update. */
  lemma UnsettledStaysUnsettled(parse: ParseFloat, p: FeatureParameters, f: Feature, f': Feature)
    requires UpdateBody(parse, p).Success? && Patches(UpdateBody(parse, p).value, f, f')
    ensures Settles(p, f') <==> Settles(p, f)
  {
    var b := UpdateBody(parse, p).value;
    assert b.valueType == None;
    assert p.defaultValue == "" ==> b.defaultValue == None;
    assert p.tags == Some([]) ==> b.tags == None;
  }

  // ---- Convergence of one Create ---------------------------------------------------

  /** The guard of a create: both required strings set, no empty list of tags, every rule settles. */
  predicate CreateSettles(p: FeatureParameters) {
    p.valueType != "" && p.defaultValue != "" && p.tags != Some([]) && RulesSettle(p.rules)
  }

  ghost predicate CreateConverges(parse: ParseFloat, p: FeatureParameters, b: FeatureBody) {
    forall f :: Creates(b, f) ==> UpToDate(parse, p, f)
  }

  /** What the create body says of the fields omitempty may drop. */
  lemma CreateBodySends(parse: ParseFloat, id: string, p: FeatureParameters, ip: FeatureInitParameters)
    requires CreateBody(parse, id, p, ip).Success?
    ensures var b := CreateBody(parse, id, p, ip).value;
            && b.id == OmitEmpty(id)
            && b.valueType == OmitEmpty(Merged(p, ip).valueType)
            && b.defaultValue == OmitEmpty(Merged(p, ip).defaultValue)
            && b.tags == NonEmpty(Merged(p, ip).tags)
  {
  }

  lemma SettledCreate(parse: ParseFloat, id: string, p: FeatureParameters, ip: FeatureInitParameters, f: Feature)
    requires CreateBody(parse, id, p, ip).Success? && Creates(CreateBody(parse, id, p, ip).value, f)
    requires CreateSettles(p)
    ensures UpToDate(parse, p, f)
  {
    CreateCarries(parse, id, p, ip);
    CreateBodySends(parse, id, p, ip);
    StoredSpecMatches(parse, p, CreateBody(parse, id, p, ip).value, f);
  }

  /** Without the guard a server that fills in these values stores a feature that is not up to date. */
  lemma UnsettledCreate(parse: ParseFloat, id: string, p: FeatureParameters, ip: FeatureInitParameters, f: Feature)
    requires CreateBody(parse, id, p, ip).Success? && Creates(CreateBody(parse, id, p, ip).value, f)
    requires !CreateSettles(p)
    requires CreateBody(parse, id, p, ip).value.valueType.None? ==> f.valueType == "boolean"
    requires CreateBody(parse, id, p, ip).value.defaultValue.None? ==> f.defaultValue == "true"
    requires CreateBody(parse, id, p, ip).value.tags.None? ==> f.tags == ["a tag"]
    ensures !UpToDate(parse, p, f)
  {
    CreateCarries(parse, id, p, ip);
    CreateBodySends(parse, id, p, ip);
    StoredSpecMatches(parse, p, CreateBody(parse, id, p, ip).value, f);
  }

  /**
   Create, then Observe: whatever the server stores for the merged body is up to date
   for forProvider alone, exactly when the guard holds.
   */
  lemma CreateConvergesExactlyWhen(parse: ParseFloat, id: string, p: FeatureParameters, ip: FeatureInitParameters)
    requires CreateBody(parse, id, p, ip).Success?
    ensures CreateConverges(parse, p, CreateBody(parse, id, p, ip).value) <==> CreateSettles(p)
  {
    var b := CreateBody(parse, id, p, ip).value;
    if CreateSettles(p) {
      forall f | Creates(b, f) ensures UpToDate(parse, p, f) {
        SettledCreate(parse, id, p, ip, f);
      }
    } else {
      var f := Stored(b, "boolean", "true", ["a tag"]);
      UnsettledCreate(parse, id, p, ip, f);
      assert Creates(b, f);
    }
  }

  /** The stored rules are the converted ones, in order, up to the ids and orders the server chooses. */
  predicate KeptAsConverted(parse: ParseFloat, rules: seq<RuleSpec>, got: seq<Rule>) {
    && AllParse(parse, rules) && |got| == |rules|
    && forall i :: 0 <= i < |rules| ==> Keeps(ConvertedRule(parse, rules[i]), got[i])
  }

  lemma CarriedIsKept(parse: ParseFloat, rules: seq<RuleSpec>, sent: seq<RuleBody>, got: seq<Rule>)
    requires CarriesRules(parse, rules, sent) && KeepsAll(sent, got)
    ensures KeptAsConverted(parse, rules, got)
  {
    forall i | 0 <= i < |rules| ensures rules[i] in rules && Keeps(ConvertedRule(parse, rules[i]), got[i]) {
      RuleRoundTrip(ConvertedRule(parse, rules[i]));
      assert Keeps(DecodeRule(sent[i]), got[i]);
    }
  }

  /** Values set only in initProvider are applied at creation: the stored feature has every one that can be sent. */
  lemma InitProviderIsStored(parse: ParseFloat, id: string, p: FeatureParameters, ip: FeatureInitParameters, f: Feature)
    requires CreateBody(parse, id, p, ip).Success? && Creates(CreateBody(parse, id, p, ip).value, f)
    ensures p.valueType == "" && Deref(ip.valueType) != "" ==> Agrees(ip.valueType, f.valueType)
    ensures p.defaultValue == "" && Deref(ip.defaultValue) != "" ==> Agrees(ip.defaultValue, f.defaultValue)
    ensures p.description.None? ==> Agrees(ip.description, f.description)
    ensures p.project.None? ==> Agrees(ip.project, f.project)
    ensures p.archived.None? ==> Agrees(ip.archived, f.archived)
    ensures p.owner.None? ==> Agrees(ip.owner, f.owner)
    ensures p.tags.None? && ip.tags != Some([]) ==> TagsMatch(ip.tags, f.tags)
    ensures p.environments.None? ==> EnvironmentsMatch(ip.environments, f.environments)
    ensures p.rules.None? && ip.rules.Some? ==> KeptAsConverted(parse, ip.rules.value, f.rules)
    ensures p.rules.None? && RulesSettle(ip.rules) ==> RulesMatch(parse, ip.rules, f.rules)
  {
    var b := CreateBody(parse, id, p, ip).value;
    CreateCarries(parse, id, p, ip);
    CreateBodySends(parse, id, p, ip);
    StoredEnvironmentsMatch(Merged(p, ip), b, f);
    if p.rules.None? && ip.rules.Some? {
      StoredRulesMatch(parse, ip.rules.value, b.rules.value, f.rules);
      CarriedIsKept(parse, ip.rules.value, b.rules.value, f.rules);
    }
  }

  // ---- initProvider at creation ------------------------------------------------------

  /** The merge keeps what forProvider sets, takes the rest from initProvider, and is idempotent. */
  lemma MergeKeepsForProvider(p: FeatureParameters, ip: FeatureInitParameters)
    ensures Merged(Merged(p, ip), ip) == Merged(p, ip)
    ensures forall parse: ParseFloat, f ::
      p.valueType != "" && p.defaultValue != "" && UpToDate(parse, Merged(p, ip), f) ==> UpToDate(parse, p, f)
  {
  }

  // ---- Drift is exactly "an Update would change something" ---------------------------

  /** Equal up to the order of sets, a nil or true `enabled`, the description, and an id the user left open. */
  predicate SameRule(compareId: bool, a: Rule, b: Rule) {
    && a.kind == b.kind
    && (compareId ==> a.id == b.id)
    && (a.enabled == Some(false) <==> b.enabled == Some(false))
    && a.condition == b.condition
    && |a.savedGroups| == |b.savedGroups|
    && (forall i :: 0 <= i < |a.savedGroups| ==>
          a.savedGroups[i].mode == b.savedGroups[i].mode
          && multiset(a.savedGroups[i].ids) == multiset(b.savedGroups[i].ids))
    && a.allEnvironments == b.allEnvironments
    && (a.allEnvironments || multiset(a.environments) == multiset(b.environments))
    && a.value == b.value
    && a.coverage == b.coverage
    && a.hashAttribute == b.hashAttribute
    && a.experimentId == b.experimentId
    && multiset(a.variations) == multiset(b.variations)
  }

  predicate SameRules(want: Option<seq<RuleSpec>>, a: seq<Rule>, b: seq<Rule>) {
    if want.None? then a == b
    else
      && |a| == |b| == |want.value|
      && forall i :: 0 <= i < |a| ==> SameRule(want.value[i].id.Some?, a[i], b[i])
  }

  predicate SameFeature(p: FeatureParameters, a: Feature, b: Feature) {
    && a.(tags := [], rules := []) == b.(tags := [], rules := [])
    && multiset(a.tags) == multiset(b.tags)
    && SameRules(p.rules, a.rules, b.rules)
  }

  predicate AllDistinct(rules: Option<seq<RuleSpec>>) {
    rules.Some? ==> forall w :: w in rules.value ==> DistinctIds(Converted(w.variations))
  }

  lemma MatchTwice(parse: ParseFloat, w: RuleSpec, a: Rule, b: Rule)
    requires DistinctIds(Converted(w.variations)) && RuleMatches(parse, w, a)
    ensures RuleMatches(parse, w, b) <==> SameRule(w.id.Some?, a, b)
  {
    DistinctMatchIsEquality(w.variations, a.variations);
    DistinctMatchIsEquality(w.variations, b.variations);
    if SameRule(w.id.Some?, a, b) {
      assert SavedGroupsMatch(w.savedGroups, b.savedGroups) by {
        forall i | 0 <= i < |w.savedGroups|
          ensures w.savedGroups[i].mode == b.savedGroups[i].mode
          ensures multiset(w.savedGroups[i].ids) == multiset(b.savedGroups[i].ids)
        {
          assert a.savedGroups[i].mode == b.savedGroups[i].mode;
        }
      }
    }
    if RuleMatches(parse, w, b) {
      forall i | 0 <= i < |a.savedGroups|
        ensures a.savedGroups[i].mode == b.savedGroups[i].mode
        ensures multiset(a.savedGroups[i].ids) == multiset(b.savedGroups[i].ids)
      {
        assert w.savedGroups[i].mode == a.savedGroups[i].mode;
      }
    }
  }

  lemma RulesMatchTwice(parse: ParseFloat, want: Option<seq<RuleSpec>>, a: seq<Rule>, b: seq<Rule>)
    requires AllDistinct(want) && want.Some?
    requires RulesMatch(parse, want, a)
    ensures RulesMatch(parse, want, b) <==> SameRules(want, a, b)
  {
    if |a| == |b| {
      forall i | 0 <= i < |a|
        ensures RuleMatches(parse, want.value[i], b[i]) <==> SameRule(want.value[i].id.Some?, a[i], b[i])
      {
        assert want.value[i] in want.value;
        assert RuleMatches(parse, want.value[i], a[i]);
        MatchTwice(parse, want.value[i], a[i], b[i]);
      }
    }
  }

  lemma SameRulesSymmetric(want: Option<seq<RuleSpec>>, a: seq<Rule>, b: seq<Rule>)
    requires SameRules(want, a, b)
    ensures SameRules(want, b, a)
  {
    if want.Some? {
      forall i | 0 <= i < |b| ensures SameRule(want.value[i].id.Some?, b[i], a[i]) {
        assert SameRule(want.value[i].id.Some?, a[i], b[i]);
      }
    }
  }

  lemma UpToDateMeansUnchanged(parse: ParseFloat, p: FeatureParameters, f: Feature, f': Feature)
    requires UpdateBody(parse, p).Success? && Patches(UpdateBody(parse, p).value, f, f')
    requires AllDistinct(p.rules) && UpToDate(parse, p, f) && UpToDate(parse, p, f')
    ensures SameFeature(p, f, f')
  {
    if p.rules.Some? {
      RulesMatchTwice(parse, p.rules, f.rules, f'.rules);
    }
    TogglesAlreadySet(p, UpdateBody(parse, p).value, f);
  }

  /** Features that are the same for a spec share its verdict. */
  lemma SameFeatureSameVerdict(parse: ParseFloat, p: FeatureParameters, f: Feature, f': Feature)
    requires AllDistinct(p.rules) && SameFeature(p, f, f') && UpToDate(parse, p, f')
    ensures UpToDate(parse, p, f)
  {
    if p.rules.Some? {
      SameRulesSymmetric(p.rules, f.rules, f'.rules);
      RulesMatchTwice(parse, p.rules, f'.rules, f.rules);
    }
  }

  /**
   Drift is exactly "an Update would change something": when the spec settles and its
   variation ids are distinct, the stored feature is up to date if and only if patching
   it with the update body leaves it the same, up to what the comparison ignores.
   */
  lemma DriftIsExactlyChange(parse: ParseFloat, p: FeatureParameters, f: Feature, f': Feature)
    requires UpdateBody(parse, p).Success? && Patches(UpdateBody(parse, p).value, f, f')
    requires Settles(p, f) && AllDistinct(p.rules)
    ensures UpToDate(parse, p, f) <==> SameFeature(p, f, f')
  {
    UpdateConvergesExactlyWhen(parse, p, f, f');
    if UpToDate(parse, p, f) {
      UpToDateMeansUnchanged(parse, p, f, f');
    }
    if SameFeature(p, f, f') {
      SameFeatureSameVerdict(parse, p, f, f');
    }
  }

  /** A feature that satisfies the spec by itself, given tags and rules that do. */
  function Satisfying(p: FeatureParameters, tags: seq<string>, rules: seq<Rule>): Feature {
    Feature("", Chosen(p.archived, false), Deref(p.description), Deref(p.owner), Deref(p.project),
            p.valueType, p.defaultValue, tags, Toggles(ConvertedEnvironments(p.environments)), rules)
  }

  lemma SatisfyingIsUpToDate(parse: ParseFloat, p: FeatureParameters, tags: seq<string>, rules: seq<Rule>)
    requires TagsMatch(p.tags, tags) && RulesMatch(parse, p.rules, rules)
    ensures UpToDate(parse, p, Satisfying(p, tags, rules))
  {
    if p.environments.Some? {
      StoredEnvironmentsMatch(p, FeatureBody(None, None, None, None, None, None, None, None,
                                             ConvertedEnvironments(p.environments), None), Satisfying(p, tags, rules));
    }
  }

  /** A spec that can be sent has rules some stored list matches, when they settle. */
  lemma SendableIsMatchable(parse: ParseFloat, p: FeatureParameters)
    requires UpdateBody(parse, p).Success? && RulesSettle(p.rules) && p.rules.Some?
    ensures AllMatchable(parse, p.rules.value)
  {
    UpdateCarries(parse, p);
    forall w | w in p.rules.value ensures Matchable(parse, w) {
      var i :| 0 <= i < |p.rules.value| && p.rules.value[i] == w;
      assert Finitely(ConvertedRule(parse, p.rules.value[i]).coverage);
    }
  }

  /** A repeated id lets a rule be up to date that is not the converted one. */
  lemma ForeignRule(parse: ParseFloat, w: RuleSpec) returns (g: Rule)
    requires Matchable(parse, w) && !DistinctIds(Converted(w.variations))
    ensures RuleMatches(parse, w, g) && multiset(Converted(w.variations)) != multiset(g.variations)
  {
    var masked := MaskedDuplicate(w.variations);
    MaskedMatches(parse, w, masked);
    g := ConvertedRule(parse, w).(variations := masked);
  }

  /** A patch puts the converted rule back in its place. */
  lemma PatchRestoresRule(parse: ParseFloat, p: FeatureParameters, f: Feature, f': Feature, i: nat)
    requires UpdateBody(parse, p).Success? && Patches(UpdateBody(parse, p).value, f, f')
    requires p.rules.Some? && i < |p.rules.value| == |f.rules|
    requires multiset(Converted(p.rules.value[i].variations)) != multiset(f.rules[i].variations)
    ensures !SameFeature(p, f, f')
  {
    UpdateCarries(parse, p);
    CarriedIsKept(parse, p.rules.value, UpdateBody(parse, p).value.rules.value, f'.rules);
    assert Keeps(ConvertedRule(parse, p.rules.value[i]), f'.rules[i]);
    assert !SameRule(p.rules.value[i].id.Some?, f.rules[i], f'.rules[i]);
  }

  /** A repeated id lets a feature be up to date that the next patch would change. */
  lemma ForeignVariationIsNoDrift(parse: ParseFloat, p: FeatureParameters) returns (f: Feature, f': Feature)
    requires UpdateBody(parse, p).Success? && RulesSettle(p.rules) && !AllDistinct(p.rules)
    ensures Patches(UpdateBody(parse, p).value, f, f') && Settles(p, f)
    ensures UpToDate(parse, p, f) && !SameFeature(p, f, f')
  {
    var rules := p.rules.value;
    var i :| 0 <= i < |rules| && !DistinctIds(Converted(rules[i].variations));
    SendableIsMatchable(parse, p);
    var foreign := ForeignRule(parse, rules[i]);
    OneReplacedMatches(parse, rules, i, foreign);
    f := Satisfying(p, if p.tags.Some? then p.tags.value else [], ConvertedList(parse, rules)[i := foreign]);
    SatisfyingIsUpToDate(parse, p, f.tags, f.rules);
    f' := PlainPatch(UpdateBody(parse, p).value, f);
    PatchRestoresRule(parse, p, f, f', i);
  }

  /** For a sendable spec whose rules settle, distinct variation ids are exactly what makes drift mean change. */
  lemma DriftMeansChangeExactlyWhen(parse: ParseFloat, p: FeatureParameters)
    requires UpdateBody(parse, p).Success? && RulesSettle(p.rules)
    ensures (forall f, f' :: Patches(UpdateBody(parse, p).value, f, f') && Settles(p, f) ==>
               (UpToDate(parse, p, f) <==> SameFeature(p, f, f')))
            <==> AllDistinct(p.rules)
  {
    if AllDistinct(p.rules) {
      forall f, f' | Patches(UpdateBody(parse, p).value, f, f') && Settles(p, f)
        ensures UpToDate(parse, p, f) <==> SameFeature(p, f, f')
      {
        DriftIsExactlyChange(parse, p, f, f');
      }
    } else {
      var f, f' := ForeignVariationIsNoDrift(parse, p);
    }
  }

  lemma TogglesAlreadySet(p: FeatureParameters, b: FeatureBody, f: Feature)
    requires b.environments == ConvertedEnvironments(p.environments) || b.environments == None
    requires EnvironmentsMatch(p.environments, f.environments)
    ensures f.environments + Toggles(b.environments) == f.environments
  {
    forall k | k in Toggles(b.environments)
      ensures k in f.environments && f.environments[k] == Toggles(b.environments)[k]
    {
      assert k in p.environments.value && p.environments.value[k].enabled.Some?;
    }
  }

  // ---- Frame and non-interference ----------------------------------------------------

  /** Two stored features that agree on every field the spec manages. */
  predicate AgreeOnManaged(p: FeatureParameters, a: Feature, b: Feature) {
    && a.valueType == b.valueType
    && a.defaultValue == b.defaultValue
    && (p.description.Some? ==> a.description == b.description)
    && (p.project.Some? ==> a.project == b.project)
    && (p.archived.Some? ==> a.archived == b.archived)
    && (p.owner.Some? ==> a.owner == b.owner)
    && (p.tags.Some? ==> multiset(a.tags) == multiset(b.tags))
    && (p.environments.Some? ==> forall k :: k in p.environments.value && p.environments.value[k].enabled.Some? ==>
          (k in a.environments <==> k in b.environments)
          && (k in a.environments ==> a.environments[k] == b.environments[k]))
    && (p.rules.Some? ==> a.rules == b.rules)
  }

  lemma ManagedVerdictCarries(parse: ParseFloat, p: FeatureParameters, a: Feature, b: Feature)
    requires AgreeOnManaged(p, a, b) && UpToDate(parse, p, a)
    ensures UpToDate(parse, p, b)
  {
    assert EnvironmentsMatch(p.environments, b.environments);
  }

  /** Unmanaged fields never influence the verdict. */
  lemma UnmanagedNeverDrifts(parse: ParseFloat, p: FeatureParameters, a: Feature, b: Feature)
    requires AgreeOnManaged(p, a, b)
    ensures UpToDate(parse, p, a) <==> UpToDate(parse, p, b)
  {
    if UpToDate(parse, p, a) {
      ManagedVerdictCarries(parse, p, a, b);
    }
    if UpToDate(parse, p, b) {
      ManagedVerdictCarries(parse, p, b, a);
    }
  }

  /** An Update leaves every unset field, every unlisted environment and unmanaged rules untouched. */
  lemma UpdateFrame(parse: ParseFloat, p: FeatureParameters, f: Feature, f': Feature)
    requires UpdateBody(parse, p).Success? && Patches(UpdateBody(parse, p).value, f, f')
    ensures f'.id == f.id && f'.valueType == f.valueType
    ensures p.description.None? ==> f'.description == f.description
    ensures p.project.None? ==> f'.project == f.project
    ensures p.tags.None? ==> f'.tags == f.tags
    ensures p.archived.None? ==> f'.archived == f.archived
    ensures p.owner.None? ==> f'.owner == f.owner
    ensures p.rules.None? ==> f'.rules == f.rules
    ensures forall k ::
      (p.environments.None? || k !in p.environments.value || p.environments.value[k].enabled.None?) ==>
        (k in f'.environments <==> k in f.environments)
        && (k in f.environments ==> f'.environments[k] == f.environments[k])
  {
  }

  // ---- No silent bad spec ------------------------------------------------------------

  /**
   When the update cannot be built or encoded, because a coverage does not parse or is
   no finite number, no stored feature is up to date: the reconcile reaches Update and
   surfaces the error.
   */
  lemma BadSpecIsNeverUpToDate(parse: ParseFloat, p: FeatureParameters, f: Feature)
    requires UpdateBody(parse, p).Failure? && Decoded(f)
    ensures !UpToDate(parse, p, f)
  {
    if UpToDate(parse, p, f) {
      forall i | 0 <= i < |p.rules.value|
        ensures Parses(parse, p.rules.value[i].coverage)
        ensures Finitely(ConvertedRule(parse, p.rules.value[i]).coverage)
      {
        assert f.rules[i] in f.rules;
        assert RuleMatches(parse, p.rules.value[i], f.rules[i]);
      }
      assert false;
    }
  }

  /** The error names the first rule, front to back, whose coverage does not parse. */
  lemma BadCoverageIsReported(parse: ParseFloat, p: FeatureParameters, i: nat)
    requires p.rules.Some? && i < |p.rules.value|
    requires AllParse(parse, p.rules.value[..i]) && !Parses(parse, p.rules.value[i].coverage)
    ensures UpdateBody(parse, p) == Failure(Invalid(InRule(i, CoverageNotDecimal)))
  {
    FirstErrorUnique(parse, p.rules.value, i);
  }

  /** Every spec the CRD admits can be sent: its coverages are decimals between 0 and 1. */
  lemma AdmittedSpecCanBeSent(parse: ParseFloat, round: real -> real, p: FeatureParameters)
    requires IsRounding(round) && ReadsDecimals(parse, round)
    requires p.rules.Some? ==> forall w :: w in p.rules.value && w.coverage.Some? ==> InGrammar(w.coverage.value)
    ensures UpdateBody(parse, p).Success?
  {
    if p.rules.Some? {
      forall w | w in p.rules.value ensures Parses(parse, w.coverage) && Finitely(ConvertedRule(parse, w).coverage) {
        if w.coverage.Some? {
          GrammarParsesIntoUnit(parse, round, w.coverage.value);
        }
      }
      forall r | r in ConvertedList(parse, p.rules.value) ensures Finitely(r.coverage) {
        var i :| 0 <= i < |p.rules.value| && ConvertedList(parse, p.rules.value)[i] == r;
        assert p.rules.value[i] in p.rules.value;
      }
    }
  }

  /** The rule description is sent but never compared: changing it alone is not drift. */
  lemma RuleDescriptionNeverDrifts(parse: ParseFloat, w: RuleSpec, g: Rule, d: Option<string>, e: string)
    ensures RuleMatches(parse, w, g) <==> RuleMatches(parse, w.(description := d), g.(description := e))
  {
  }

  // ---- Late initialization and the verdict ---------------------------------------------

  /** Late initialization fills every open field the server has a value for, and touches nothing else. */
  lemma LateInitFillsOpenFields(p: FeatureParameters, ip: FeatureInitParameters, ext: Feature)
    ensures var (q, changed) := LateInit(p, ip, ext);
            && q.(description := p.description, owner := p.owner, project := p.project) == p
            && (q.description != p.description <==> p.description.None? && ip.description.None?)
            && (q.owner != p.owner <==> p.owner.None? && ip.owner.None? && ext.owner != "")
            && (q.project != p.project <==> p.project.None? && ip.project.None? && ext.project != "")
            && (q != p <==> changed)
            && (q.description != p.description ==> Agrees(q.description, ext.description))
            && (q.owner != p.owner ==> Agrees(q.owner, ext.owner))
            && (q.project != p.project ==> Agrees(q.project, ext.project))
  {
  }

  /** Late initialization keeps the verdict and the guard, and is complete after one pass. */
  lemma LateInitKeepsVerdict(parse: ParseFloat, p: FeatureParameters, ip: FeatureInitParameters, ext: Feature)
    ensures UpToDate(parse, LateInit(p, ip, ext).0, ext) <==> UpToDate(parse, p, ext)
    ensures Settles(LateInit(p, ip, ext).0, ext) <==> Settles(p, ext)
    ensures UpdateBody(parse, LateInit(p, ip, ext).0).Success? <==> UpdateBody(parse, p).Success?
    ensures LateInit(LateInit(p, ip, ext).0, ip, ext) == (LateInit(p, ip, ext).0, false)
  {
  }

  // ---- Meaning, end to end ---------------------------------------------------------------

  /** What the stored feature serves: nothing where it is off, else its rules, else the default value. */
  function FeatureServes(f: Feature, v: Visitor): Option<string> {
    if v.environment !in f.environments || !f.environments[v.environment] then None
    else Some(Served(f.rules, f.defaultValue, v))
  }

  /** What the spec asks to serve in an environment it manages. */
  function FeatureAsks(parse: ParseFloat, p: FeatureParameters, v: Visitor): Option<string>
    requires p.rules.Some? && p.environments.Some?
    requires v.environment in p.environments.value && p.environments.value[v.environment].enabled.Some?
  {
    if p.environments.value[v.environment].enabled == Some(false) then None
    else Some(Asked(parse, p.rules.value, p.defaultValue, v))
  }

  /**
   However the server orders what it keeps, a rule that settles serves every visitor what it
   asks, repeated ids or not.
   */
  lemma KeptRuleServes(parse: ParseFloat, w: RuleSpec, g: Rule, v: Visitor)
    requires Parses(parse, w.coverage) && Finitely(ConvertedRule(parse, w).coverage)
    requires Keeps(ConvertedRule(parse, w), g) && RuleSettles(w)
    ensures Asks(parse, w, v) == Serves(g, v)
  {
    StoredRuleMatches(parse, w, g);
    MatchingRuleReaches(parse, w, g, v);
    var variation := v.assignment(g.experimentId);
    if variation.Some? {
      FirstValueOfConverted(w.variations, variation.value);
      FirstValueOrderFree(Converted(w.variations), g.variations, variation.value);
    }
  }

  /** After one Update of a spec that settles, every visitor of a managed environment is served what the spec asks. */
  lemma UpdateDeliversMeaning(parse: ParseFloat, p: FeatureParameters, f: Feature, f': Feature, v: Visitor)
    requires UpdateBody(parse, p).Success? && Patches(UpdateBody(parse, p).value, f, f')
    requires Settles(p, f) && p.rules.Some? && p.environments.Some?
    requires v.environment in p.environments.value && p.environments.value[v.environment].enabled.Some?
    ensures FeatureServes(f', v) == FeatureAsks(parse, p, v)
  {
    var rules, sent := p.rules.value, UpdateBody(parse, p).value.rules.value;
    UpdateConvergesExactlyWhen(parse, p, f, f');
    UpdateCarries(parse, p);
    CarriedIsKept(parse, rules, sent, f'.rules);
    forall i | 0 <= i < |rules| ensures Asks(parse, rules[i], v) == Serves(f'.rules[i], v) {
      assert rules[i] in rules;
      KeptRuleServes(parse, rules[i], f'.rules[i], v);
    }
    ServedAlike(parse, rules, f'.rules, p.defaultValue, v);
  }
}
