/**
 What the bodies of rules_convert.go and convert.go say, and what the server then stores,
 field by field in terms of the spec as the user wrote it. This covers the fields no
 verdict looks at: the description of a rule, the environments beside allEnvironments, and
 an `enabled` left unset.
 */
module FeatureBodies {
  import opened Options
  import opened Decimals
  import opened FeatureTypes
  import opened FeatureWire
  import opened FeatureConvert
  import opened FeatureDrift
  import opened RuleConvert
  import opened RuleDrift

  // ---- One rule ---------------------------------------------------------------------

  /** A string on the wire: as the user set it, but an empty one is left out. */
  predicate SaysString(want: Option<string>, sent: Option<string>) {
    sent == if want == Some("") then None else want
  }

  predicate SaysGroups(want: seq<SavedGroupSpec>, sent: Option<seq<SavedGroup>>) {
    if want == [] then sent == None
    else
      && sent.Some? && |sent.value| == |want|
      && forall i :: 0 <= i < |want| ==> sent.value[i].mode == want[i].mode && sent.value[i].ids == want[i].ids
  }

  predicate SaysVariations(want: seq<VariationSpec>, sent: Option<seq<VariationBody>>) {
    if want == [] then sent == None
    else
      && sent.Some? && |sent.value| == |want|
      && forall i :: 0 <= i < |want| ==>
           SaysString(Some(want[i].variationId), sent.value[i].variationId) && sent.value[i].value == want[i].value
  }

  predicate SaysCoverage(parse: ParseFloat, want: Option<string>, sent: Option<real>) {
    if want.None? then sent == None else sent.Some? && parse(want.value) == Some(Finite(sent.value))
  }

  /** The rule on the wire says of every field what the user wrote. */
  predicate SaysRule(parse: ParseFloat, w: RuleSpec, b: RuleBody) {
    && b.kind == w.kind
    && SaysString(w.id, b.id)
    && SaysString(w.description, b.description)
    && b.enabled == w.enabled
    && SaysString(w.condition, b.condition)
    && SaysGroups(w.savedGroups, b.savedGroups)
    && b.allEnvironments == (w.allEnvironments == Some(true))
    && b.environments == (if w.environments == [] then None else Some(w.environments))
    && SaysString(w.value, b.value)
    && SaysCoverage(parse, w.coverage, b.coverage)
    && SaysString(w.hashAttribute, b.hashAttribute)
    && SaysString(w.experimentId, b.experimentId)
    && SaysVariations(w.variations, b.variations)
  }

  lemma EncodedRuleSays(parse: ParseFloat, w: RuleSpec)
    requires Parses(parse, w.coverage) && Finitely(ConvertedRule(parse, w).coverage)
    ensures SaysRule(parse, w, EncodeRule(ConvertedRule(parse, w)))
  {
  }

  /** A stored string: what the user set, and empty where nothing was. */
  predicate IsString(want: Option<string>, got: string) {
    got == if want.Some? then want.value else ""
  }

  /** The stored rule holds in every field what the user wrote, up to an id of the server and the order of sets. */
  predicate HoldsRule(parse: ParseFloat, w: RuleSpec, g: Rule) {
    && g.kind == w.kind
    && (if w.id.Some? && w.id != Some("") then g.id == w.id.value else g.id != "")
    && IsString(w.description, g.description)
    && (g.enabled == Some(false) <==> w.enabled == Some(false))
    && IsString(w.condition, g.condition)
    && |g.savedGroups| == |w.savedGroups|
    && (forall i :: 0 <= i < |w.savedGroups| ==>
          g.savedGroups[i].mode == w.savedGroups[i].mode
          && multiset(g.savedGroups[i].ids) == multiset(w.savedGroups[i].ids))
    && (g.allEnvironments <==> w.allEnvironments == Some(true))
    && multiset(g.environments) == multiset(w.environments)
    && IsString(w.value, g.value)
    && (if w.coverage.None? then g.coverage.None? else g.coverage == parse(w.coverage.value))
    && IsString(w.hashAttribute, g.hashAttribute)
    && IsString(w.experimentId, g.experimentId)
    && multiset(g.variations) == multiset(Converted(w.variations))
  }

  lemma KeptRuleHolds(parse: ParseFloat, w: RuleSpec, g: Rule)
    requires Parses(parse, w.coverage) && Keeps(ConvertedRule(parse, w), g)
    ensures HoldsRule(parse, w, g)
  {
  }

  // ---- Whole bodies -----------------------------------------------------------------

  predicate SaysRules(parse: ParseFloat, want: Option<seq<RuleSpec>>, sent: Option<seq<RuleBody>>) {
    if want.None? then sent == None
    else
      && sent.Some? && |sent.value| == |want.value|
      && forall i :: 0 <= i < |want.value| ==> SaysRule(parse, want.value[i], sent.value[i])
  }

  /** Every listed environment is sent, with its toggle or as an empty object. */
  predicate SaysEnvironments(want: Option<map<string, EnvironmentSpec>>, sent: Option<map<string, Option<bool>>>) {
    if want.None? || want.value == map[] then sent == None
    else sent.Some? && sent.value.Keys == want.value.Keys && forall k :: k in want.value ==> sent.value[k] == want.value[k].enabled
  }

  /**
   The mutable fields of a body say what this spec asks; empty strings, lists and maps are
   left out, an empty list of rules is not.
   */
  predicate Says(parse: ParseFloat, p: FeatureParameters, b: FeatureBody) {
    && b.defaultValue == (if p.defaultValue == "" then None else Some(p.defaultValue))
    && b.description == p.description
    && b.project == p.project
    && b.tags == (if p.tags == Some([]) then None else p.tags)
    && b.archived == p.archived
    && b.owner == p.owner
    && SaysEnvironments(p.environments, b.environments)
    && SaysRules(parse, p.rules, b.rules)
  }

  lemma EncodedSays(parse: ParseFloat, p: FeatureParameters, req: FeatureRequest)
    requires Updating(parse, p).Success? && Encodable(req)
    requires req.(id := "", valueType := "") == Updating(parse, p).value
    ensures Says(parse, p, Encode(req))
  {
    if p.rules.Some? {
      forall i | 0 <= i < |p.rules.value| ensures SaysRule(parse, p.rules.value[i], Encode(req).rules.value[i]) {
        assert p.rules.value[i] in p.rules.value && req.rules.value[i] in req.rules.value;
        EncodedRuleSays(parse, p.rules.value[i]);
      }
    }
    if p.environments.Some? && p.environments.value != map[] {
      EnvironmentsSent(p);
    }
  }

  /** The body of an update says what forProvider asks and nothing else: no id and no valueType. */
  lemma UpdateBodySays(parse: ParseFloat, p: FeatureParameters)
    requires UpdateBody(parse, p).Success?
    ensures var b := UpdateBody(parse, p).value;
            Says(parse, p, b) && b.id == None && b.valueType == None
  {
    EncodedSays(parse, p, Updating(parse, p).value.(id := "", valueType := ""));
  }

  /** In every field m has what forProvider sets, and where it sets nothing what initProvider does. */
  predicate TakesFirst(p: FeatureParameters, ip: FeatureInitParameters, m: FeatureParameters) {
    && m.valueType == (if p.valueType != "" || ip.valueType.None? then p.valueType else ip.valueType.value)
    && m.defaultValue == (if p.defaultValue != "" || ip.defaultValue.None? then p.defaultValue else ip.defaultValue.value)
    && m.description == (if p.description.Some? then p.description else ip.description)
    && m.project == (if p.project.Some? then p.project else ip.project)
    && m.tags == (if p.tags.Some? then p.tags else ip.tags)
    && m.archived == (if p.archived.Some? then p.archived else ip.archived)
    && m.owner == (if p.owner.Some? then p.owner else ip.owner)
    && m.environments == (if p.environments.Some? then p.environments else ip.environments)
    && m.rules == (if p.rules.Some? then p.rules else ip.rules)
  }

  /** The body of a create says what the two halves of the spec ask together, with the id and the valueType. */
  lemma CreateBodySays(parse: ParseFloat, id: string, p: FeatureParameters, ip: FeatureInitParameters, m: FeatureParameters)
    requires CreateBody(parse, id, p, ip).Success? && TakesFirst(p, ip, m)
    ensures var b := CreateBody(parse, id, p, ip).value;
            && Says(parse, m, b)
            && b.id == (if id == "" then None else Some(id))
            && b.valueType == (if m.valueType == "" then None else Some(m.valueType))
  {
    assert m == Merged(p, ip);
    EncodedSays(parse, m, Creating(parse, id, p, ip).value);
  }

  // ---- What is stored -----------------------------------------------------------------

  /** The stored rules hold what the desired ones say, one by one and in order. */
  predicate HoldsRules(parse: ParseFloat, want: seq<RuleSpec>, got: seq<Rule>) {
    |got| == |want| && forall i :: 0 <= i < |want| ==> HoldsRule(parse, want[i], got[i])
  }

  lemma KeptRulesHold(parse: ParseFloat, want: seq<RuleSpec>, sent: seq<RuleBody>, got: seq<Rule>)
    requires CarriesRules(parse, want, sent) && KeepsAll(sent, got)
    ensures HoldsRules(parse, want, got)
  {
    CarriedIsKept(parse, want, sent, got);
    forall i | 0 <= i < |want| ensures HoldsRule(parse, want[i], got[i]) {
      assert want[i] in want;
      KeptRuleHolds(parse, want[i], got[i]);
    }
  }

  /** After an update the stored rules hold, field by field, what the user wrote. */
  lemma UpdateStoresRules(parse: ParseFloat, p: FeatureParameters, f: Feature, f': Feature)
    requires UpdateBody(parse, p).Success? && Patches(UpdateBody(parse, p).value, f, f') && p.rules.Some?
    ensures HoldsRules(parse, p.rules.value, f'.rules)
  {
    UpdateCarries(parse, p);
    KeptRulesHold(parse, p.rules.value, UpdateBody(parse, p).value.rules.value, f'.rules);
  }

  /** After a create too, the rules of initProvider where forProvider has none. */
  lemma CreateStoresRules(parse: ParseFloat, id: string, p: FeatureParameters, ip: FeatureInitParameters, f: Feature)
    requires CreateBody(parse, id, p, ip).Success? && Creates(CreateBody(parse, id, p, ip).value, f)
    ensures p.rules.Some? ==> HoldsRules(parse, p.rules.value, f.rules)
    ensures p.rules.None? && ip.rules.Some? ==> HoldsRules(parse, ip.rules.value, f.rules)
  {
    var m := Merged(p, ip);
    CreateCarries(parse, id, p, ip);
    if m.rules.Some? {
      KeptRulesHold(parse, m.rules.value, CreateBody(parse, id, p, ip).value.rules.value, f.rules);
    }
  }

  // ---- What can be sent -----------------------------------------------------------------

  /** A coverage JSON can hold: unset, or a string that reads as a finite number. */
  predicate IsSendable(parse: ParseFloat, coverage: Option<string>) {
    coverage.Some? ==> parse(coverage.value).Some? && parse(coverage.value).value.Finite?
  }

  /** An update is sent exactly when every coverage is unset or a finite number. */
  lemma SendableExactlyWhen(parse: ParseFloat, p: FeatureParameters)
    ensures UpdateBody(parse, p).Success?
            <==> (p.rules.Some? ==> forall w :: w in p.rules.value ==> IsSendable(parse, w.coverage))
  {
    if p.rules.Some? && AllParse(parse, p.rules.value) {
      var rules, out := p.rules.value, ConvertedList(parse, p.rules.value);
      forall w | w in rules ensures ConvertedRule(parse, w) in out {
        var i :| 0 <= i < |rules| && rules[i] == w;
        assert out[i] == ConvertedRule(parse, w);
      }
      forall r | r in out ensures exists w :: w in rules && r == ConvertedRule(parse, w) {
        var i :| 0 <= i < |out| && out[i] == r;
        assert rules[i] in rules;
      }
    }
  }
}
