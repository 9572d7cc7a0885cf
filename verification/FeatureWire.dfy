/**
 internal/clients/growthbook/feature.go and feature_rules.go: how a request body is
 encoded, and what the v2 API promises to do with it.

 JSON's omitempty drops an empty string, list or map, and a nil pointer. Only `Rules`
 escapes: it is a pointer to a slice, so an empty list is sent as an empty array.
 */
module FeatureWire {
  import opened Options
  import opened Decimals
  import opened FeatureTypes

  datatype VariationBody = VariationBody(variationId: Option<string>, value: string)

  /** A rule on the wire: a field is absent or holds a value. */
  datatype RuleBody = RuleBody(
    kind: string,
    id: Option<string>,
    description: Option<string>,
    enabled: Option<bool>,
    condition: Option<string>,
    savedGroups: Option<seq<SavedGroup>>,
    allEnvironments: bool,
    environments: Option<seq<string>>,
    value: Option<string>,
    coverage: Option<real>,
    hashAttribute: Option<string>,
    experimentId: Option<string>,
    variations: Option<seq<VariationBody>>)

  /** A create or update body on the wire; an environment without `enabled` is an empty object. */
  datatype FeatureBody = FeatureBody(
    id: Option<string>,
    valueType: Option<string>,
    defaultValue: Option<string>,
    description: Option<string>,
    project: Option<string>,
    tags: Option<seq<string>>,
    archived: Option<bool>,
    owner: Option<string>,
    environments: Option<map<string, Option<bool>>>,
    rules: Option<seq<RuleBody>>)

  function OmitEmpty(s: string): Option<string> {
    if s == "" then None else Some(s)
  }

  function OmitList<T>(s: seq<T>): Option<seq<T>> {
    if s == [] then None else Some(s)
  }

  function Listed<T>(s: Option<seq<T>>): seq<T> {
    if s.Some? then s.value else []
  }

  /** JSON has no NaN and no infinity: encoding one of them is an error. */
  predicate Finitely(coverage: Option<Float>) {
    coverage.Some? ==> coverage.value.Finite?
  }

  function EncodeVariation(v: Variation): VariationBody {
    VariationBody(OmitEmpty(v.variationId), v.value)
  }

  function DecodeVariation(b: VariationBody): Variation {
    Variation(Deref(b.variationId), b.value)
  }

  function EncodeRule(r: Rule): RuleBody
    requires Finitely(r.coverage)
  {
    RuleBody(r.kind, OmitEmpty(r.id), OmitEmpty(r.description), r.enabled, OmitEmpty(r.condition),
             OmitList(r.savedGroups), r.allEnvironments, OmitList(r.environments), OmitEmpty(r.value),
             if r.coverage.None? then None else Some(r.coverage.value.value),
             OmitEmpty(r.hashAttribute), OmitEmpty(r.experimentId),
             OmitList(seq(|r.variations|, i requires 0 <= i < |r.variations| => EncodeVariation(r.variations[i]))))
  }

  function DecodeRule(b: RuleBody): Rule {
    var variations := Listed(b.variations);
    Rule(b.kind, Deref(b.id), Deref(b.description), b.enabled, Deref(b.condition), Listed(b.savedGroups),
         b.allEnvironments, Listed(b.environments), Deref(b.value),
         if b.coverage.None? then None else Some(Finite(b.coverage.value)),
         Deref(b.hashAttribute), Deref(b.experimentId),
         seq(|variations|, i requires 0 <= i < |variations| => DecodeVariation(variations[i])))
  }

  /** A rule survives the wire: an omitted field decodes to the empty value it stood for. */
  lemma RuleRoundTrip(r: Rule)
    requires Finitely(r.coverage)
    ensures DecodeRule(EncodeRule(r)) == r
  {
    assert DecodeRule(EncodeRule(r)).variations == r.variations;
  }

  /** Whether `json.Marshal` accepts the body. */
  predicate Encodable(req: FeatureRequest) {
    req.rules.Some? ==> forall r :: r in req.rules.value ==> Finitely(r.coverage)
  }

  function Encode(req: FeatureRequest): FeatureBody
    requires Encodable(req)
  {
    FeatureBody(
      OmitEmpty(req.id), OmitEmpty(req.valueType), OmitEmpty(req.defaultValue), req.description, req.project,
      NonEmpty(req.tags), req.archived, req.owner,
      if req.environments == Some(map[]) then None else req.environments,
      if req.rules.None? then None
      else Some(seq(|req.rules.value|, i requires 0 <= i < |req.rules.value| => EncodeRule(req.rules.value[i]))))
  }

  // ---- What the API does with a body --------------------------------------------

  /**
   The server keeps a rule it is sent: it assigns a non-empty id to a rule without one,
   may fill in the default `enabled`, and may reorder the environments, the ids of a
   saved group and the variations.
   */
  predicate Keeps(r: Rule, g: Rule) {
    && g.kind == r.kind
    && (if r.id != "" then g.id == r.id else g.id != "")
    && g.description == r.description
    && (g.enabled == Some(false) <==> r.enabled == Some(false))
    && g.condition == r.condition
    && |g.savedGroups| == |r.savedGroups|
    && (forall i :: 0 <= i < |g.savedGroups| ==>
          g.savedGroups[i].mode == r.savedGroups[i].mode
          && multiset(g.savedGroups[i].ids) == multiset(r.savedGroups[i].ids))
    && g.allEnvironments == r.allEnvironments
    && multiset(g.environments) == multiset(r.environments)
    && g.value == r.value
    && g.coverage == r.coverage
    && g.hashAttribute == r.hashAttribute
    && g.experimentId == r.experimentId
    && multiset(g.variations) == multiset(r.variations)
  }

  /**
   The contract leaves the server these choices: an id where none was sent, a default
   `enabled`, and the order of sets.
   */
  lemma ServerMayChoose(r: Rule, id: string, environments: seq<string>, variations: seq<Variation>)
    requires id != "" && multiset(environments) == multiset(r.environments) && multiset(variations) == multiset(r.variations)
    ensures var g := r.(id := if r.id != "" then r.id else id, environments := environments, variations := variations);
            && Keeps(r, g)
            && (r.enabled.None? ==> Keeps(r, g.(enabled := Some(true))))
            && forall i, ids :: 0 <= i < |r.savedGroups| && multiset(ids) == multiset(r.savedGroups[i].ids) ==>
                 Keeps(r, g.(savedGroups := r.savedGroups[i := SavedGroup(r.savedGroups[i].mode, ids)]))
  {
  }

  predicate KeepsAll(rules: seq<RuleBody>, got: seq<Rule>) {
    && |got| == |rules|
    && forall i :: 0 <= i < |got| ==> Keeps(DecodeRule(rules[i]), got[i])
  }

  /** The toggles a body sets. */
  function Toggles(environments: Option<map<string, Option<bool>>>): map<string, bool> {
    if environments.None? then map[]
    else map k | k in environments.value && environments.value[k].Some? :: environments.value[k].value
  }

  /** Every field present in the body is what the server stores. */
  ghost predicate Stores(b: FeatureBody, f: Feature) {
    && Agrees(b.valueType, f.valueType)
    && Agrees(b.defaultValue, f.defaultValue)
    && Agrees(b.description, f.description)
    && Agrees(b.project, f.project)
    && (b.tags.Some? ==> multiset(f.tags) == multiset(b.tags.value))
    && Agrees(b.archived, f.archived)
    && Agrees(b.owner, f.owner)
    && (forall k :: k in Toggles(b.environments) ==>
          k in f.environments && f.environments[k] == Toggles(b.environments)[k])
    && (b.rules.Some? ==> KeepsAll(b.rules.value, f.rules))
  }

  /** A feature decoded from JSON holds no NaN and no infinity. */
  predicate Decoded(f: Feature) {
    forall g :: g in f.rules ==> Finitely(g.coverage)
  }

  /** What a server ever stores: numbers JSON can hold, and an id on every rule. */
  predicate Genuine(f: Feature) {
    Decoded(f) && forall g :: g in f.rules ==> g.id != ""
  }

  /** A create stores what the body holds; the server chooses every absent field. */
  ghost predicate Creates(b: FeatureBody, f: Feature) {
    Stores(b, f) && Agrees(b.id, f.id) && Genuine(f)
  }

  /** An update is a patch: an absent field is left alone, a present rules array replaces the stored one. */
  ghost predicate Patches(b: FeatureBody, f: Feature, f': Feature) {
    && Stores(b, f')
    && f'.id == f.id
    && (b.valueType.None? ==> f'.valueType == f.valueType)
    && (b.defaultValue.None? ==> f'.defaultValue == f.defaultValue)
    && (b.description.None? ==> f'.description == f.description)
    && (b.project.None? ==> f'.project == f.project)
    && (b.tags.None? ==> f'.tags == f.tags)
    && (b.archived.None? ==> f'.archived == f.archived)
    && (b.owner.None? ==> f'.owner == f.owner)
    && f'.environments == f.environments + Toggles(b.environments)
    && (b.rules.None? ==> f'.rules == f.rules)
  }

  // ---- A server that keeps the contract exists ------------------------------------

  /** A server may keep each rule as it is, with an id of its own where none was sent. */
  function AsSent(r: Rule): (g: Rule)
    ensures Keeps(r, g) && g.coverage == r.coverage && g.id != ""
  {
    if r.id == "" then r.(id := "fr_1") else r
  }

  function AllAsSent(sent: seq<RuleBody>): (rules: seq<Rule>)
    ensures KeepsAll(sent, rules)
    ensures forall g :: g in rules ==> Finitely(g.coverage) && g.id != ""
  {
    seq(|sent|, i requires 0 <= i < |sent| => AsSent(DecodeRule(sent[i])))
  }

  /** A feature a server may store for a create body, with these choices for the absent fields. */
  function Stored(b: FeatureBody, valueType: string, defaultValue: string, tags: seq<string>): (f: Feature)
    ensures Creates(b, f)
    ensures b.valueType.None? ==> f.valueType == valueType
    ensures b.defaultValue.None? ==> f.defaultValue == defaultValue
    ensures b.tags.None? ==> f.tags == tags
  {
    var rules := AllAsSent(Listed(b.rules));
    var f := Feature(Deref(b.id), b.archived == Some(true), Deref(b.description), Deref(b.owner), Deref(b.project),
            Chosen(b.valueType, valueType), Chosen(b.defaultValue, defaultValue), Chosen(b.tags, tags),
            Toggles(b.environments), rules);
    assert b.rules.Some? ==> KeepsAll(b.rules.value, f.rules);
    assert Stores(b, f);
    f
  }

  /** A patch that keeps every rule as sent. */
  function PlainPatch(b: FeatureBody, f: Feature): (f': Feature)
    ensures Patches(b, f, f')
  {
    var g := Stored(b, f.valueType, f.defaultValue, f.tags);
    var f' := g.(id := f.id, archived := Chosen(b.archived, f.archived), description := Chosen(b.description, f.description),
                 owner := Chosen(b.owner, f.owner), project := Chosen(b.project, f.project),
                 environments := f.environments + Toggles(b.environments),
                 rules := if b.rules.Some? then g.rules else f.rules);
    assert Stores(b, f');
    f'
  }
}
