/** The desired side (v1alpha1) and the API side (growthbook) of a Feature. */
module FeatureTypes {
  import opened Options
  import opened Decimals

  // ---- The spec the user writes -------------------------------------------------

  datatype SavedGroupSpec = SavedGroupSpec(mode: string, ids: seq<string>)

  datatype VariationSpec = VariationSpec(variationId: string, value: string)

  /** One desired rule. Its lists are only ever read by length and position, so nil and empty are one. */
  datatype RuleSpec = RuleSpec(
    kind: string,
    id: Option<string>,
    description: Option<string>,
    enabled: Option<bool>,
    condition: Option<string>,
    savedGroups: seq<SavedGroupSpec>,
    allEnvironments: Option<bool>,
    environments: seq<string>,
    value: Option<string>,
    coverage: Option<string>,
    hashAttribute: Option<string>,
    experimentId: Option<string>,
    variations: seq<VariationSpec>)

  datatype EnvironmentSpec = EnvironmentSpec(enabled: Option<bool>)

  datatype FeatureParameters = FeatureParameters(
    valueType: string,
    defaultValue: string,
    description: Option<string>,
    project: Option<string>,
    tags: Option<seq<string>>,
    archived: Option<bool>,
    owner: Option<string>,
    environments: Option<map<string, EnvironmentSpec>>,
    rules: Option<seq<RuleSpec>>)

  datatype FeatureInitParameters = FeatureInitParameters(
    valueType: Option<string>,
    defaultValue: Option<string>,
    description: Option<string>,
    project: Option<string>,
    tags: Option<seq<string>>,
    archived: Option<bool>,
    owner: Option<string>,
    environments: Option<map<string, EnvironmentSpec>>,
    rules: Option<seq<RuleSpec>>)

  // ---- The objects of the API ---------------------------------------------------

  datatype SavedGroup = SavedGroup(mode: string, ids: seq<string>)

  datatype Variation = Variation(variationId: string, value: string)

  datatype Rule = Rule(
    kind: string,
    id: string,
    description: string,
    enabled: Option<bool>,
    condition: string,
    savedGroups: seq<SavedGroup>,
    allEnvironments: bool,
    environments: seq<string>,
    value: string,
    coverage: Option<Float>,
    hashAttribute: string,
    experimentId: string,
    variations: seq<Variation>)

  /** A feature as the API returns it; `environments` maps an id to its enabled flag. */
  datatype Feature = Feature(
    id: string,
    archived: bool,
    description: string,
    owner: string,
    project: string,
    valueType: string,
    defaultValue: string,
    tags: seq<string>,
    environments: map<string, bool>,
    rules: seq<Rule>)

  /** The body of a create or an update before JSON encoding. */
  datatype FeatureRequest = FeatureRequest(
    id: string,
    valueType: string,
    defaultValue: string,
    description: Option<string>,
    project: Option<string>,
    tags: Option<seq<string>>,
    archived: Option<bool>,
    owner: Option<string>,
    environments: Option<map<string, Option<bool>>>,
    rules: Option<seq<Rule>>)

  /** Why a request body cannot be built: a coverage that is not a decimal, by rule index. */
  datatype RequestError = CoverageNotDecimal | InRule(index: nat, cause: RequestError)
}
