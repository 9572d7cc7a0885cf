# provider-growthbook: a model of the reconcile engine

The provider turns Kubernetes resources into GrowthBook objects. For each resource it
compares what the user wants (`forProvider`, and at creation `initProvider`) with what
GrowthBook stores, and joins the two with Observe, Create, Update and Delete. This project
models that engine for Features, Environments, Projects and SDK connections and proves
what it keeps over every spec, every stored object, every run and every server that
honours the API's patch contract.

## Main results

- **Meaning.** Rules reported as up to date serve every visitor what the desired rules ask
  for under first-match evaluation, unless a repeated variation id decides for that
  visitor. For every rule and every rule list, exactly when a repeated id matters is proved.
- **Convergence.** One Update converges if and only if a guard on the spec and the stored
  feature holds (`FeatureDrift.Settles`). Every calm run is decided by its first reconcile
  of a stored feature: from then on it is at rest for ever, or every reconcile writes or
  fails. Which of the two is told before that reconcile by the same guard, on the spec as
  it will be written back (`FeatureRest.StoredRunIsDecided`).
- **Drift is exactly change.** A feature is up to date if and only if patching it with its
  own update body would change nothing the comparison looks at; for which specs this holds
  of every feature and patch is proved as well.
- **Authority of an empty list.** Exactly which specs lose it when they are written back,
  and exactly when a reconcile can write them back.
- **Nothing is lost or hidden.** Every body says, field by field, what the user wrote, and
  against every fault a failed call is reported and never followed by a write it does not
  warrant.
- **Create-only.** Over every run, with faults and edits by others, a field set only in
  `initProvider` never enters `forProvider`, an update body or the verdict.
- **Delete.** The archive-then-delete protocol, with another actor between any two calls.
- **Identity.** Projects created, names recorded and replies lost balance at every moment.

## Layout

| file | models |
|---|---|
| `Options.dfy`, `StringSets.dfy`, `Decimals.dfy`, `ApiErrors.dfy` | Go pointers, lists compared as sets, decimal strings, error classification |
| `FeatureTypes.dfy`, `RuleDrift.dfy`, `RuleConvert.dfy`, `RuleMeaning.dfy` | desired and stored rules: comparison, conversion, evaluation |
| `FeatureWire.dfy`, `FeatureConvert.dfy`, `FeatureDrift.dfy` | JSON omitempty and the patch contract; convert.go; convergence, exactness, frame |
| `FeatureServer.dfy`, `FeatureController.dfy` | client and controller steps of a Feature |
| `FeatureBodies.dfy`, `FeatureReports.dfy` | bodies and stored rules field by field; what each step reports under faults |
| `FeatureRuns.dfy`, `FeatureRest.dfy` | whole runs of a Feature, and how they end |
| `EnvironmentConvert.dfy`, `EnvironmentController.dfy` | Environments |
| `ProjectConvert.dfy`, `ProjectController.dfy` | Projects |
| `SdkConnection.dfy` | SDK connections |

Loops and state changes of the Go code are methods, each proved equal to a function or
predicate on values; the theorems are lemmas about those. A class field holds what a Go
struct field holds; spec structs that Go passes by value are datatypes.

## Assumptions

- **Server.** GrowthBook's own code is not part of this model. A server is any behaviour
  that keeps this contract: a field present in a body is stored; a field absent from an
  update is left alone; a field absent from a create is the server's choice; a present
  rules array replaces the stored one. It assigns a non-empty id to a rule sent without
  one, may fill in a default `enabled`, and may reorder tags, environments, group ids and
  variations. It only ever stores numbers JSON can hold and rules with an id. An
  environment sent without `enabled` changes nothing. Every rule field that
  is sent is kept, also one that the rule's type does not use.
- **Driver.** The crossplane reconciler is not part of this model. It is taken to observe,
  then to create or update at most once, and to persist a late-initialized spec. That
  write goes through the JSON tags of the CRD types, so the next reconcile may find an
  empty list unset; the run theorems cover both outcomes.
- **Numbers.** `strconv.ParseFloat` is any function that reads the CRD's decimal grammar as
  the exact value followed by a monotone rounding that fixes 0 and 1, as the roundings of
  section 4.3 of IEEE 754-2019 do. Nothing is assumed about other strings.
- **Oracles.** Targeting conditions, group membership, hashing and experiment assignment
  are arbitrary functions of the visitor.

## Where the code and its documentation differ

- `apis/sdk/v1alpha1/sdkconnection_types.go:47-48` says an empty list of projects clears the scoping. The
  request omits it, so it never does, and drift is reported for ever
  (`SdkConnection.EmptyProjectsNeverCleared`). The same holds for explicitly empty tags of
  a Feature (`apis/feature/v1alpha1/feature_types.go:72-73`) and projects of an Environment: they are the guards
  of the convergence theorems.
- `internal/controller/feature/convert.go:26-29` says initProvider is only consulted at
  creation, and the repository's `README.md:69-72` that drift in such fields is never out of date. For
  `defaultValue` the verdict still compares the empty forProvider string, so such a spec
  drifts for ever (`FeatureRest.InitDefaultValueDriftsForever`). The other required string,
  `valueType`, is an enumeration in the CRD and cannot be empty.
- `apis/feature/v1alpha1/feature_types.go:91-96` says a non-nil rule list, also an empty one, is
  authoritative. The same lines give it omitempty, so a spec with `rules: []` loses its rules, and
  with them the authority, when late initialization writes it back
  (`FeatureRuns.WriteBackKeepsVerdictExactlyWhen`). That can happen at the first look at the
  stored feature whenever the description is unset in both halves of the spec, because
  late initialization always fills it (`FeatureRuns.ReconcileDropsEmptyRulesExactlyWhen`),
  and never once no field is open (`FeatureRuns.SpecChangesOnlyWithOpenFields`).
- `internal/controller/feature/rules_drift.go:129-130` compares variations by id. A repeated id lets a foreign
  variation pass (`RuleMeaning.RepeatedVariationIdHidesDrift`), and exactly when this
  changes what a visitor is served is `RuleMeaning.MeaningExactlyWhen`.
- `internal/controller/feature/rules_drift.go:26-30` says a changed field on any rule counts
  as drift. A rule description is sent but never compared
  (`FeatureDrift.RuleDescriptionNeverDrifts`).

## Model

| member | source | states |
|---|---|---|
| `RuleMeaning.UpToDateRulesServeTheSame` | apis/feature/v1alpha1/feature_rules_types.go:40-42 | stored rules reported as up to date serve every visitor, in every environment and for every condition, group, hash and assignment oracle, what first-match evaluation of the desired rules asks for, unless an experiment rule with a repeated variation id decides for that visitor |
| `RuleMeaning.MeaningExactlyWhen` | internal/controller/feature/rules_drift.go:31-146 | for every desired list and fallback, the verdict guarantees every visitor what the list asks exactly when no stored list can match it, or no visitor with an assignment comes, past the earlier rules, to a rule with a repeated variation id |
| `RuleMeaning.RuleMeaningExactlyWhen` | internal/controller/feature/rules_drift.go:48-146 | for every desired rule, an up-to-date verdict guarantees its meaning exactly when it is no experiment rule, its variation ids are distinct, it can reach nobody, or it can never be up to date |
| `RuleMeaning.MatchableExactlyWhen` | internal/controller/feature/rules_drift.go:48-146 | some stored rule is up to date with a desired one exactly when its coverage is unset or a number and no id has two values |
| `RuleMeaning.ReachableExactlyWhen` | apis/feature/v1alpha1/feature_rules_types.go:18-81 | some visitor is reached by a rule exactly when it is on, names an environment, and its saved groups do not contradict each other |
| `RuleMeaning.RepeatedVariationIdHidesDrift` | internal/controller/feature/rules_drift.go:131-146 | for every desired list that can match: whenever a visitor comes to a rule with a repeated variation id, some stored list is reported as up to date and serves a visitor another value |
| `RuleMeaning.MatchingRuleServes` | internal/controller/feature/rules_drift.go:48-64 | one matching rule serves a visitor the asked value, unless a repeated variation id decides |
| `RuleMeaning.MatchingRuleReaches` | internal/controller/feature/rules_drift.go:48-78 | one matching rule reaches exactly the visitors the desired rule targets, whatever the order of environments and group ids |
| `RuleMeaning.FirstValueOrderFree` | internal/controller/feature/rules_drift.go:129-130 | when no id has two values, the value of a variation does not depend on the order of the list |
| `RuleMeaning.UnsetEnabledIsOn` | internal/controller/feature/rules_convert.go:129-133 | an unset enabled counts as on, for the comparison on either side and for what is served; an explicit false serves nobody |
| `RuleMeaning.UnsetAllEnvironmentsIsNo` | internal/controller/feature/rules_convert.go:125-127 | an unset allEnvironments is converted, compared and evaluated like an explicit false, and only listed environments are reached |
| `RuleMeaning.AllEnvironmentsIsEverywhere` | internal/controller/feature/rules_drift.go:66-78 | with allEnvironments set the environments are neither compared nor looked at, and every environment is reached |
| `RuleMeaning.ServedByType` | apis/feature/v1alpha1/feature_rules_types.go:86-110 | what a reached visitor is served by a force, a rollout and an experiment rule |
| `RuleMeaning.CoverageIsAShare` | apis/feature/v1alpha1/feature_rules_types.go:91-97 | coverage 0 serves nobody, coverage 1 everybody, and a larger coverage no fewer |
| `RuleMeaning.ConditionDecides` | apis/feature/v1alpha1/feature_rules_types.go:66-69 | a visitor who does not meet the condition is served nothing, one who does is served as without it |
| `RuleMeaning.FirstMatchWins` | apis/feature/v1alpha1/feature_rules_types.go:40-41 | the first rule in list order that serves the visitor decides |
| `RuleMeaning.NoMatchServesFallback` | apis/feature/v1alpha1/feature_rules_types.go:40-41 | without such a rule the fallback is served |
| `RuleDrift.DistinctMatchIsEquality` | internal/controller/feature/rules_drift.go:131-146 | with distinct desired ids the length test and the lookups decide equality of the two lists as multisets and of the two id-to-value maps, and force the observed ids to be distinct |
| `RuleDrift.MatchSoundExactlyWhen` | internal/controller/feature/rules_drift.go:131-146 | only permutations of the desired list are ever up to date exactly when the desired ids are distinct or one id has two values |
| `RuleDrift.ConsistentMatch` | internal/controller/feature/rules_drift.go:131-146 | a stored permutation is up to date exactly when no id has two values |
| `RuleDrift.MaskedDuplicate` | internal/controller/feature/rules_drift.go:131-146 | a repeated id lets a foreign variation pass the comparison |
| `FeatureDrift.StoredRuleMatches` | internal/controller/feature/rules_convert.go:52-77 | converter and comparator agree: however the server keeps a converted rule, it compares as up to date exactly when the rule has no explicitly empty id and no id with two values |
| `FeatureDrift.StoredSpecMatches` | internal/controller/feature/convert.go:168-213 | stored as sent, a whole spec compares as up to date exactly when the fields omitempty dropped agree by themselves and every rule settles |
| `FeatureDrift.UpdateConvergesExactlyWhen` | internal/controller/feature/feature.go:222-236 | one Update reaches an up-to-date feature, whatever the server chooses, exactly when valueType agrees, an empty default value and an empty tag list face empty stored ones, and every rule settles |
| `FeatureDrift.UnsettledStaysUnsettled` | internal/controller/feature/feature.go:222-236 | an Update never changes whether that guard holds |
| `FeatureDrift.CreateConvergesExactlyWhen` | internal/controller/feature/convert.go:30-39 | whatever the server stores for the merged create body is up to date for forProvider alone, exactly when both required strings are set, tags are not explicitly empty and every rule settles |
| `FeatureDrift.InitProviderIsStored` | internal/controller/feature/convert.go:26-39 | values set only in initProvider are applied at creation: the stored feature has every one that can be sent, the rules one by one and in order |
| `FeatureBodies.UpdateBodySays` | internal/controller/feature/convert.go:87-116 | an update body says of every field, rule descriptions, unset flags and overridden environments included, what forProvider asks, leaves out what omitempty drops, and has no id and no valueType |
| `FeatureBodies.CreateBodySays` | internal/controller/feature/convert.go:30-39 | a create body says of every field what forProvider, and where it is silent initProvider, asks, with the id and the valueType |
| `FeatureBodies.EncodedRuleSays` | internal/controller/feature/rules_convert.go:52-77 | one rule on the wire, field by field in terms of the desired rule |
| `FeatureBodies.UpdateStoresRules` | internal/controller/feature/rules_convert.go:52-77 | after an update every stored rule holds, field by field, what the user wrote, the description included |
| `FeatureBodies.CreateStoresRules` | internal/controller/feature/rules_convert.go:52-77 | after a create too, with the rules of initProvider where forProvider has none |
| `FeatureBodies.SendableExactlyWhen` | internal/controller/feature/rules_convert.go:68-74 | an update is sent exactly when every coverage is unset or reads as a finite number |
| `FeatureDrift.DriftIsExactlyChange` | internal/controller/feature/convert.go:168-213 | when the guard holds and variation ids are distinct, a feature is up to date if and only if patching it with the update body leaves it the same up to what the comparison ignores |
| `FeatureDrift.DriftMeansChangeExactlyWhen` | internal/controller/feature/rules_drift.go:131-146 | over all stored features and patches, that equivalence holds for a spec exactly when its variation ids are distinct |
| `FeatureDrift.UnmanagedNeverDrifts` | internal/controller/feature/convert.go:164-213 | two features that agree on the managed fields get the same verdict |
| `FeatureDrift.UpdateFrame` | internal/controller/feature/convert.go:104-116 | an Update leaves id, valueType, every unset field, every unlisted environment and unmanaged rules untouched |
| `FeatureDrift.BadSpecIsNeverUpToDate` | internal/controller/feature/rules_drift.go:98-110 | when a coverage does not parse or is no finite number, so that no update can be sent, no stored feature is up to date |
| `FeatureDrift.BadCoverageIsReported` | internal/controller/feature/rules_convert.go:37-44 | the error names the first rule whose coverage does not parse |
| `FeatureDrift.AdmittedSpecCanBeSent` | apis/feature/v1alpha1/feature_rules_types.go:89-97 | every spec the CRD pattern admits yields an update body |
| `FeatureDrift.RuleDescriptionNeverDrifts` | internal/controller/feature/rules_drift.go:48-64 | a rule description is never compared |
| `FeatureDrift.LateInitKeepsVerdict` | internal/controller/feature/convert.go:143-162 | late initialization changes neither the verdict nor the guard and is complete after one pass |
| `FeatureDrift.LateInitFillsOpenFields` | internal/controller/feature/convert.go:143-162 | late initialization fills every open field the server has a value for, with that value, and touches nothing else |
| `FeatureRuns.BadSpecSurfaces` | internal/controller/feature/feature.go:222-228 | a spec whose update cannot be built or encoded makes every reconcile of the found feature surface that error and send nothing |
| `FeatureReports.LookReports` | internal/controller/feature/feature.go:182-200 | against every fault: an error of the look is reported unless it says the feature is missing, a missing feature is absent, a found one comes with its verdict and is late-initialized exactly when the spec changed |
| `FeatureReports.FailedLookStops` | internal/controller/feature/feature.go:183-189 | a reconcile whose look fails reports that error, logs the look and nothing else, and leaves spec and store alone |
| `FeatureReports.UpdateReports` | internal/controller/feature/feature.go:222-236 | an update reports an unsendable body and every error of the reply, and success exactly when the patch was accepted and stored |
| `FeatureReports.CreateReports` | internal/controller/feature/feature.go:203-217 | a create reports an unsendable body and every error of the reply, and success exactly when what the server made of the body is stored |
| `FeatureReports.FailedWriteIsReported` | internal/controller/feature/feature.go:203-236 | when the write of a reconcile is answered with an error, the reconcile reports it |
| `FeatureReports.BadCreateSurfaces` | internal/controller/feature/feature.go:203-207 | a spec that cannot be created makes the reconcile of an absent feature report why and send nothing |
| `FeatureReports.SuccessMeansAccepted` | internal/controller/feature/feature.go:182-236 | a reconcile that succeeds saw the feature up to date or had its one write accepted |
| `FeatureDrift.UpdateDeliversMeaning` | internal/controller/feature/feature.go:222-236 | after one Update of a spec that settles, every visitor of a managed environment is served what the spec asks, repeated variation ids or not |
| `FeatureDrift.MergeKeepsForProvider` | internal/controller/feature/convert.go:44-84 | the merge is idempotent, and what satisfies the merged spec satisfies forProvider |
| `FeatureDrift.RulesMatchTwice` | internal/controller/feature/rules_drift.go:31-44 | two stored rule lists match the same desired list exactly when they are the same up to ids the user left open and the order of sets |
| `FeatureRuns.ConvergesThenQuiet` | internal/controller/feature/feature.go:182-236 | once nobody else acts and no call fails, whatever happened before, one create or update reaches what the spec asks, and no later reconcile writes or changes the store |
| `FeatureRuns.RunServesTheSpec` | internal/controller/feature/feature.go:182-236 | from the first reconcile on, every visitor of a managed environment for whom no repeated variation id decides is served what the spec asked for at the start |
| `FeatureRest.HopelessNeverQuiet` | internal/controller/feature/feature.go:182-236 | a spec beyond repair (unsendable, another valueType, an empty default value or tag list against stored ones, a rule that does not settle) makes every reconcile of the run write or fail |
| `FeatureRest.OneReconcileDecides` | internal/controller/feature/feature.go:182-236 | one reconcile of any stored feature, late initialization pending or not, ends in what the spec asks or beyond repair, and the guard on the spec and the stored feature before it tells which |
| `FeatureRest.SettlesForCertainExactlyWhen` | internal/controller/feature/feature.go:182-236 | one reconcile settles however the spec is written back exactly when the state before it is ready |
| `FeatureRest.MaySettleExactlyWhen` | internal/controller/feature/feature.go:182-236 | one reconcile settles for some write back exactly when the guard holds of the spec, or without its empty tag list when an open field will cause a write back |
| `FeatureRest.StoredRunIsDecided` | internal/controller/feature/feature.go:182-236 | every calm run from a stored feature is decided by its first reconcile: from the second on all are quiet and the store never changes, or all write or fail, and the guard tells which |
| `FeatureRest.EveryRunIsDecided` | internal/controller/feature/feature.go:182-236 | every calm run from any spec and any store, absent feature or stored one, is after two reconciles at rest for ever or never |
| `FeatureRest.ReadyOrHopeless` | internal/controller/feature/feature.go:182-236 | a stored feature is ready for its first reconcile, beyond repair, or has an empty tag list that the write back may drop |
| `FeatureRuns.OneReconcileSettles` | internal/controller/feature/feature.go:182-236 | one reconcile of a ready state settles it |
| `FeatureRuns.SettledStaysQuiet` | internal/controller/feature/feature.go:182-200 | a settled state is reported as up to date, sees no write and stays settled |
| `FeatureRuns.LateInitAtMostThrice` | internal/controller/feature/convert.go:143-162 | over any run, with faults and edits by others, late initialization is reported at most three times |
| `FeatureRuns.InitProviderIsCreateOnly` | internal/controller/feature/convert.go:138-142 | over any run, a field set only in initProvider never becomes set in forProvider, is in no update body and never changes the verdict |
| `FeatureRest.InitDefaultValueDriftsForever` | internal/controller/feature/convert.go:51-58 | the create-only contract fails for defaultValue: set only in initProvider, it is created and stays, and every later reconcile of the calm run reports drift and writes or fails |
| `FeatureRuns.WrittenBackEmptyRulesAreUnmanaged` | apis/feature/v1alpha1/feature_types.go:91-96 | with an explicitly empty rule list any stored rule is drift; written back through omitempty, no rule is |
| `FeatureRuns.WriteBackKeepsVerdictExactlyWhen` | apis/feature/v1alpha1/feature_types.go:72-96 | writing a spec back through omitempty keeps its verdict on every feature exactly when the rules are not explicitly empty, nor the tags unless some rule can match nothing |
| `FeatureRuns.WriteBackDropsExactly` | apis/feature/v1alpha1/feature_types.go:72-96 | a spec written back loses exactly its empty lists and maps |
| `FeatureRuns.ReconcileDropsEmptyRulesExactlyWhen` | internal/controller/feature/convert.go:143-152 | a reconcile can take an explicitly empty rule list out of the spec exactly when its look succeeds and finds a value for an open field |
| `FeatureRuns.SpecChangesOnlyWithOpenFields` | internal/controller/feature/convert.go:143-162 | over any run, with faults and edits by others, the spec changes only by filling an open field; without open fields it keeps its empty lists for ever |
| `FeatureRuns.ReconcileCalls` | internal/controller/feature/feature.go:182-236 | a reconcile sends one look, then exactly the create body of an absent feature, the update body of a drifted one, or nothing |
| `FeatureRuns.ReconcileOnce` | internal/controller/feature/feature.go:182-236 | a reconcile of the objects is a step of a run |
| `FeatureController.DeleteAlwaysSucceeds` | internal/controller/feature/feature.go:238-263 | from the moment no call fails and nobody else acts, Delete succeeds from every state and removes the feature and nothing else |
| `FeatureController.DeleteIsOrderly` | internal/controller/feature/feature.go:238-263 | with any faults and other actors: a delete, then exactly after an archive-required refusal a patch holding nothing but archived, then exactly after that patch succeeded a last delete |
| `FeatureController.FailedDeleteStops` | internal/controller/feature/feature.go:245-251 | against every server: a first delete that fails, other than by saying the feature is missing or is to be archived first, is reported after that one call, and nothing is archived |
| `FeatureController.AnsweredDeleteSucceeds` | internal/controller/feature/feature.go:244-248 | a first delete without a fault and without a refusal is success after one call and removes the feature alone |
| `FeatureController.FailedArchiveStops` | internal/controller/feature/feature.go:253-256 | an archive call that fails is reported and the delete is not tried again |
| `FeatureController.FailedRetryIsReported` | internal/controller/feature/feature.go:258-260 | a last delete that fails otherwise than on a missing feature is reported |
| `FeatureController.DeleteSuccessMeansAbsent` | internal/controller/feature/feature.go:238-263 | success means the last delete met or made an absent feature |
| `FeatureController.DeleteFailsOnAbsentExactlyWhen` | internal/controller/feature/feature.go:253-256 | Delete fails although the feature is gone exactly when another actor removes it between the refusal and the archive call |
| `FeatureWire.RuleRoundTrip` | internal/clients/growthbook/feature_rules.go:45-64 | a rule survives the omitempty encoding |
| `FeatureServer.UpdatesTravelWithoutIdentity` | internal/clients/growthbook/feature.go:113-126 | whatever an update asks, neither id nor valueType is on the wire and everything else is |
| `EnvironmentController.LawfulServerExists` | internal/clients/growthbook/environment.go:80-99 | a server that keeps the assumed contract exists |
| `ProjectController.LawfulServerExists` | internal/clients/growthbook/project.go:45-53 | a server that keeps the assumed contract and issues fresh ids exists |
| `FeatureServer.LawfulServerExists` | internal/clients/growthbook/feature.go:62-74 | a server that keeps the assumed patch contract exists |
| `ApiErrors.NotFoundIsNotArchiveRequired` | internal/clients/growthbook/client.go:91-117 | no error is classified both ways |
| `ApiErrors.ContainsAnyCase` | internal/clients/growthbook/client.go:102-103 | a message is classified by any part that spells the phrase in any letter case |
| `ApiErrors.ClassifiedExactlyWhen` | internal/clients/growthbook/client.go:87-117 | an error is classified as missing exactly when it is a 404, or a 400 some part of whose message spells one of two phrases in any case; as a demand to archive exactly when it is a 403 some part of whose message spells the phrase |
| `ApiErrors.RefusalsAreRecognised` | internal/clients/growthbook/client.go:87-117 | the observed refusals, a missing object as 404 or as 400 and the archive-first 403, are recognised as what they are |
| `StringSets.SameSet` | internal/controller/feature/convert.go:215-229 | sorting copies and comparing positions decides multiset equality and leaves both arrays as they were |
| `StringSets.SortedUnique` | internal/controller/feature/convert.go:219-227 | a list has only one sorted arrangement |
| `StringSets.AtMostExactlyWhen` | internal/controller/feature/convert.go:221-222 | the order of strings: a prefix comes first, otherwise the first differing character decides |
| `StringSets.SortStrings` | internal/controller/feature/convert.go:221-222 | the in-place sort yields a sorted permutation |
| `StringSets.Normalize` | internal/controller/sdkconnection/convert.go:236-240 | a fresh sorted permutation of the array, which stays as it was |
| `StringSets.StringSlicesEqual` | internal/controller/sdkconnection/convert.go:242-252 | position by position equality |
| `Decimals.GrammarParsesIntoUnit` | apis/feature/v1alpha1/feature_rules_types.go:96-97 | every string of the CRD pattern parses to a finite number between 0 and 1 |
| `Decimals.InGrammarExactlyWhen` | apis/feature/v1alpha1/feature_rules_types.go:96-97 | the strings the CRD pattern admits, spelled out |
| `Decimals.FractionIsBaseTen` | internal/controller/project/convert.go:79-88 | n digits after the point stand for the number they spell in base ten, the point moved n places |
| `Decimals.SpellingsOfOneNumber` | internal/controller/project/convert.go:152-166 | two admitted strings have one value exactly when they agree up to trailing zeros |
| `Decimals.SameValueSameDigits` | internal/controller/project/convert.go:152-166 | two digit strings have one fraction value exactly when they agree up to trailing zeros |
| `RuleDrift.RulesUpToDate` | internal/controller/feature/rules_drift.go:31-44 | nil rules never drift; set rules compare rule by rule, in order |
| `RuleDrift.RuleUpToDate` | internal/controller/feature/rules_drift.go:48-64 | all seven comparisons of one rule hold |
| `RuleDrift.EnvironmentsRuleUpToDate` | internal/controller/feature/rules_drift.go:69-78 | allEnvironments agrees, and the environments as a multiset unless it is true |
| `RuleDrift.RuleValueUpToDate` | internal/controller/feature/rules_drift.go:84-96 | value, hash attribute, experiment, coverage and variations agree |
| `RuleDrift.SavedGroupsUpToDate` | internal/controller/feature/rules_drift.go:114-127 | entries in order, the ids of an entry as a multiset |
| `RuleDrift.VariationsUpToDate` | internal/controller/feature/rules_drift.go:131-146 | the map filled by the loop answers every desired variation |
| `RuleConvert.RulesRequest` | internal/controller/feature/rules_convert.go:33-46 | nil stays nil; a set list is converted whole, or the first bad rule is reported |
| `RuleConvert.RuleRequest` | internal/controller/feature/rules_convert.go:52-77 | every field is converted, or the coverage is reported as no decimal |
| `RuleConvert.SavedGroupsRequest` | internal/controller/feature/rules_convert.go:79-88 | entry by entry, in order |
| `RuleConvert.VariationsRequest` | internal/controller/feature/rules_convert.go:90-99 | entry by entry, in order |
| `RuleConvert.FirstErrorUnique` | internal/controller/feature/rules_convert.go:38-43 | the reported index is the first whose coverage does not parse |
| `FeatureConvert.MergeInitProvider` | internal/controller/feature/convert.go:44-48 | forProvider where set, else initProvider, field by field |
| `FeatureConvert.MergeValueFields` | internal/controller/feature/convert.go:51-58 | the two required strings only |
| `FeatureConvert.MergeMetadataFields` | internal/controller/feature/convert.go:62-84 | the seven optional fields only |
| `FeatureConvert.CreateRequest` | internal/controller/feature/convert.go:30-39 | the merged spec with id and valueType, or the rule error |
| `FeatureConvert.UpdateRequest` | internal/controller/feature/convert.go:87-102 | the mutable fields of forProvider, or the rule error |
| `FeatureConvert.EnvironmentsRequest` | internal/controller/feature/convert.go:107-116 | the toggles of the map, nil for nil |
| `FeatureConvert.LateInitialize` | internal/controller/feature/convert.go:143-152 | description, owner and project, each only where open |
| `Options.LateInitPtr` | internal/controller/feature/convert.go:156-162 | writes exactly when the field is unset in both halves of the spec, and never overwrites |
| `FeatureConvert.IsUpToDate` | internal/controller/feature/convert.go:168-171 | the drift verdict of a feature |
| `FeatureConvert.MetadataUpToDate` | internal/controller/feature/convert.go:179-187 | description, project and ownership fields the user set agree |
| `FeatureConvert.OwnershipUpToDate` | internal/controller/feature/convert.go:190-200 | archived, owner and tags the user set agree |
| `FeatureConvert.EnvironmentsUpToDate` | internal/controller/feature/convert.go:202-213 | every listed environment with a toggle agrees |
| `FeatureController.External.Observe` | internal/controller/feature/feature.go:182-200 | looks the feature up, late-initializes the spec and reports the verdict |
| `FeatureController.External.Create` | internal/controller/feature/feature.go:203-217 | sends the merged create body under the external name |
| `FeatureController.External.Update` | internal/controller/feature/feature.go:222-236 | sends the update body of forProvider |
| `FeatureController.External.Delete` | internal/controller/feature/feature.go:243-263 | deletes, and when refused archives and deletes once more |
| `FeatureServer.Client.UpdateFeature` | internal/clients/growthbook/feature.go:118-126 | drops id and valueType before sending |
| `FeatureServer.Client.CreateFeature` | internal/clients/growthbook/feature.go:105-111 | posts the encoded body |
| `FeatureServer.Client.GetFeature` | internal/clients/growthbook/feature.go:96-102 | the stored feature, or a not-found error |
| `FeatureServer.Client.DeleteFeature` | internal/clients/growthbook/feature.go:129-131 | deletes one feature, or reports why not |
| `EnvironmentController.FindEnvironment` | internal/clients/growthbook/environment.go:72-77 | the scan returns the first entry with the id, or a not-found error |
| `EnvironmentController.LookupRefinesMap` | internal/clients/growthbook/environment.go:64-78 | on unique ids, list-and-filter is map lookup, and a miss is exactly a not-found error |
| `EnvironmentController.Client.GetEnvironment` | internal/clients/growthbook/environment.go:67-78 | lists and filters |
| `EnvironmentController.Client.UpdateEnvironment` | internal/clients/growthbook/environment.go:91-99 | drops id and parent before sending |
| `EnvironmentController.External.Observe` | internal/controller/environment/environment.go:180-198 | looks the environment up, late-initializes the spec and reports the verdict |
| `EnvironmentController.External.Create` | internal/controller/environment/environment.go:201-210 | posts the merged body under the external name |
| `EnvironmentController.External.Update` | internal/controller/environment/environment.go:214-223 | sends the mutable fields |
| `EnvironmentController.UpdatesStayClean` | internal/controller/environment/environment.go:212-223 | over any run no update body carries id, parent or a field set only in initProvider, and such a field never enters forProvider or the verdict |
| `EnvironmentController.LookReports` | internal/controller/environment/environment.go:180-198 | against every fault: errors of the look, absence, the verdict, and late initialization exactly when the spec changed |
| `EnvironmentController.FailedLookStops` | internal/controller/environment/environment.go:181-187 | a reconcile whose look fails reports that error and does nothing else |
| `EnvironmentController.WriteReports` | internal/controller/environment/environment.go:201-223 | an error of the write is reported; without one the environment is stored |
| `EnvironmentController.ReconcileCalls` | internal/controller/environment/environment.go:180-223 | a reconcile lists, then sends exactly the create body of an absent environment, the update body of a drifted one, or nothing |
| `EnvironmentController.LateInitAtMostFour` | internal/controller/environment/convert.go:79-97 | over any run, late initialization is reported at most four times |
| `EnvironmentController.ConvergesThenQuiet` | internal/controller/environment/environment.go:180-223 | once nobody else acts and no call fails, the first reconcile settles the environment and every later one only lists |
| `EnvironmentController.OneReconcileSettles` | internal/controller/environment/environment.go:180-223 | one reconcile of a ready state settles it, and a settled one is only listed |
| `EnvironmentConvert.UpdateConvergesExactlyWhen` | internal/controller/environment/convert.go:99-113 | one update converges exactly when explicitly empty projects face empty stored ones |
| `EnvironmentConvert.DriftIsExactlyChange` | internal/controller/environment/convert.go:99-113 | under that guard an environment is up to date if and only if the update leaves it the same up to the order of projects |
| `EnvironmentConvert.CreateConverges` | internal/controller/environment/convert.go:30-57 | what a create stores is up to date for forProvider alone exactly under that guard |
| `EnvironmentConvert.InitProviderIsStored` | internal/controller/environment/convert.go:26-57 | values set only in initProvider are applied at creation, the parent included |
| `EnvironmentConvert.BodiesSay` | internal/controller/environment/convert.go:30-67 | both bodies, field by field in terms of the two halves of the spec |
| `EnvironmentConvert.LateInitFillsOpenFields` | internal/controller/environment/convert.go:79-97 | late initialization fills every open field the server has a value for, with that value, and touches nothing else |
| `EnvironmentConvert.LateInitKeepsVerdict` | internal/controller/environment/convert.go:79-97 | late initialization keeps the verdict and is complete after one pass |
| `EnvironmentConvert.MergeInitProvider` | internal/controller/environment/convert.go:40-57 | forProvider where set, else initProvider |
| `EnvironmentConvert.CreateRequest` | internal/controller/environment/convert.go:30-36 | the merged fields with id and parent |
| `EnvironmentConvert.LateInitialize` | internal/controller/environment/convert.go:79-87 | four fields, each only where open |
| `EnvironmentConvert.IsUpToDate` | internal/controller/environment/convert.go:101-113 | the drift verdict of an environment |
| `ProjectController.AtMostOneProject` | internal/controller/project/project.go:209-225 | without outside deletion, the server has created one project for the recorded name and one for each lost reply; without lost replies at most one |
| `ProjectController.LookReports` | internal/controller/project/project.go:184-207 | against every fault: no call without a name, errors of the look, absence, the verdict, and late initialization exactly when the spec changed |
| `ProjectController.FailedLookStops` | internal/controller/project/project.go:189-196 | a reconcile whose look fails reports that error and does nothing else |
| `ProjectController.UpdateReports` | internal/controller/project/project.go:228-242 | an update reports a bad threshold and every error of the reply, and success exactly when the project was patched |
| `ProjectController.CreateReports` | internal/controller/project/project.go:210-225 | a create reports a bad threshold and every error of the reply; the name is recorded exactly when the reply arrives |
| `ProjectController.DeleteReports` | internal/controller/project/project.go:245-256 | every error of a delete but a missing project is reported |
| `ProjectController.ReconcileReportsWrite` | internal/controller/project/project.go:184-242 | a reconcile reports what its write reported |
| `ProjectController.BadSpecSurfaces` | internal/controller/project/project.go:228-232 | a bad threshold makes every reconcile of the found project report it and send nothing after the look |
| `ProjectController.BadCreateSurfaces` | internal/controller/project/project.go:210-214 | a bad threshold makes the reconcile without a project report it and send nothing |
| `ProjectController.ConvergesThenQuiet` | internal/controller/project/project.go:184-242 | once nobody else acts and no call fails, the first reconcile creates or updates the project into what the spec asks, and every later one only looks |
| `ProjectController.NameIsLastCreated` | internal/controller/project/project.go:184-242 | over any run no GET or PUT carries an empty id, and the external name is the last acknowledged id |
| `ProjectController.DeleteAddressesItsProject` | internal/controller/project/project.go:245-256 | a delete without a name sends nothing; success means absence |
| `ProjectController.InitProviderIsCreateOnly` | internal/controller/project/convert.go:100-104 | the create-only contract over any run |
| `ProjectController.LateInitAtMostOnce` | internal/controller/project/convert.go:105-112 | over any run, late initialization is reported at most once |
| `ProjectController.External.Observe` | internal/controller/project/project.go:184-207 | without a name nothing is sent; else look up, late-initialize and report the verdict |
| `ProjectController.External.Create` | internal/controller/project/project.go:210-225 | posts the merged body and records the returned id as external name |
| `ProjectController.External.Update` | internal/controller/project/project.go:228-242 | puts the desired fields under the external name |
| `ProjectController.External.Delete` | internal/controller/project/project.go:245-256 | deletes by external name; an absent project is a success |
| `ProjectController.External.LateInitialize` | internal/controller/project/convert.go:105-112 | fills publicId, only where open |
| `ProjectConvert.UpdateConvergesExactlyWhen` | internal/controller/project/convert.go:116-166 | one update, decimals included, converges exactly when the name is sent or already empty |
| `ProjectConvert.DriftIsExactlyChange` | internal/controller/project/convert.go:114-166 | under that guard a project is up to date if and only if the update changes nothing the spec manages |
| `ProjectConvert.CreateConverges` | internal/controller/project/convert.go:32-53 | what a create stores is up to date for forProvider alone whenever its name is set |
| `ProjectConvert.InitProviderIsStored` | internal/controller/project/convert.go:28-53 | values set only in initProvider are applied at creation |
| `ProjectConvert.BadSpecIsNeverUpToDate` | internal/controller/project/convert.go:152-166 | a threshold that does not parse or is not finite is drift against every stored project |
| `ProjectConvert.SpellingsShareVerdict` | internal/controller/project/convert.go:152-166 | spellings of one number share their verdict against every stored number |
| `ProjectConvert.AdmittedSpecCanBeSent` | apis/core/v1alpha1/project_types.go:37-47 | every threshold the CRD pattern admits can be sent |
| `ProjectConvert.LateInitKeepsVerdict` | internal/controller/project/convert.go:105-112 | late initialization keeps the verdict and is complete after one pass |
| `ProjectConvert.LateInitFillsOpenFields` | internal/controller/project/convert.go:105-112 | an open publicId the server has a value for is filled with it, and nothing else is touched |
| `ProjectConvert.BodySays` | internal/controller/project/convert.go:56-77 | the body of an update, field by field in terms of forProvider |
| `ProjectConvert.CreateBodySays` | internal/controller/project/convert.go:32-53 | the body of a create, field by field in terms of the two halves of the spec |
| `ProjectConvert.SendableExactlyWhen` | internal/controller/project/convert.go:56-88 | a spec is sent exactly when both thresholds are unset or finite; a threshold that is no decimal is named, the confidence level first |
| `ProjectConvert.MergeInitProvider` | internal/controller/project/convert.go:36-53 | forProvider where set, else initProvider |
| `ProjectConvert.Request` | internal/controller/project/convert.go:56-77 | the desired fields with parsed thresholds, or the first that is no decimal |
| `ProjectConvert.CreateRequest` | internal/controller/project/convert.go:32-34 | the request of the merged spec |
| `SdkConnection.MergeBoolFields` | internal/controller/sdkconnection/convert.go:79-106 | the loop over the pointer table is forProvider else initProvider on all sixteen toggles and touches nothing else |
| `SdkConnection.TableIsComplete` | internal/controller/sdkconnection/convert.go:80-100 | the table names every toggle exactly once |
| `SdkConnection.StoreThenLoad` | internal/controller/sdkconnection/convert.go:101-105 | writing through one pointer of the table changes that toggle and no other |
| `SdkConnection.MergeInitProvider` | internal/controller/sdkconnection/convert.go:36-42 | forProvider where set, else initProvider, on every field |
| `SdkConnection.IsUpToDate` | internal/controller/sdkconnection/convert.go:154-159 | the verdict is the conjunction, over every field the user set, of agreement with the server |
| `SdkConnection.BoolFieldsUpToDate` | internal/controller/sdkconnection/convert.go:196-222 | the table of checks covers the fourteen optional toggles |
| `SdkConnection.ChangeIsDetectedExactlyWhen` | internal/controller/sdkconnection/convert.go:154-222 | from an up-to-date connection, a change is reported as drift exactly when a managed field, name, environment, language, list, scalar or toggle, is among what changed |
| `SdkConnection.UnmanagedNeverDrifts` | internal/controller/sdkconnection/convert.go:151-159 | unset fields never change the verdict |
| `SdkConnection.LanguageMatches` | internal/controller/sdkconnection/convert.go:227-234 | membership in the reported languages |
| `SdkConnection.ScopeFieldsUpToDate` | internal/controller/sdkconnection/convert.go:167-175 | the two lists compare as multisets where set |
| `SdkConnection.NormalizedEqual` | internal/controller/sdkconnection/convert.go:236-252 | comparing normalized copies decides multiset equality |
| `SdkConnection.CreateConverges` | internal/controller/sdkconnection/convert.go:26-42 | what a create stores is up to date for forProvider alone given the required strings and no explicitly empty list, and values set only in initProvider are stored |
| `SdkConnection.UpdateConvergesExactlyWhen` | internal/controller/sdkconnection/convert.go:109-159 | one update converges exactly when no empty string or empty list has to be sent |
| `SdkConnection.DriftIsExactlyChange` | internal/controller/sdkconnection/convert.go:109-222 | under that guard a connection is up to date if and only if the update changes nothing |
| `SdkConnection.EmptyProjectsNeverCleared` | apis/sdk/v1alpha1/sdkconnection_types.go:47-50 | an explicitly empty project list never clears the stored one and drifts for ever |

## Left out

- Status fields (dates, revision, observed rules and environments) and connection details: straight copies.
- HTTP transport, headers, timeouts, body limits and JSON decoding: library input and output; only omitempty, the non-finite encoding error and error classification are modelled.
- ProviderConfig lookup, credentials, controller set-up, metrics and change logs: wiring.
- Observe, Create, Update and Delete of an SDK connection, and Delete of an Environment: the same steps as for the other resources, without anything new to prove.
- Slice aliasing between a spec and its copies: the lists inside specs and answers are values; `StringSets.Backing` lays them out as arrays for the comparisons, which copy before they sort.
- Writes through pointers into a local copy of the spec (merge, late initialization): updates of a value, with the same steps.
- User edits of the spec inside a run: every run starts from an arbitrary spec, store and history, so an edit starts a new one.
- The algorithm of `sort.Strings`: its contract is kept by an in-place insertion sort.
- Letter case outside ASCII in error messages.
- A reply lost after an update of an Environment or a Project took effect; for Features every call, and for Projects the create, may lose its reply.
- FeatureController.DeleteAlwaysSucceeds: assumes that no call fails and nobody else acts, because either makes a failed delete legitimate; the other delete lemmas do without.
- FeatureDrift.DriftIsExactlyChange: assumes the guard of convergence, because without it an update cannot make the verdict true; that distinct variation ids are needed is FeatureDrift.DriftMeansChangeExactlyWhen.
- ProjectConvert.UpdateConvergesExactlyWhen: does not fix whether nested settings that are not sent are kept or cleared, because the verdict does not depend on it.
