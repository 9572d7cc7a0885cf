/**
 internal/controller/sdkconnection/convert.go: the pointer-table merge of the boolean
 toggles, the request, and the drift verdict of an SDKConnection.
 */
module SdkConnection {
  import opened Options
  import opened StringSets

  /** The names of the sixteen optional booleans, for pointers into the parameters. */
  datatype Toggle =
    | EncryptPayload
    | IncludeVisualExperiments
    | IncludeDraftExperiments
    | IncludeDraftExperimentRefs
    | IncludeExperimentNames
    | IncludeRedirectExperiments
    | IncludeRuleIds
    | IncludeProjectIdInMetadata
    | IncludeCustomFieldsInMetadata
    | IncludeTagsInMetadata
    | IncludeExperimentScheduleInMetadata
    | ProxyEnabled
    | HashSecureAttributes
    | RemoteEvalEnabled
    | SavedGroupReferencesEnabled
    | IncludeReferencedPrerequisites

  datatype Toggles = Toggles(
    encryptPayload: Option<bool>,
    includeVisualExperiments: Option<bool>,
    includeDraftExperiments: Option<bool>,
    includeDraftExperimentRefs: Option<bool>,
    includeExperimentNames: Option<bool>,
    includeRedirectExperiments: Option<bool>,
    includeRuleIds: Option<bool>,
    includeProjectIdInMetadata: Option<bool>,
    includeCustomFieldsInMetadata: Option<bool>,
    includeTagsInMetadata: Option<bool>,
    includeExperimentScheduleInMetadata: Option<bool>,
    proxyEnabled: Option<bool>,
    hashSecureAttributes: Option<bool>,
    remoteEvalEnabled: Option<bool>,
    savedGroupReferencesEnabled: Option<bool>,
    includeReferencedPrerequisites: Option<bool>)

  datatype SDKConnectionParameters = SDKConnectionParameters(
    name: string,
    language: string,
    environment: string,
    projects: Option<seq<string>>,
    allowedCustomFields: Option<seq<string>>,
    sdkVersion: Option<string>,
    proxyHost: Option<string>,
    toggles: Toggles)

  datatype SDKConnectionInitParameters = SDKConnectionInitParameters(
    name: Option<string>,
    language: Option<string>,
    environment: Option<string>,
    projects: Option<seq<string>>,
    allowedCustomFields: Option<seq<string>>,
    sdkVersion: Option<string>,
    proxyHost: Option<string>,
    toggles: Toggles)

  /** The API reports a set of languages although a request carries one, and two toggles as plain booleans. */
  datatype SDKConnection = SDKConnection(
    name: string,
    languages: seq<string>,
    environment: string,
    projects: seq<string>,
    allowedCustomFields: seq<string>,
    sdkVersion: string,
    proxyHost: string,
    encryptPayload: bool,
    proxyEnabled: bool,
    includeVisualExperiments: Option<bool>,
    includeDraftExperiments: Option<bool>,
    includeDraftExperimentRefs: Option<bool>,
    includeExperimentNames: Option<bool>,
    includeRedirectExperiments: Option<bool>,
    includeRuleIds: Option<bool>,
    includeProjectIdInMetadata: Option<bool>,
    includeCustomFieldsInMetadata: Option<bool>,
    includeTagsInMetadata: Option<bool>,
    includeExperimentScheduleInMetadata: Option<bool>,
    hashSecureAttributes: Option<bool>,
    remoteEvalEnabled: Option<bool>,
    savedGroupReferencesEnabled: Option<bool>,
    includeReferencedPrerequisites: Option<bool>)

  // ---- Pointers into the toggles ------------------------------------------------------

  function Load(p: Toggles, t: Toggle): Option<bool> {
    match t
    case EncryptPayload => p.encryptPayload
    case IncludeVisualExperiments => p.includeVisualExperiments
    case IncludeDraftExperiments => p.includeDraftExperiments
    case IncludeDraftExperimentRefs => p.includeDraftExperimentRefs
    case IncludeExperimentNames => p.includeExperimentNames
    case IncludeRedirectExperiments => p.includeRedirectExperiments
    case IncludeRuleIds => p.includeRuleIds
    case IncludeProjectIdInMetadata => p.includeProjectIdInMetadata
    case IncludeCustomFieldsInMetadata => p.includeCustomFieldsInMetadata
    case IncludeTagsInMetadata => p.includeTagsInMetadata
    case IncludeExperimentScheduleInMetadata => p.includeExperimentScheduleInMetadata
    case ProxyEnabled => p.proxyEnabled
    case HashSecureAttributes => p.hashSecureAttributes
    case RemoteEvalEnabled => p.remoteEvalEnabled
    case SavedGroupReferencesEnabled => p.savedGroupReferencesEnabled
    case IncludeReferencedPrerequisites => p.includeReferencedPrerequisites
  }

  function Store(p: Toggles, t: Toggle, v: Option<bool>): Toggles {
    match t
    case EncryptPayload => p.(encryptPayload := v)
    case IncludeVisualExperiments => p.(includeVisualExperiments := v)
    case IncludeDraftExperiments => p.(includeDraftExperiments := v)
    case IncludeDraftExperimentRefs => p.(includeDraftExperimentRefs := v)
    case IncludeExperimentNames => p.(includeExperimentNames := v)
    case IncludeRedirectExperiments => p.(includeRedirectExperiments := v)
    case IncludeRuleIds => p.(includeRuleIds := v)
    case IncludeProjectIdInMetadata => p.(includeProjectIdInMetadata := v)
    case IncludeCustomFieldsInMetadata => p.(includeCustomFieldsInMetadata := v)
    case IncludeTagsInMetadata => p.(includeTagsInMetadata := v)
    case IncludeExperimentScheduleInMetadata => p.(includeExperimentScheduleInMetadata := v)
    case ProxyEnabled => p.(proxyEnabled := v)
    case HashSecureAttributes => p.(hashSecureAttributes := v)
    case RemoteEvalEnabled => p.(remoteEvalEnabled := v)
    case SavedGroupReferencesEnabled => p.(savedGroupReferencesEnabled := v)
    case IncludeReferencedPrerequisites => p.(includeReferencedPrerequisites := v)
  }

  /** Writing through one pointer changes that toggle and no other. */
  lemma StoreThenLoad(p: Toggles, t: Toggle, v: Option<bool>, u: Toggle)
    ensures Load(Store(p, t, v), u) == if t == u then v else Load(p, u)
  {
  }

  lemma SameToggles(p: Toggles, q: Toggles)
    requires forall t :: Load(p, t) == Load(q, t)
    ensures p == q
  {
    assert Load(p, EncryptPayload) == Load(q, EncryptPayload)
           && Load(p, IncludeVisualExperiments) == Load(q, IncludeVisualExperiments)
           && Load(p, IncludeDraftExperiments) == Load(q, IncludeDraftExperiments)
           && Load(p, IncludeDraftExperimentRefs) == Load(q, IncludeDraftExperimentRefs)
           && Load(p, IncludeExperimentNames) == Load(q, IncludeExperimentNames)
           && Load(p, IncludeRedirectExperiments) == Load(q, IncludeRedirectExperiments)
           && Load(p, IncludeRuleIds) == Load(q, IncludeRuleIds)
           && Load(p, IncludeProjectIdInMetadata) == Load(q, IncludeProjectIdInMetadata)
           && Load(p, IncludeCustomFieldsInMetadata) == Load(q, IncludeCustomFieldsInMetadata)
           && Load(p, IncludeTagsInMetadata) == Load(q, IncludeTagsInMetadata)
           && Load(p, IncludeExperimentScheduleInMetadata) == Load(q, IncludeExperimentScheduleInMetadata)
           && Load(p, ProxyEnabled) == Load(q, ProxyEnabled)
           && Load(p, HashSecureAttributes) == Load(q, HashSecureAttributes)
           && Load(p, RemoteEvalEnabled) == Load(q, RemoteEvalEnabled)
           && Load(p, SavedGroupReferencesEnabled) == Load(q, SavedGroupReferencesEnabled)
           && Load(p, IncludeReferencedPrerequisites) == Load(q, IncludeReferencedPrerequisites);
  }

  /** The merge of initProvider, toggle by toggle. */
  function MergedToggles(p: Toggles, ip: Toggles): Toggles {
    Toggles(
      Or(p.encryptPayload, ip.encryptPayload),
      Or(p.includeVisualExperiments, ip.includeVisualExperiments),
      Or(p.includeDraftExperiments, ip.includeDraftExperiments),
      Or(p.includeDraftExperimentRefs, ip.includeDraftExperimentRefs),
      Or(p.includeExperimentNames, ip.includeExperimentNames),
      Or(p.includeRedirectExperiments, ip.includeRedirectExperiments),
      Or(p.includeRuleIds, ip.includeRuleIds),
      Or(p.includeProjectIdInMetadata, ip.includeProjectIdInMetadata),
      Or(p.includeCustomFieldsInMetadata, ip.includeCustomFieldsInMetadata),
      Or(p.includeTagsInMetadata, ip.includeTagsInMetadata),
      Or(p.includeExperimentScheduleInMetadata, ip.includeExperimentScheduleInMetadata),
      Or(p.proxyEnabled, ip.proxyEnabled),
      Or(p.hashSecureAttributes, ip.hashSecureAttributes),
      Or(p.remoteEvalEnabled, ip.remoteEvalEnabled),
      Or(p.savedGroupReferencesEnabled, ip.savedGroupReferencesEnabled),
      Or(p.includeReferencedPrerequisites, ip.includeReferencedPrerequisites))
  }

  /** The table of destination pointers and source values, in the order of the source. */
  function Table(ip: Toggles): (pairs: seq<(Toggle, Option<bool>)>)
    ensures |pairs| == 16
    ensures forall i :: 0 <= i < 16 ==> pairs[i].1 == Load(ip, pairs[i].0)
  {
    [
      (EncryptPayload, ip.encryptPayload),
      (IncludeVisualExperiments, ip.includeVisualExperiments),
      (IncludeDraftExperiments, ip.includeDraftExperiments),
      (IncludeDraftExperimentRefs, ip.includeDraftExperimentRefs),
      (IncludeExperimentNames, ip.includeExperimentNames),
      (IncludeRedirectExperiments, ip.includeRedirectExperiments),
      (IncludeRuleIds, ip.includeRuleIds),
      (IncludeProjectIdInMetadata, ip.includeProjectIdInMetadata),
      (IncludeCustomFieldsInMetadata, ip.includeCustomFieldsInMetadata),
      (IncludeTagsInMetadata, ip.includeTagsInMetadata),
      (IncludeExperimentScheduleInMetadata, ip.includeExperimentScheduleInMetadata),
      (ProxyEnabled, ip.proxyEnabled),
      (HashSecureAttributes, ip.hashSecureAttributes),
      (RemoteEvalEnabled, ip.remoteEvalEnabled),
      (SavedGroupReferencesEnabled, ip.savedGroupReferencesEnabled),
      (IncludeReferencedPrerequisites, ip.includeReferencedPrerequisites)
    ]
  }

  function Position(t: Toggle): nat {
    match t
    case EncryptPayload => 0
    case IncludeVisualExperiments => 1
    case IncludeDraftExperiments => 2
    case IncludeDraftExperimentRefs => 3
    case IncludeExperimentNames => 4
    case IncludeRedirectExperiments => 5
    case IncludeRuleIds => 6
    case IncludeProjectIdInMetadata => 7
    case IncludeCustomFieldsInMetadata => 8
    case IncludeTagsInMetadata => 9
    case IncludeExperimentScheduleInMetadata => 10
    case ProxyEnabled => 11
    case HashSecureAttributes => 12
    case RemoteEvalEnabled => 13
    case SavedGroupReferencesEnabled => 14
    case IncludeReferencedPrerequisites => 15
  }

  /** The table names every toggle exactly once. */
  lemma TableIsComplete(ip: Toggles)
    ensures forall t :: Position(t) < 16 && Table(ip)[Position(t)].0 == t
    ensures forall i :: 0 <= i < 16 ==> Position(Table(ip)[i].0) == i
  {
  }

  method MergeBoolFields(p: SDKConnectionParameters, ip: SDKConnectionInitParameters)
    returns (m: SDKConnectionParameters)
    ensures m == p.(toggles := MergedToggles(p.toggles, ip.toggles))
  {
    m := p;
    var pairs := Table(ip.toggles);
    TableIsComplete(ip.toggles);
    for i := 0 to |pairs|
      invariant m == p.(toggles := m.toggles)
      invariant forall t :: Load(m.toggles, t)
                            == if Position(t) < i then Or(Load(p.toggles, t), Load(ip.toggles, t)) else Load(p.toggles, t)
    {
      var (dst, src) := pairs[i];
      if Load(m.toggles, dst).None? {
        forall t {
          StoreThenLoad(m.toggles, dst, src, t);
        }
        m := m.(toggles := Store(m.toggles, dst, src));
      }
    }
    forall t ensures Load(MergedToggles(p.toggles, ip.toggles), t) == Or(Load(p.toggles, t), Load(ip.toggles, t)) {
      MergedLoads(p.toggles, ip.toggles, t);
    }
    SameToggles(m.toggles, MergedToggles(p.toggles, ip.toggles));
  }

  lemma MergedLoads(p: Toggles, ip: Toggles, t: Toggle)
    ensures Load(MergedToggles(p, ip), t) == Or(Load(p, t), Load(ip, t))
  {
  }

  function Merged(p: SDKConnectionParameters, ip: SDKConnectionInitParameters): SDKConnectionParameters {
    SDKConnectionParameters(
      if p.name != "" then p.name else Deref(ip.name),
      if p.language != "" then p.language else Deref(ip.language),
      if p.environment != "" then p.environment else Deref(ip.environment),
      Or(p.projects, ip.projects), Or(p.allowedCustomFields, ip.allowedCustomFields),
      Or(p.sdkVersion, ip.sdkVersion), Or(p.proxyHost, ip.proxyHost), MergedToggles(p.toggles, ip.toggles))
  }

  method MergeIdentityFields(p: SDKConnectionParameters, ip: SDKConnectionInitParameters)
    returns (m: SDKConnectionParameters)
    ensures m == p.(name := if p.name != "" then p.name else Deref(ip.name),
                    language := if p.language != "" then p.language else Deref(ip.language),
                    environment := if p.environment != "" then p.environment else Deref(ip.environment))
  {
    m := p;
    if m.name == "" && ip.name.Some? { m := m.(name := ip.name.value); }
    if m.language == "" && ip.language.Some? { m := m.(language := ip.language.value); }
    if m.environment == "" && ip.environment.Some? { m := m.(environment := ip.environment.value); }
  }

  method MergeScopeFields(p: SDKConnectionParameters, ip: SDKConnectionInitParameters)
    returns (m: SDKConnectionParameters)
    ensures m == p.(projects := Or(p.projects, ip.projects),
                    allowedCustomFields := Or(p.allowedCustomFields, ip.allowedCustomFields))
  {
    m := p;
    if m.projects.None? { m := m.(projects := ip.projects); }
    if m.allowedCustomFields.None? { m := m.(allowedCustomFields := ip.allowedCustomFields); }
  }

  method MergeScalarFields(p: SDKConnectionParameters, ip: SDKConnectionInitParameters)
    returns (m: SDKConnectionParameters)
    ensures m == p.(sdkVersion := Or(p.sdkVersion, ip.sdkVersion), proxyHost := Or(p.proxyHost, ip.proxyHost))
  {
    m := p;
    if m.sdkVersion.None? { m := m.(sdkVersion := ip.sdkVersion); }
    if m.proxyHost.None? { m := m.(proxyHost := ip.proxyHost); }
  }

  method MergeInitProvider(p: SDKConnectionParameters, ip: SDKConnectionInitParameters)
    returns (m: SDKConnectionParameters)
    ensures m == Merged(p, ip)
  {
    m := MergeIdentityFields(p, ip);
    m := MergeScopeFields(m, ip);
    m := MergeScalarFields(m, ip);
    m := MergeBoolFields(m, ip);
  }

  // ---- The drift verdict ----------------------------------------------------------------

  /** A toggle that is set has that value in the connection. */
  predicate Held(want: Option<bool>, got: Option<bool>) {
    want.Some? ==> got == want
  }

  /** Each of the fourteen toggles the API may leave unset is held in its own field. */
  predicate HoldsOptionalToggles(t: Toggles, sc: SDKConnection) {
    && Held(t.includeVisualExperiments, sc.includeVisualExperiments)
    && Held(t.includeDraftExperiments, sc.includeDraftExperiments)
    && Held(t.includeDraftExperimentRefs, sc.includeDraftExperimentRefs)
    && Held(t.includeExperimentNames, sc.includeExperimentNames)
    && Held(t.includeRedirectExperiments, sc.includeRedirectExperiments)
    && Held(t.includeRuleIds, sc.includeRuleIds)
    && Held(t.includeProjectIdInMetadata, sc.includeProjectIdInMetadata)
    && Held(t.includeCustomFieldsInMetadata, sc.includeCustomFieldsInMetadata)
    && Held(t.includeTagsInMetadata, sc.includeTagsInMetadata)
    && Held(t.includeExperimentScheduleInMetadata, sc.includeExperimentScheduleInMetadata)
    && Held(t.hashSecureAttributes, sc.hashSecureAttributes)
    && Held(t.remoteEvalEnabled, sc.remoteEvalEnabled)
    && Held(t.savedGroupReferencesEnabled, sc.savedGroupReferencesEnabled)
    && Held(t.includeReferencedPrerequisites, sc.includeReferencedPrerequisites)
  }

  /** And so are the two the API always reports. */
  predicate HoldsToggles(t: Toggles, sc: SDKConnection) {
    Agrees(t.encryptPayload, sc.encryptPayload) && Agrees(t.proxyEnabled, sc.proxyEnabled) && HoldsOptionalToggles(t, sc)
  }

  predicate SetMatches(want: Option<seq<string>>, got: seq<string>) {
    want.Some? ==> multiset(want.value) == multiset(got)
  }

  /** Agreement on every field the user set, and on the three required ones. */
  predicate UpToDate(p: SDKConnectionParameters, sc: SDKConnection) {
    && p.name == sc.name
    && p.environment == sc.environment
    && p.language in sc.languages
    && SetMatches(p.projects, sc.projects)
    && SetMatches(p.allowedCustomFields, sc.allowedCustomFields)
    && Agrees(p.sdkVersion, sc.sdkVersion)
    && Agrees(p.proxyHost, sc.proxyHost)
    && HoldsToggles(p.toggles, sc)
  }

  method LanguageMatches(desired: string, actual: seq<string>) returns (r: bool)
    ensures r <==> desired in actual
  {
    for i := 0 to |actual|
      invariant desired !in actual[..i]
    {
      if actual[i] == desired {
        return true;
      }
    }
    return false;
  }

  method IdentityFieldsUpToDate(p: SDKConnectionParameters, sc: SDKConnection) returns (r: bool)
    ensures r <==> p.name == sc.name && p.environment == sc.environment && p.language in sc.languages
  {
    if p.name != sc.name || p.environment != sc.environment {
      return false;
    }
    r := LanguageMatches(p.language, sc.languages);
  }

  method ScopeFieldsUpToDate(p: SDKConnectionParameters, sc: SDKConnection) returns (r: bool)
    ensures r <==> SetMatches(p.projects, sc.projects) && SetMatches(p.allowedCustomFields, sc.allowedCustomFields)
  {
    if p.projects.Some? {
      var same := NormalizedEqual(p.projects.value, sc.projects);
      if !same {
        return false;
      }
    }
    if p.allowedCustomFields.Some? {
      var same := NormalizedEqual(p.allowedCustomFields.value, sc.allowedCustomFields);
      if !same {
        return false;
      }
    }
    return true;
  }

  /** Comparing the two normalized copies refines the same multiset comparison. */
  method NormalizedEqual(a: seq<string>, b: seq<string>) returns (r: bool)
    ensures r <==> multiset(a) == multiset(b)
  {
    var x := Backing(a);
    var y := Backing(b);
    var na := Normalize(x);
    var nb := Normalize(y);
    r := StringSlicesEqual(na, nb);
    if multiset(a) == multiset(b) {
      SortedUnique(na[..], nb[..]);
    }
  }

  method ScalarFieldsUpToDate(p: SDKConnectionParameters, sc: SDKConnection) returns (r: bool)
    ensures r <==> Agrees(p.sdkVersion, sc.sdkVersion) && Agrees(p.proxyHost, sc.proxyHost)
                   && Agrees(p.toggles.encryptPayload, sc.encryptPayload)
                   && Agrees(p.toggles.proxyEnabled, sc.proxyEnabled)
  {
    if p.sdkVersion.Some? && p.sdkVersion.value != sc.sdkVersion {
      return false;
    }
    if p.toggles.encryptPayload.Some? && p.toggles.encryptPayload.value != sc.encryptPayload {
      return false;
    }
    if p.toggles.proxyEnabled.Some? && p.toggles.proxyEnabled.value != sc.proxyEnabled {
      return false;
    }
    if p.proxyHost.Some? && p.proxyHost.value != sc.proxyHost {
      return false;
    }
    return true;
  }

  predicate CheckHolds(check: (Option<bool>, Option<bool>)) {
    check.0.Some? ==> check.1.Some? && check.0.value == check.1.value
  }

  method BoolFieldsUpToDate(p: SDKConnectionParameters, sc: SDKConnection) returns (r: bool)
    ensures r <==> HoldsOptionalToggles(p.toggles, sc)
  {
    var checks := [
      (p.toggles.includeVisualExperiments, sc.includeVisualExperiments),
      (p.toggles.includeDraftExperiments, sc.includeDraftExperiments),
      (p.toggles.includeDraftExperimentRefs, sc.includeDraftExperimentRefs),
      (p.toggles.includeExperimentNames, sc.includeExperimentNames),
      (p.toggles.includeRedirectExperiments, sc.includeRedirectExperiments),
      (p.toggles.includeRuleIds, sc.includeRuleIds),
      (p.toggles.includeProjectIdInMetadata, sc.includeProjectIdInMetadata),
      (p.toggles.includeCustomFieldsInMetadata, sc.includeCustomFieldsInMetadata),
      (p.toggles.includeTagsInMetadata, sc.includeTagsInMetadata),
      (p.toggles.includeExperimentScheduleInMetadata, sc.includeExperimentScheduleInMetadata),
      (p.toggles.hashSecureAttributes, sc.hashSecureAttributes),
      (p.toggles.remoteEvalEnabled, sc.remoteEvalEnabled),
      (p.toggles.savedGroupReferencesEnabled, sc.savedGroupReferencesEnabled),
      (p.toggles.includeReferencedPrerequisites, sc.includeReferencedPrerequisites)
    ];
    r := true;
    for i := 0 to |checks|
      invariant forall k :: 0 <= k < i ==> CheckHolds(checks[k])
    {
      var c := checks[i];
      if c.0.Some? && (c.1.None? || c.0.value != c.1.value) {
        FailingCheck(p, sc, checks, i);
        return false;
      }
    }
    PassingChecks(p, sc, checks);
  }

  /** The table of checks, in the order of the source. */
  predicate IsCheckTable(p: SDKConnectionParameters, sc: SDKConnection, checks: seq<(Option<bool>, Option<bool>)>) {
    checks == [
      (p.toggles.includeVisualExperiments, sc.includeVisualExperiments),
      (p.toggles.includeDraftExperiments, sc.includeDraftExperiments),
      (p.toggles.includeDraftExperimentRefs, sc.includeDraftExperimentRefs),
      (p.toggles.includeExperimentNames, sc.includeExperimentNames),
      (p.toggles.includeRedirectExperiments, sc.includeRedirectExperiments),
      (p.toggles.includeRuleIds, sc.includeRuleIds),
      (p.toggles.includeProjectIdInMetadata, sc.includeProjectIdInMetadata),
      (p.toggles.includeCustomFieldsInMetadata, sc.includeCustomFieldsInMetadata),
      (p.toggles.includeTagsInMetadata, sc.includeTagsInMetadata),
      (p.toggles.includeExperimentScheduleInMetadata, sc.includeExperimentScheduleInMetadata),
      (p.toggles.hashSecureAttributes, sc.hashSecureAttributes),
      (p.toggles.remoteEvalEnabled, sc.remoteEvalEnabled),
      (p.toggles.savedGroupReferencesEnabled, sc.savedGroupReferencesEnabled),
      (p.toggles.includeReferencedPrerequisites, sc.includeReferencedPrerequisites)
    ]
  }

  lemma FailingCheck(p: SDKConnectionParameters, sc: SDKConnection, checks: seq<(Option<bool>, Option<bool>)>, i: nat)
    requires IsCheckTable(p, sc, checks) && i < |checks| && !CheckHolds(checks[i])
    ensures !HoldsOptionalToggles(p.toggles, sc)
  {
  }

  lemma PassingChecks(p: SDKConnectionParameters, sc: SDKConnection, checks: seq<(Option<bool>, Option<bool>)>)
    requires IsCheckTable(p, sc, checks) && forall k :: 0 <= k < |checks| ==> CheckHolds(checks[k])
    ensures HoldsOptionalToggles(p.toggles, sc)
  {
    assert CheckHolds((p.toggles.includeVisualExperiments, sc.includeVisualExperiments))
           && CheckHolds((p.toggles.includeDraftExperiments, sc.includeDraftExperiments))
           && CheckHolds((p.toggles.includeDraftExperimentRefs, sc.includeDraftExperimentRefs))
           && CheckHolds((p.toggles.includeExperimentNames, sc.includeExperimentNames))
           && CheckHolds((p.toggles.includeRedirectExperiments, sc.includeRedirectExperiments))
           && CheckHolds((p.toggles.includeRuleIds, sc.includeRuleIds))
           && CheckHolds((p.toggles.includeProjectIdInMetadata, sc.includeProjectIdInMetadata))
           && CheckHolds((p.toggles.includeCustomFieldsInMetadata, sc.includeCustomFieldsInMetadata))
           && CheckHolds((p.toggles.includeTagsInMetadata, sc.includeTagsInMetadata))
           && CheckHolds((p.toggles.includeExperimentScheduleInMetadata, sc.includeExperimentScheduleInMetadata))
           && CheckHolds((p.toggles.hashSecureAttributes, sc.hashSecureAttributes))
           && CheckHolds((p.toggles.remoteEvalEnabled, sc.remoteEvalEnabled))
           && CheckHolds((p.toggles.savedGroupReferencesEnabled, sc.savedGroupReferencesEnabled))
           && CheckHolds((p.toggles.includeReferencedPrerequisites, sc.includeReferencedPrerequisites)) by {
      assert CheckHolds(checks[0])
             && CheckHolds(checks[1])
             && CheckHolds(checks[2])
             && CheckHolds(checks[3])
             && CheckHolds(checks[4])
             && CheckHolds(checks[5])
             && CheckHolds(checks[6])
             && CheckHolds(checks[7])
             && CheckHolds(checks[8])
             && CheckHolds(checks[9])
             && CheckHolds(checks[10])
             && CheckHolds(checks[11])
             && CheckHolds(checks[12])
             && CheckHolds(checks[13]);
    }
  }

  method IsUpToDate(p: SDKConnectionParameters, sc: SDKConnection) returns (r: bool)
    ensures r <==> UpToDate(p, sc)
  {
    r := IdentityFieldsUpToDate(p, sc);
    if r {
      r := ScopeFieldsUpToDate(p, sc);
    }
    if r {
      r := ScalarFieldsUpToDate(p, sc);
    }
    if r {
      r := BoolFieldsUpToDate(p, sc);
    }
  }

  // ---- The toggles, field by field --------------------------------------------------------------

  /** The connection has every toggle that initProvider alone sets, each in its own field. */
  predicate HoldsUnsetToggles(p: Toggles, ip: Toggles, sc: SDKConnection) {
    && (p.encryptPayload.None? ==> Agrees(ip.encryptPayload, sc.encryptPayload))
    && (p.includeVisualExperiments.None? ==> Held(ip.includeVisualExperiments, sc.includeVisualExperiments))
    && (p.includeDraftExperiments.None? ==> Held(ip.includeDraftExperiments, sc.includeDraftExperiments))
    && (p.includeDraftExperimentRefs.None? ==> Held(ip.includeDraftExperimentRefs, sc.includeDraftExperimentRefs))
    && (p.includeExperimentNames.None? ==> Held(ip.includeExperimentNames, sc.includeExperimentNames))
    && (p.includeRedirectExperiments.None? ==> Held(ip.includeRedirectExperiments, sc.includeRedirectExperiments))
    && (p.includeRuleIds.None? ==> Held(ip.includeRuleIds, sc.includeRuleIds))
    && (p.includeProjectIdInMetadata.None? ==> Held(ip.includeProjectIdInMetadata, sc.includeProjectIdInMetadata))
    && (p.includeCustomFieldsInMetadata.None? ==> Held(ip.includeCustomFieldsInMetadata, sc.includeCustomFieldsInMetadata))
    && (p.includeTagsInMetadata.None? ==> Held(ip.includeTagsInMetadata, sc.includeTagsInMetadata))
    && (p.includeExperimentScheduleInMetadata.None? ==> Held(ip.includeExperimentScheduleInMetadata, sc.includeExperimentScheduleInMetadata))
    && (p.proxyEnabled.None? ==> Agrees(ip.proxyEnabled, sc.proxyEnabled))
    && (p.hashSecureAttributes.None? ==> Held(ip.hashSecureAttributes, sc.hashSecureAttributes))
    && (p.remoteEvalEnabled.None? ==> Held(ip.remoteEvalEnabled, sc.remoteEvalEnabled))
    && (p.savedGroupReferencesEnabled.None? ==> Held(ip.savedGroupReferencesEnabled, sc.savedGroupReferencesEnabled))
    && (p.includeReferencedPrerequisites.None? ==> Held(ip.includeReferencedPrerequisites, sc.includeReferencedPrerequisites))
  }

  /** A patch stores every toggle that is set in its own field and leaves the other fields alone. */
  predicate PatchesToggles(t: Toggles, sc: SDKConnection, sc': SDKConnection) {
    && sc'.encryptPayload == Chosen(t.encryptPayload, sc.encryptPayload)
    && sc'.includeVisualExperiments == Or(t.includeVisualExperiments, sc.includeVisualExperiments)
    && sc'.includeDraftExperiments == Or(t.includeDraftExperiments, sc.includeDraftExperiments)
    && sc'.includeDraftExperimentRefs == Or(t.includeDraftExperimentRefs, sc.includeDraftExperimentRefs)
    && sc'.includeExperimentNames == Or(t.includeExperimentNames, sc.includeExperimentNames)
    && sc'.includeRedirectExperiments == Or(t.includeRedirectExperiments, sc.includeRedirectExperiments)
    && sc'.includeRuleIds == Or(t.includeRuleIds, sc.includeRuleIds)
    && sc'.includeProjectIdInMetadata == Or(t.includeProjectIdInMetadata, sc.includeProjectIdInMetadata)
    && sc'.includeCustomFieldsInMetadata == Or(t.includeCustomFieldsInMetadata, sc.includeCustomFieldsInMetadata)
    && sc'.includeTagsInMetadata == Or(t.includeTagsInMetadata, sc.includeTagsInMetadata)
    && sc'.includeExperimentScheduleInMetadata == Or(t.includeExperimentScheduleInMetadata, sc.includeExperimentScheduleInMetadata)
    && sc'.proxyEnabled == Chosen(t.proxyEnabled, sc.proxyEnabled)
    && sc'.hashSecureAttributes == Or(t.hashSecureAttributes, sc.hashSecureAttributes)
    && sc'.remoteEvalEnabled == Or(t.remoteEvalEnabled, sc.remoteEvalEnabled)
    && sc'.savedGroupReferencesEnabled == Or(t.savedGroupReferencesEnabled, sc.savedGroupReferencesEnabled)
    && sc'.includeReferencedPrerequisites == Or(t.includeReferencedPrerequisites, sc.includeReferencedPrerequisites)
  }

  /** Two connections agree in the field of every toggle that is set. */
  predicate AgreeOnToggles(t: Toggles, a: SDKConnection, b: SDKConnection) {
    && (t.encryptPayload.Some? ==> a.encryptPayload == b.encryptPayload)
    && (t.includeVisualExperiments.Some? ==> a.includeVisualExperiments == b.includeVisualExperiments)
    && (t.includeDraftExperiments.Some? ==> a.includeDraftExperiments == b.includeDraftExperiments)
    && (t.includeDraftExperimentRefs.Some? ==> a.includeDraftExperimentRefs == b.includeDraftExperimentRefs)
    && (t.includeExperimentNames.Some? ==> a.includeExperimentNames == b.includeExperimentNames)
    && (t.includeRedirectExperiments.Some? ==> a.includeRedirectExperiments == b.includeRedirectExperiments)
    && (t.includeRuleIds.Some? ==> a.includeRuleIds == b.includeRuleIds)
    && (t.includeProjectIdInMetadata.Some? ==> a.includeProjectIdInMetadata == b.includeProjectIdInMetadata)
    && (t.includeCustomFieldsInMetadata.Some? ==> a.includeCustomFieldsInMetadata == b.includeCustomFieldsInMetadata)
    && (t.includeTagsInMetadata.Some? ==> a.includeTagsInMetadata == b.includeTagsInMetadata)
    && (t.includeExperimentScheduleInMetadata.Some? ==> a.includeExperimentScheduleInMetadata == b.includeExperimentScheduleInMetadata)
    && (t.proxyEnabled.Some? ==> a.proxyEnabled == b.proxyEnabled)
    && (t.hashSecureAttributes.Some? ==> a.hashSecureAttributes == b.hashSecureAttributes)
    && (t.remoteEvalEnabled.Some? ==> a.remoteEvalEnabled == b.remoteEvalEnabled)
    && (t.savedGroupReferencesEnabled.Some? ==> a.savedGroupReferencesEnabled == b.savedGroupReferencesEnabled)
    && (t.includeReferencedPrerequisites.Some? ==> a.includeReferencedPrerequisites == b.includeReferencedPrerequisites)
  }

  /** Two connections agree in every toggle. */
  predicate SameToggleFields(a: SDKConnection, b: SDKConnection) {
    && a.encryptPayload == b.encryptPayload
    && a.includeVisualExperiments == b.includeVisualExperiments
    && a.includeDraftExperiments == b.includeDraftExperiments
    && a.includeDraftExperimentRefs == b.includeDraftExperimentRefs
    && a.includeExperimentNames == b.includeExperimentNames
    && a.includeRedirectExperiments == b.includeRedirectExperiments
    && a.includeRuleIds == b.includeRuleIds
    && a.includeProjectIdInMetadata == b.includeProjectIdInMetadata
    && a.includeCustomFieldsInMetadata == b.includeCustomFieldsInMetadata
    && a.includeTagsInMetadata == b.includeTagsInMetadata
    && a.includeExperimentScheduleInMetadata == b.includeExperimentScheduleInMetadata
    && a.proxyEnabled == b.proxyEnabled
    && a.hashSecureAttributes == b.hashSecureAttributes
    && a.remoteEvalEnabled == b.remoteEvalEnabled
    && a.savedGroupReferencesEnabled == b.savedGroupReferencesEnabled
    && a.includeReferencedPrerequisites == b.includeReferencedPrerequisites
  }

  /** Two stored connections agree on the required fields, up to one language, and on every field the spec sets. */
  predicate AgreeOnManaged(p: SDKConnectionParameters, a: SDKConnection, b: SDKConnection) {
    && a.name == b.name
    && a.environment == b.environment
    && (p.language in a.languages <==> p.language in b.languages)
    && (p.projects.Some? ==> multiset(a.projects) == multiset(b.projects))
    && (p.allowedCustomFields.Some? ==> multiset(a.allowedCustomFields) == multiset(b.allowedCustomFields))
    && (p.sdkVersion.Some? ==> a.sdkVersion == b.sdkVersion)
    && (p.proxyHost.Some? ==> a.proxyHost == b.proxyHost)
    && AgreeOnToggles(p.toggles, a, b)
  }

  /**
   From an up-to-date connection, a change is reported as drift exactly when some managed
   field is among what changed.
   */
  lemma ChangeIsDetectedExactlyWhen(p: SDKConnectionParameters, a: SDKConnection, b: SDKConnection)
    requires UpToDate(p, a)
    ensures !UpToDate(p, b) <==> !AgreeOnManaged(p, a, b)
  {
  }

  lemma TogglesCarry(t: Toggles, a: SDKConnection, b: SDKConnection)
    requires AgreeOnToggles(t, a, b)
    ensures HoldsToggles(t, a) ==> HoldsToggles(t, b)
    ensures AgreeOnToggles(t, b, a)
  {
  }

  lemma ManagedVerdictCarries(p: SDKConnectionParameters, a: SDKConnection, b: SDKConnection)
    requires AgreeOnManaged(p, a, b) && UpToDate(p, a)
    ensures UpToDate(p, b)
  {
    TogglesCarry(p.toggles, a, b);
  }

  /** A field the user left unset never influences the verdict. */
  lemma UnmanagedNeverDrifts(p: SDKConnectionParameters, a: SDKConnection, b: SDKConnection)
    requires AgreeOnManaged(p, a, b)
    ensures UpToDate(p, a) <==> UpToDate(p, b)
  {
    TogglesCarry(p.toggles, a, b);
    if UpToDate(p, a) {
      ManagedVerdictCarries(p, a, b);
    }
    if UpToDate(p, b) {
      ManagedVerdictCarries(p, b, a);
    }
  }

  // ---- Convergence of one Update -------------------------------------------------------------

  /** The request on the wire: empty strings and empty lists are omitted, an unset toggle is too. */
  datatype SDKConnectionBody = SDKConnectionBody(
    name: Option<string>,
    language: Option<string>,
    environment: Option<string>,
    projects: Option<seq<string>>,
    allowedCustomFields: Option<seq<string>>,
    sdkVersion: Option<string>,
    proxyHost: Option<string>,
    toggles: Toggles)

  function OmitEmpty(s: string): Option<string> {
    if s == "" then None else Some(s)
  }

  function Body(p: SDKConnectionParameters): SDKConnectionBody {
    SDKConnectionBody(OmitEmpty(p.name), OmitEmpty(p.language), OmitEmpty(p.environment), NonEmpty(p.projects),
                      NonEmpty(p.allowedCustomFields), p.sdkVersion, p.proxyHost, p.toggles)
  }

  /** An update is partial: a present field is stored, an absent one is left alone. */
  ghost predicate Patches(b: SDKConnectionBody, sc: SDKConnection, sc': SDKConnection) {
    && sc'.name == (if b.name.Some? then b.name.value else sc.name)
    && (if b.language.Some? then b.language.value in sc'.languages else sc'.languages == sc.languages)
    && sc'.environment == (if b.environment.Some? then b.environment.value else sc.environment)
    && (if b.projects.Some? then multiset(sc'.projects) == multiset(b.projects.value) else sc'.projects == sc.projects)
    && (if b.allowedCustomFields.Some? then multiset(sc'.allowedCustomFields) == multiset(b.allowedCustomFields.value)
        else sc'.allowedCustomFields == sc.allowedCustomFields)
    && sc'.sdkVersion == (if b.sdkVersion.Some? then b.sdkVersion.value else sc.sdkVersion)
    && sc'.proxyHost == (if b.proxyHost.Some? then b.proxyHost.value else sc.proxyHost)
    && PatchesToggles(b.toggles, sc, sc')
  }

  /** A create stores every present field. */
  ghost predicate Creates(b: SDKConnectionBody, sc: SDKConnection) {
    && Agrees(b.name, sc.name)
    && (b.language.Some? ==> b.language.value in sc.languages)
    && Agrees(b.environment, sc.environment)
    && SetMatches(b.projects, sc.projects)
    && SetMatches(b.allowedCustomFields, sc.allowedCustomFields)
    && Agrees(b.sdkVersion, sc.sdkVersion)
    && Agrees(b.proxyHost, sc.proxyHost)
    && HoldsToggles(b.toggles, sc)
  }

  /**
   What a create stores for the merged spec is up to date for forProvider alone, given its
   three required strings and no explicitly empty list; and values set only in initProvider
   are stored.
   */
  lemma CreateConverges(p: SDKConnectionParameters, ip: SDKConnectionInitParameters, sc: SDKConnection)
    requires Creates(Body(Merged(p, ip)), sc)
    ensures (p.name != "" && p.language != "" && p.environment != ""
             && p.projects != Some([]) && p.allowedCustomFields != Some([])) ==> UpToDate(p, sc)
    ensures HoldsUnsetToggles(p.toggles, ip.toggles, sc)
    ensures p.sdkVersion.None? ==> Agrees(ip.sdkVersion, sc.sdkVersion)
    ensures p.proxyHost.None? ==> Agrees(ip.proxyHost, sc.proxyHost)
    ensures p.projects.None? && ip.projects != Some([]) ==> SetMatches(ip.projects, sc.projects)
    ensures p.allowedCustomFields.None? && ip.allowedCustomFields != Some([]) ==>
              SetMatches(ip.allowedCustomFields, sc.allowedCustomFields)
    ensures p.name == "" && Deref(ip.name) != "" ==> Agrees(ip.name, sc.name)
    ensures p.language == "" && Deref(ip.language) != "" ==> ip.language.value in sc.languages
    ensures p.environment == "" && Deref(ip.environment) != "" ==> Agrees(ip.environment, sc.environment)
  {
  }

  /** The guard: an empty required string and an explicitly empty list are compared but never sent. */
  predicate Settles(p: SDKConnectionParameters, sc: SDKConnection) {
    && (p.name == "" ==> sc.name == "")
    && (p.environment == "" ==> sc.environment == "")
    && (p.language == "" ==> "" in sc.languages)
    && (p.projects == Some([]) ==> sc.projects == [])
    && (p.allowedCustomFields == Some([]) ==> sc.allowedCustomFields == [])
  }

  lemma EmptySetMatches(got: seq<string>)
    ensures SetMatches(Some([]), got) <==> got == []
  {
    assert |multiset(got)| == |got|;
  }

  /** After a patch every toggle that was sent is held in its own field. */
  lemma PatchedTogglesHold(t: Toggles, sc: SDKConnection, sc': SDKConnection)
    requires PatchesToggles(t, sc, sc')
    ensures HoldsToggles(t, sc')
  {
  }

  /** One update converges exactly when the guard holds. */
  lemma UpdateConvergesExactlyWhen(p: SDKConnectionParameters, sc: SDKConnection, sc': SDKConnection)
    requires Patches(Body(p), sc, sc')
    ensures UpToDate(p, sc') <==> Settles(p, sc)
  {
    PatchedTogglesHold(p.toggles, sc, sc');
    EmptySetMatches(sc'.projects);
    EmptySetMatches(sc'.allowedCustomFields);
  }

  /** Two stored connections agree on every field, the languages as far as the desired one goes. */
  predicate SameConnection(language: string, a: SDKConnection, b: SDKConnection) {
    && a.name == b.name
    && a.environment == b.environment
    && (language in a.languages <==> language in b.languages)
    && multiset(a.projects) == multiset(b.projects)
    && multiset(a.allowedCustomFields) == multiset(b.allowedCustomFields)
    && a.sdkVersion == b.sdkVersion
    && a.proxyHost == b.proxyHost
    && SameToggleFields(a, b)
  }

  /** Drift is exactly "an update would change something". */
  lemma DriftIsExactlyChange(p: SDKConnectionParameters, sc: SDKConnection, sc': SDKConnection)
    requires Patches(Body(p), sc, sc') && Settles(p, sc)
    ensures UpToDate(p, sc) <==> SameConnection(p.language, sc, sc')
  {
    UpdateConvergesExactlyWhen(p, sc, sc');
    EmptySetMatches(sc.projects);
    EmptySetMatches(sc.allowedCustomFields);
  }

  /**
   The field documentation says an empty list of projects clears the scoping. The request
   cannot say so: the stored projects stay, and the connection is reported as drifted for ever.
   */
  lemma EmptyProjectsNeverCleared(p: SDKConnectionParameters, sc: SDKConnection, sc': SDKConnection)
    requires p.projects == Some([]) && sc.projects != [] && Patches(Body(p), sc, sc')
    ensures sc'.projects == sc.projects && !UpToDate(p, sc) && !UpToDate(p, sc')
  {
    EmptySetMatches(sc.projects);
  }
}
