/**
 internal/controller/feature/convert.go: the initProvider merge, the request bodies,
 late initialization and the drift verdict of a Feature.
 */
module FeatureConvert {
  import opened Options
  import opened Decimals
  import opened FeatureTypes
  import opened FeatureWire
  import opened StringSets
  import opened RuleConvert
  import opened RuleDrift

  // ---- initProvider ---------------------------------------------------------------

  function Merged(p: FeatureParameters, ip: FeatureInitParameters): FeatureParameters {
    FeatureParameters(
      if p.valueType != "" then p.valueType else Deref(ip.valueType),
      if p.defaultValue != "" then p.defaultValue else Deref(ip.defaultValue),
      Or(p.description, ip.description), Or(p.project, ip.project), Or(p.tags, ip.tags),
      Or(p.archived, ip.archived), Or(p.owner, ip.owner), Or(p.environments, ip.environments),
      Or(p.rules, ip.rules))
  }

  method MergeInitProvider(p: FeatureParameters, ip: FeatureInitParameters) returns (m: FeatureParameters)
    ensures m == Merged(p, ip)
  {
    m := MergeValueFields(p, ip);
    m := MergeMetadataFields(m, ip);
  }

  method MergeValueFields(p: FeatureParameters, ip: FeatureInitParameters) returns (m: FeatureParameters)
    ensures m == p.(valueType := Merged(p, ip).valueType, defaultValue := Merged(p, ip).defaultValue)
  {
    m := p;
    if m.valueType == "" && ip.valueType.Some? {
      m := m.(valueType := ip.valueType.value);
    }
    if m.defaultValue == "" && ip.defaultValue.Some? {
      m := m.(defaultValue := ip.defaultValue.value);
    }
  }

  method MergeMetadataFields(p: FeatureParameters, ip: FeatureInitParameters) returns (m: FeatureParameters)
    ensures m == Merged(p, ip).(valueType := p.valueType, defaultValue := p.defaultValue)
  {
    m := p;
    if m.description.None? { m := m.(description := ip.description); }
    if m.project.None? { m := m.(project := ip.project); }
    if m.tags.None? { m := m.(tags := ip.tags); }
    if m.archived.None? { m := m.(archived := ip.archived); }
    if m.owner.None? { m := m.(owner := ip.owner); }
    if m.environments.None? { m := m.(environments := ip.environments); }
    if m.rules.None? { m := m.(rules := ip.rules); }
  }

  // ---- Requests -------------------------------------------------------------------

  function ConvertedEnvironments(envs: Option<map<string, EnvironmentSpec>>): Option<map<string, Option<bool>>> {
    if envs.None? then None else Some(map k | k in envs.value :: envs.value[k].enabled)
  }

  method EnvironmentsRequest(envs: Option<map<string, EnvironmentSpec>>)
    returns (r: Option<map<string, Option<bool>>>)
    ensures r == ConvertedEnvironments(envs)
  {
    if envs.None? {
      return None;
    }
    var out: map<string, Option<bool>> := map[];
    var left := envs.value.Keys;
    while left != {}
      invariant left <= envs.value.Keys
      invariant out == map k | k in envs.value.Keys - left :: envs.value[k].enabled
      decreases |left|
    {
      var k :| k in left;
      out := out[k := envs.value[k].enabled];
      left := left - {k};
    }
    assert out == map k | k in envs.value :: envs.value[k].enabled;
    return Some(out);
  }

  /** The body of an update: the mutable fields only, or the error of the first bad coverage. */
  function Updating(parse: ParseFloat, p: FeatureParameters): Result<FeatureRequest, RequestError> {
    var rules := ConvertedRules(parse, p.rules);
    if rules.Failure? then Failure(rules.error)
    else Success(FeatureRequest("", "", p.defaultValue, p.description, p.project, p.tags, p.archived, p.owner,
                                ConvertedEnvironments(p.environments), rules.value))
  }

  method UpdateRequest(parse: ParseFloat, p: FeatureParameters) returns (r: Result<FeatureRequest, RequestError>)
    ensures r == Updating(parse, p)
  {
    var rules := RulesRequest(parse, p.rules);
    if rules.Failure? {
      return Failure(rules.error);
    }
    var environments := EnvironmentsRequest(p.environments);
    return Success(FeatureRequest("", "", p.defaultValue, p.description, p.project, p.tags, p.archived, p.owner,
                                  environments, rules.value));
  }

  /** The body of a create: the merged spec, with the create-only id and valueType. */
  function Creating(parse: ParseFloat, id: string, p: FeatureParameters, ip: FeatureInitParameters)
    : Result<FeatureRequest, RequestError>
  {
    var req := Updating(parse, Merged(p, ip));
    if req.Failure? then req
    else Success(req.value.(id := id, valueType := Merged(p, ip).valueType))
  }

  method CreateRequest(parse: ParseFloat, id: string, p: FeatureParameters, ip: FeatureInitParameters)
    returns (r: Result<FeatureRequest, RequestError>)
    ensures r == Creating(parse, id, p, ip)
  {
    var merged := MergeInitProvider(p, ip);
    r := UpdateRequest(parse, merged);
    if r.Failure? {
      return;
    }
    var req := r.value;
    req := req.(id := id);
    req := req.(valueType := merged.valueType);
    r := Success(req);
  }

  // ---- Late initialization ----------------------------------------------------------

  /** The spec after late initialization, and whether it changed. */
  function LateInit(p: FeatureParameters, ip: FeatureInitParameters, ext: Feature): (FeatureParameters, bool) {
    var description := LateInitPtr(p.description, ip.description, ext.description);
    var owner := if ext.owner != "" then LateInitPtr(p.owner, ip.owner, ext.owner) else (p.owner, false);
    var project := if ext.project != "" then LateInitPtr(p.project, ip.project, ext.project) else (p.project, false);
    (p.(description := description.0, owner := owner.0, project := project.0),
     description.1 || owner.1 || project.1)
  }

  method LateInitialize(p: FeatureParameters, ip: FeatureInitParameters, ext: Feature)
    returns (m: FeatureParameters, changed: bool)
    ensures (m, changed) == LateInit(p, ip, ext)
  {
    m := p;
    var description := LateInitPtr(m.description, ip.description, ext.description);
    m, changed := m.(description := description.0), description.1;
    if ext.owner != "" {
      var owner := LateInitPtr(m.owner, ip.owner, ext.owner);
      m, changed := m.(owner := owner.0), owner.1 || changed;
    }
    if ext.project != "" {
      var project := LateInitPtr(m.project, ip.project, ext.project);
      m, changed := m.(project := project.0), project.1 || changed;
    }
  }

  // ---- The drift verdict ------------------------------------------------------------

  predicate EnvironmentsMatch(want: Option<map<string, EnvironmentSpec>>, got: map<string, bool>) {
    want.Some? ==>
      forall k :: k in want.value && want.value[k].enabled.Some? ==>
        k in got && got[k] == want.value[k].enabled.value
  }

  method EnvironmentsUpToDate(want: Option<map<string, EnvironmentSpec>>, got: map<string, bool>) returns (r: bool)
    ensures r <==> EnvironmentsMatch(want, got)
  {
    if want.None? {
      return true;
    }
    var left := want.value.Keys;
    while left != {}
      invariant left <= want.value.Keys
      invariant forall k :: k in want.value.Keys - left && want.value[k].enabled.Some? ==>
        k in got && got[k] == want.value[k].enabled.value
      decreases |left|
    {
      var k :| k in left;
      var w := want.value[k];
      left := left - {k};
      if w.enabled.None? {
        continue;
      }
      if k !in got || got[k] != w.enabled.value {
        return false;
      }
    }
    return true;
  }

  predicate TagsMatch(want: Option<seq<string>>, got: seq<string>) {
    want.Some? ==> multiset(want.value) == multiset(got)
  }

  predicate UpToDate(parse: ParseFloat, p: FeatureParameters, ext: Feature) {
    && p.valueType == ext.valueType
    && p.defaultValue == ext.defaultValue
    && Agrees(p.description, ext.description)
    && Agrees(p.project, ext.project)
    && Agrees(p.archived, ext.archived)
    && Agrees(p.owner, ext.owner)
    && TagsMatch(p.tags, ext.tags)
    && EnvironmentsMatch(p.environments, ext.environments)
    && RulesMatch(parse, p.rules, ext.rules)
  }

  method OwnershipUpToDate(p: FeatureParameters, ext: Feature) returns (r: bool)
    ensures r <==> Agrees(p.archived, ext.archived) && Agrees(p.owner, ext.owner) && TagsMatch(p.tags, ext.tags)
  {
    if p.archived.Some? && p.archived.value != ext.archived {
      return false;
    } else if p.owner.Some? && p.owner.value != ext.owner {
      return false;
    }
    if p.tags.Some? {
      var same := SameLists(p.tags.value, ext.tags);
      if !same {
        return false;
      }
    }
    return true;
  }

  method MetadataUpToDate(p: FeatureParameters, ext: Feature) returns (r: bool)
    ensures r <==> Agrees(p.description, ext.description) && Agrees(p.project, ext.project)
                   && Agrees(p.archived, ext.archived) && Agrees(p.owner, ext.owner) && TagsMatch(p.tags, ext.tags)
  {
    if p.description.Some? && p.description.value != ext.description {
      return false;
    } else if p.project.Some? && p.project.value != ext.project {
      return false;
    }
    r := OwnershipUpToDate(p, ext);
  }

  method IsUpToDate(parse: ParseFloat, p: FeatureParameters, ext: Feature) returns (r: bool)
    ensures r <==> UpToDate(parse, p, ext)
  {
    if !(p.valueType == ext.valueType && p.defaultValue == ext.defaultValue) {
      return false;
    }
    r := MetadataUpToDate(p, ext);
    if r {
      r := EnvironmentsUpToDate(p.environments, ext.environments);
    }
    if r {
      r := RulesUpToDate(parse, p.rules, ext.rules);
    }
  }
}
