/**
 internal/controller/environment/convert.go and internal/clients/growthbook/environment.go:
 merge, requests, wire, late initialization and drift verdict of an Environment.
 */
module EnvironmentConvert {
  import opened Options
  import opened StringSets

  datatype EnvironmentParameters = EnvironmentParameters(
    description: Option<string>,
    toggleOnList: Option<bool>,
    defaultState: Option<bool>,
    projects: Option<seq<string>>,
    parent: Option<string>)

  /** Every field is optional in both halves of the spec. */
  type EnvironmentInitParameters = EnvironmentParameters

  datatype Environment = Environment(
    id: string,
    description: string,
    toggleOnList: bool,
    defaultState: bool,
    projects: seq<string>,
    parent: string)

  datatype EnvironmentRequest = EnvironmentRequest(
    id: string,
    description: Option<string>,
    toggleOnList: Option<bool>,
    defaultState: Option<bool>,
    projects: Option<seq<string>>,
    parent: Option<string>)

  /** The request on the wire: an empty id and an empty list are omitted. */
  datatype EnvironmentBody = EnvironmentBody(
    id: Option<string>,
    description: Option<string>,
    toggleOnList: Option<bool>,
    defaultState: Option<bool>,
    projects: Option<seq<string>>,
    parent: Option<string>)

  function Encode(req: EnvironmentRequest): EnvironmentBody {
    EnvironmentBody(if req.id == "" then None else Some(req.id), req.description, req.toggleOnList, req.defaultState,
                    NonEmpty(req.projects), req.parent)
  }

  function Merged(p: EnvironmentParameters, ip: EnvironmentInitParameters): EnvironmentParameters {
    EnvironmentParameters(Or(p.description, ip.description), Or(p.toggleOnList, ip.toggleOnList),
                          Or(p.defaultState, ip.defaultState), Or(p.projects, ip.projects), Or(p.parent, ip.parent))
  }

  method MergeInitProvider(p: EnvironmentParameters, ip: EnvironmentInitParameters) returns (m: EnvironmentParameters)
    ensures m == Merged(p, ip)
  {
    m := p;
    if m.description.None? { m := m.(description := ip.description); }
    if m.toggleOnList.None? { m := m.(toggleOnList := ip.toggleOnList); }
    if m.defaultState.None? { m := m.(defaultState := ip.defaultState); }
    if m.projects.None? { m := m.(projects := ip.projects); }
    if m.parent.None? { m := m.(parent := ip.parent); }
  }

  function UpdateRequest(p: EnvironmentParameters): EnvironmentRequest {
    EnvironmentRequest("", p.description, p.toggleOnList, p.defaultState, p.projects, None)
  }

  function Creating(id: string, p: EnvironmentParameters, ip: EnvironmentInitParameters): EnvironmentRequest {
    UpdateRequest(Merged(p, ip)).(id := id, parent := Merged(p, ip).parent)
  }

  method CreateRequest(id: string, p: EnvironmentParameters, ip: EnvironmentInitParameters)
    returns (req: EnvironmentRequest)
    ensures req == Creating(id, p, ip)
  {
    var merged := MergeInitProvider(p, ip);
    req := UpdateRequest(merged);
    req := req.(id := id);
    req := req.(parent := merged.parent);
  }

  /** `UpdateEnvironment` drops id and parent: the API rejects them on update. */
  function UpdateBody(p: EnvironmentParameters): EnvironmentBody {
    Encode(UpdateRequest(p).(id := "", parent := None))
  }

  function CreateBody(id: string, p: EnvironmentParameters, ip: EnvironmentInitParameters): EnvironmentBody {
    Encode(Creating(id, p, ip))
  }

  // ---- Late initialization -------------------------------------------------------------

  function LateInit(p: EnvironmentParameters, ip: EnvironmentInitParameters, ext: Environment)
    : (EnvironmentParameters, bool)
  {
    var description := LateInitPtr(p.description, ip.description, ext.description);
    var toggleOnList := LateInitPtr(p.toggleOnList, ip.toggleOnList, ext.toggleOnList);
    var defaultState := LateInitPtr(p.defaultState, ip.defaultState, ext.defaultState);
    var parent := if ext.parent != "" then LateInitPtr(p.parent, ip.parent, ext.parent) else (p.parent, false);
    (p.(description := description.0, toggleOnList := toggleOnList.0, defaultState := defaultState.0, parent := parent.0),
     description.1 || toggleOnList.1 || defaultState.1 || parent.1)
  }

  method LateInitialize(p: EnvironmentParameters, ip: EnvironmentInitParameters, ext: Environment)
    returns (m: EnvironmentParameters, changed: bool)
    ensures (m, changed) == LateInit(p, ip, ext)
  {
    m := p;
    var description := LateInitPtr(m.description, ip.description, ext.description);
    m, changed := m.(description := description.0), description.1;
    var toggleOnList := LateInitPtr(m.toggleOnList, ip.toggleOnList, ext.toggleOnList);
    m, changed := m.(toggleOnList := toggleOnList.0), toggleOnList.1 || changed;
    var defaultState := LateInitPtr(m.defaultState, ip.defaultState, ext.defaultState);
    m, changed := m.(defaultState := defaultState.0), defaultState.1 || changed;
    if ext.parent != "" {
      var parent := LateInitPtr(m.parent, ip.parent, ext.parent);
      m, changed := m.(parent := parent.0), parent.1 || changed;
    }
  }

  // ---- The drift verdict ---------------------------------------------------------------

  predicate UpToDate(p: EnvironmentParameters, ext: Environment) {
    && Agrees(p.description, ext.description)
    && Agrees(p.toggleOnList, ext.toggleOnList)
    && Agrees(p.defaultState, ext.defaultState)
    && (p.projects.Some? ==> multiset(p.projects.value) == multiset(ext.projects))
  }

  method IsUpToDate(p: EnvironmentParameters, ext: Environment) returns (r: bool)
    ensures r <==> UpToDate(p, ext)
  {
    if p.description.Some? && p.description.value != ext.description {
      return false;
    } else if p.toggleOnList.Some? && p.toggleOnList.value != ext.toggleOnList {
      return false;
    } else if p.defaultState.Some? && p.defaultState.value != ext.defaultState {
      return false;
    } else if p.projects.None? {
      return true;
    }
    r := SameLists(p.projects.value, ext.projects);
  }

  // ---- What the API does with a body -----------------------------------------------------

  ghost predicate Stores(b: EnvironmentBody, e: Environment) {
    && Agrees(b.description, e.description)
    && Agrees(b.toggleOnList, e.toggleOnList)
    && Agrees(b.defaultState, e.defaultState)
    && (b.projects.Some? ==> multiset(b.projects.value) == multiset(e.projects))
    && Agrees(b.parent, e.parent)
  }

  /** An update is partial: an absent field is left alone. */
  ghost predicate Patches(b: EnvironmentBody, e: Environment, e': Environment) {
    && Stores(b, e')
    && e'.id == e.id
    && (b.description.None? ==> e'.description == e.description)
    && (b.toggleOnList.None? ==> e'.toggleOnList == e.toggleOnList)
    && (b.defaultState.None? ==> e'.defaultState == e.defaultState)
    && (b.projects.None? ==> e'.projects == e.projects)
    && (b.parent.None? ==> e'.parent == e.parent)
  }

  /** A patch that stores what is sent as it is sent. */
  function PlainPatch(b: EnvironmentBody, e: Environment): (e': Environment)
    ensures Patches(b, e, e')
  {
    Environment(e.id, Chosen(b.description, e.description), Chosen(b.toggleOnList, e.toggleOnList),
                Chosen(b.defaultState, e.defaultState), Chosen(b.projects, e.projects), Chosen(b.parent, e.parent))
  }

  /** The guard: an empty list of projects is compared but never sent. */
  predicate Settles(p: EnvironmentParameters, e: Environment) {
    p.projects == Some([]) ==> e.projects == []
  }

  /** One update converges exactly when the guard holds, and never changes whether it holds. */
  lemma UpdateConvergesExactlyWhen(p: EnvironmentParameters, e: Environment, e': Environment)
    requires Patches(UpdateBody(p), e, e')
    ensures UpToDate(p, e') <==> Settles(p, e)
    ensures Settles(p, e') <==> Settles(p, e)
  {
    if p.projects == Some([]) {
      assert |multiset(e'.projects)| == |e'.projects|;
    }
  }

  /** Drift is exactly "an update would change something", up to the order of the projects. */
  lemma DriftIsExactlyChange(p: EnvironmentParameters, e: Environment, e': Environment)
    requires Patches(UpdateBody(p), e, e') && Settles(p, e)
    ensures UpToDate(p, e) <==>
            e.(projects := []) == e'.(projects := []) && multiset(e.projects) == multiset(e'.projects)
  {
    UpdateConvergesExactlyWhen(p, e, e');
  }

  /** What a create stores is up to date for forProvider alone, unless its projects are explicitly empty. */
  lemma CreateConverges(id: string, p: EnvironmentParameters, ip: EnvironmentInitParameters, e: Environment)
    requires Stores(CreateBody(id, p, ip), e)
    ensures UpToDate(p, e) <==> Settles(p, e)
  {
    if p.projects == Some([]) {
      assert |multiset(e.projects)| == |e.projects|;
    }
  }

  /** Values set only in initProvider are applied at creation, the create-only parent included. */
  lemma InitProviderIsStored(id: string, p: EnvironmentParameters, ip: EnvironmentInitParameters, e: Environment)
    requires Stores(CreateBody(id, p, ip), e)
    ensures p.description.None? ==> Agrees(ip.description, e.description)
    ensures p.toggleOnList.None? ==> Agrees(ip.toggleOnList, e.toggleOnList)
    ensures p.defaultState.None? ==> Agrees(ip.defaultState, e.defaultState)
    ensures p.projects.None? && ip.projects.Some? && ip.projects != Some([]) ==>
              multiset(ip.projects.value) == multiset(e.projects)
    ensures Agrees(p.parent, e.parent) && (p.parent.None? ==> Agrees(ip.parent, e.parent))
  {
  }

  /** Late initialization fills every open field the server has a value for, and touches nothing else. */
  lemma LateInitFillsOpenFields(p: EnvironmentParameters, ip: EnvironmentInitParameters, ext: Environment)
    ensures var (q, changed) := LateInit(p, ip, ext);
            && q.projects == p.projects
            && (q.description != p.description <==> p.description.None? && ip.description.None?)
            && (q.toggleOnList != p.toggleOnList <==> p.toggleOnList.None? && ip.toggleOnList.None?)
            && (q.defaultState != p.defaultState <==> p.defaultState.None? && ip.defaultState.None?)
            && (q.parent != p.parent <==> p.parent.None? && ip.parent.None? && ext.parent != "")
            && (q != p <==> changed)
            && (q.description != p.description ==> Agrees(q.description, ext.description))
            && (q.toggleOnList != p.toggleOnList ==> Agrees(q.toggleOnList, ext.toggleOnList))
            && (q.defaultState != p.defaultState ==> Agrees(q.defaultState, ext.defaultState))
            && (q.parent != p.parent ==> Agrees(q.parent, ext.parent))
            && (changed && UpToDate(p, ext) ==> UpToDate(q, ext))
  {
  }

  lemma LateInitKeepsVerdict(p: EnvironmentParameters, ip: EnvironmentInitParameters, ext: Environment)
    ensures UpToDate(LateInit(p, ip, ext).0, ext) <==> UpToDate(p, ext)
    ensures LateInit(LateInit(p, ip, ext).0, ip, ext) == (LateInit(p, ip, ext).0, false)
  {
  }

  // ---- Bodies, field by field --------------------------------------------------------------

  /** The mutable fields of a body are those of the spec; an empty list of projects is left out. */
  predicate Says(p: EnvironmentParameters, b: EnvironmentBody) {
    && b.description == p.description
    && b.toggleOnList == p.toggleOnList
    && b.defaultState == p.defaultState
    && b.projects == (if p.projects == Some([]) then None else p.projects)
  }

  /** In every field m has what forProvider sets, and where it sets nothing what initProvider does. */
  predicate TakesFirst(p: EnvironmentParameters, ip: EnvironmentInitParameters, m: EnvironmentParameters) {
    && m.description == (if p.description.Some? then p.description else ip.description)
    && m.toggleOnList == (if p.toggleOnList.Some? then p.toggleOnList else ip.toggleOnList)
    && m.defaultState == (if p.defaultState.Some? then p.defaultState else ip.defaultState)
    && m.projects == (if p.projects.Some? then p.projects else ip.projects)
    && m.parent == (if p.parent.Some? then p.parent else ip.parent)
  }

  /** An update says what forProvider asks; a create what both halves ask, with the id and the parent. */
  lemma BodiesSay(id: string, p: EnvironmentParameters, ip: EnvironmentInitParameters, m: EnvironmentParameters)
    requires TakesFirst(p, ip, m)
    ensures Says(p, UpdateBody(p)) && UpdateBody(p).id == None && UpdateBody(p).parent == None
    ensures Says(m, CreateBody(id, p, ip)) && CreateBody(id, p, ip).parent == m.parent
    ensures CreateBody(id, p, ip).id == if id == "" then None else Some(id)
  {
  }
}
