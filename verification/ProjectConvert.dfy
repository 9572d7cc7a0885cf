/**
 internal/controller/project/convert.go and the wire of internal/clients/growthbook/project.go:
 merge, requests, decimals, late initialization and drift verdict of a Project.
 */
module ProjectConvert {
  import opened Options
  import opened Decimals

  datatype SettingsSpec = SettingsSpec(
    statsEngine: Option<string>,
    confidenceLevel: Option<string>,
    pValueThreshold: Option<string>)

  datatype ProjectParameters = ProjectParameters(
    name: string,
    description: Option<string>,
    publicId: Option<string>,
    restrictAccess: Option<bool>,
    settings: Option<SettingsSpec>)

  datatype ProjectInitParameters = ProjectInitParameters(
    name: Option<string>,
    description: Option<string>,
    publicId: Option<string>,
    restrictAccess: Option<bool>,
    settings: Option<SettingsSpec>)

  datatype Settings = Settings(
    statsEngine: Option<string>,
    confidenceLevel: Option<Float>,
    pValueThreshold: Option<Float>)

  datatype Project = Project(
    id: string,
    name: string,
    description: string,
    publicId: string,
    restrictAccess: Option<bool>,
    settings: Option<Settings>)

  datatype ProjectRequest = ProjectRequest(
    name: string,
    description: Option<string>,
    publicId: Option<string>,
    restrictAccess: Option<bool>,
    settings: Option<Settings>)

  datatype SettingsBody = SettingsBody(
    statsEngine: Option<string>,
    confidenceLevel: Option<real>,
    pValueThreshold: Option<real>)

  /** The request on the wire: an empty name is omitted. */
  datatype ProjectBody = ProjectBody(
    name: Option<string>,
    description: Option<string>,
    publicId: Option<string>,
    restrictAccess: Option<bool>,
    settings: Option<SettingsBody>)

  /** Why a write never reaches the server. */
  datatype SendError = NotDecimal(field: string) | Unencodable

  // ---- Merge and request --------------------------------------------------------------

  function Merged(p: ProjectParameters, ip: ProjectInitParameters): ProjectParameters {
    ProjectParameters(if p.name != "" then p.name else Deref(ip.name),
                      Or(p.description, ip.description), Or(p.publicId, ip.publicId),
                      Or(p.restrictAccess, ip.restrictAccess), Or(p.settings, ip.settings))
  }

  method MergeInitProvider(p: ProjectParameters, ip: ProjectInitParameters) returns (m: ProjectParameters)
    ensures m == Merged(p, ip)
  {
    m := p;
    if m.name == "" && ip.name.Some? { m := m.(name := ip.name.value); }
    if m.description.None? { m := m.(description := ip.description); }
    if m.publicId.None? { m := m.(publicId := ip.publicId); }
    if m.restrictAccess.None? { m := m.(restrictAccess := ip.restrictAccess); }
    if m.settings.None? { m := m.(settings := ip.settings); }
  }

  function ParseDecimal(parse: ParseFloat, field: string, s: Option<string>): Result<Option<Float>, SendError> {
    if s.None? then Success(None)
    else if parse(s.value).None? then Failure(NotDecimal(field))
    else Success(parse(s.value))
  }

  function Requested(parse: ParseFloat, p: ProjectParameters): Result<ProjectRequest, SendError> {
    var req := ProjectRequest(p.name, p.description, p.publicId, p.restrictAccess, None);
    if p.settings.None? then Success(req)
    else
      var level := ParseDecimal(parse, "confidenceLevel", p.settings.value.confidenceLevel);
      var threshold := ParseDecimal(parse, "pValueThreshold", p.settings.value.pValueThreshold);
      if level.Failure? then Failure(level.error)
      else if threshold.Failure? then Failure(threshold.error)
      else Success(req.(settings := Some(Settings(p.settings.value.statsEngine, level.value, threshold.value))))
  }

  method Request(parse: ParseFloat, p: ProjectParameters) returns (r: Result<ProjectRequest, SendError>)
    ensures r == Requested(parse, p)
  {
    var req := ProjectRequest(p.name, p.description, p.publicId, p.restrictAccess, None);
    if p.settings.None? {
      return Success(req);
    }
    var s := Settings(p.settings.value.statsEngine, None, None);
    var level := ParseDecimal(parse, "confidenceLevel", p.settings.value.confidenceLevel);
    if level.Failure? {
      return Failure(level.error);
    }
    s := s.(confidenceLevel := level.value);
    var threshold := ParseDecimal(parse, "pValueThreshold", p.settings.value.pValueThreshold);
    if threshold.Failure? {
      return Failure(threshold.error);
    }
    s := s.(pValueThreshold := threshold.value);
    req := req.(settings := Some(s));
    return Success(req);
  }

  method CreateRequest(parse: ParseFloat, p: ProjectParameters, ip: ProjectInitParameters)
    returns (r: Result<ProjectRequest, SendError>)
    ensures r == Requested(parse, Merged(p, ip))
  {
    var merged := MergeInitProvider(p, ip);
    r := Request(parse, merged);
  }

  /** JSON has no NaN and no infinity. */
  predicate Finitely(f: Option<Float>) {
    f.Some? ==> f.value.Finite?
  }

  predicate FiniteSettings(s: Option<Settings>) {
    s.Some? ==> Finitely(s.value.confidenceLevel) && Finitely(s.value.pValueThreshold)
  }

  function Number(f: Option<Float>): Option<real>
    requires Finitely(f)
  {
    if f.None? then None else Some(f.value.value)
  }

  function Encode(req: ProjectRequest): ProjectBody
    requires FiniteSettings(req.settings)
  {
    ProjectBody(if req.name == "" then None else Some(req.name), req.description, req.publicId, req.restrictAccess,
                if req.settings.None? then None
                else Some(SettingsBody(req.settings.value.statsEngine, Number(req.settings.value.confidenceLevel),
                                       Number(req.settings.value.pValueThreshold))))
  }

  function Body(parse: ParseFloat, p: ProjectParameters): Result<ProjectBody, SendError> {
    var req := Requested(parse, p);
    if req.Failure? then Failure(req.error)
    else if !FiniteSettings(req.value.settings) then Failure(Unencodable)
    else Success(Encode(req.value))
  }

  // ---- Late initialization ---------------------------------------------------------------

  function LateInit(p: ProjectParameters, ip: ProjectInitParameters, ext: Project): (ProjectParameters, bool) {
    if p.publicId.Some? || ip.publicId.Some? || ext.publicId == "" then (p, false)
    else (p.(publicId := Some(ext.publicId)), true)
  }

  // ---- The drift verdict --------------------------------------------------------------------

  predicate DecimalEqual(parse: ParseFloat, desired: Option<string>, actual: Option<Float>) {
    desired.Some? ==>
      actual.Some? && parse(desired.value).Some? && FloatEq(parse(desired.value).value, actual.value)
  }

  predicate SettingsUpToDate(parse: ParseFloat, desired: Option<SettingsSpec>, actual: Option<Settings>) {
    if desired.None? then true
    else if actual.None? then desired.value == SettingsSpec(None, None, None)
    else
      && (desired.value.statsEngine.Some? ==> desired.value.statsEngine.value == Deref(actual.value.statsEngine))
      && DecimalEqual(parse, desired.value.confidenceLevel, actual.value.confidenceLevel)
      && DecimalEqual(parse, desired.value.pValueThreshold, actual.value.pValueThreshold)
  }

  predicate UpToDate(parse: ParseFloat, p: ProjectParameters, ext: Project) {
    && p.name == ext.name
    && Agrees(p.description, ext.description)
    && Agrees(p.publicId, ext.publicId)
    && Agrees(p.restrictAccess, DerefBool(ext.restrictAccess))
    && SettingsUpToDate(parse, p.settings, ext.settings)
  }

  // ---- What the API does with a body ----------------------------------------------------------

  predicate StoresSettings(b: SettingsBody, s: Option<Settings>) {
    b != SettingsBody(None, None, None) ==>
      && s.Some?
      && (b.statsEngine.Some? ==> Deref(s.value.statsEngine) == b.statsEngine.value)
      && (b.confidenceLevel.Some? ==> s.value.confidenceLevel == Some(Finite(b.confidenceLevel.value)))
      && (b.pValueThreshold.Some? ==> s.value.pValueThreshold == Some(Finite(b.pValueThreshold.value)))
  }

  /** Every present field is stored; the server chooses the absent ones. */
  ghost predicate Stores(b: ProjectBody, f: Project) {
    && Agrees(b.name, f.name)
    && Agrees(b.description, f.description)
    && Agrees(b.publicId, f.publicId)
    && Agrees(b.restrictAccess, f.restrictAccess == Some(true))
    && (b.settings.Some? ==> StoresSettings(b.settings.value, f.settings))
  }

  /** An update is partial: an absent field is left alone. */
  ghost predicate Patches(b: ProjectBody, f: Project, f': Project) {
    && Stores(b, f')
    && f'.id == f.id
    && (b.name.None? ==> f'.name == f.name)
    && (b.description.None? ==> f'.description == f.description)
    && (b.publicId.None? ==> f'.publicId == f.publicId)
    && (b.restrictAccess.None? ==> f'.restrictAccess == f.restrictAccess)
    && (b.settings.None? ==> f'.settings == f.settings)
  }

  /** A patch that stores what is sent as it is sent. */
  function PlainPatch(b: ProjectBody, f: Project): (f': Project)
    ensures Patches(b, f, f')
  {
    Project(f.id, Chosen(b.name, f.name), Chosen(b.description, f.description), Chosen(b.publicId, f.publicId),
            Or(b.restrictAccess, f.restrictAccess),
            if b.settings.None? then f.settings
            else Some(Settings(b.settings.value.statsEngine,
                               AsNumber(b.settings.value.confidenceLevel), AsNumber(b.settings.value.pValueThreshold))))
  }

  function AsNumber(sent: Option<real>): Option<Float> {
    if sent.None? then None else Some(Finite(sent.value))
  }

  lemma StoredSettingsMatch(parse: ParseFloat, p: ProjectParameters, s: Option<Settings>)
    requires p.settings.Some? && Body(parse, p).Success?
    requires StoresSettings(Body(parse, p).value.settings.value, s)
    ensures SettingsUpToDate(parse, p.settings, s)
  {
  }

  /**
   A decimal sent and read back is up to date: one update converges exactly when the name is
   sent or already empty.
   */
  lemma UpdateConvergesExactlyWhen(parse: ParseFloat, p: ProjectParameters, f: Project, f': Project)
    requires Body(parse, p).Success? && Patches(Body(parse, p).value, f, f')
    ensures UpToDate(parse, p, f') <==> (p.name != "" || f.name == "")
  {
    if p.settings.Some? {
      StoredSettingsMatch(parse, p, f'.settings);
    }
  }

  /** Two stored settings agree on every setting the spec sets. */
  predicate SameSettings(want: Option<SettingsSpec>, a: Option<Settings>, b: Option<Settings>) {
    want.Some? && want.value != SettingsSpec(None, None, None) ==>
      && a.Some? == b.Some?
      && (a.Some? ==>
            && (want.value.statsEngine.Some? ==> Deref(a.value.statsEngine) == Deref(b.value.statsEngine))
            && (want.value.confidenceLevel.Some? ==> a.value.confidenceLevel == b.value.confidenceLevel)
            && (want.value.pValueThreshold.Some? ==> a.value.pValueThreshold == b.value.pValueThreshold))
  }

  /** Two stored projects agree on every field an update can change on purpose. */
  predicate SameProject(p: ProjectParameters, a: Project, b: Project) {
    && a.name == b.name
    && a.description == b.description
    && a.publicId == b.publicId
    && (a.restrictAccess == Some(true) <==> b.restrictAccess == Some(true))
    && SameSettings(p.settings, a.settings, b.settings)
  }

  /** Drift is exactly "an update would change something the spec manages". */
  lemma DriftIsExactlyChange(parse: ParseFloat, p: ProjectParameters, f: Project, f': Project)
    requires Body(parse, p).Success? && Patches(Body(parse, p).value, f, f')
    requires p.name != "" || f.name == ""
    ensures UpToDate(parse, p, f) <==> SameProject(p, f, f')
  {
    UpdateConvergesExactlyWhen(parse, p, f, f');
  }

  /** What a create stores for the merged body is up to date for forProvider alone, whenever its name is set. */
  lemma CreateConverges(parse: ParseFloat, p: ProjectParameters, ip: ProjectInitParameters, f: Project)
    requires Body(parse, Merged(p, ip)).Success? && Stores(Body(parse, Merged(p, ip)).value, f)
    ensures UpToDate(parse, p, f) <==> p.name == f.name
    ensures p.name != "" ==> UpToDate(parse, p, f)
  {
    if Merged(p, ip).settings.Some? {
      StoredSettingsMatch(parse, Merged(p, ip), f.settings);
    }
  }

  /** Values set only in initProvider are applied at creation. */
  lemma InitProviderIsStored(parse: ParseFloat, p: ProjectParameters, ip: ProjectInitParameters, f: Project)
    requires Body(parse, Merged(p, ip)).Success? && Stores(Body(parse, Merged(p, ip)).value, f)
    ensures p.name == "" && Deref(ip.name) != "" ==> Agrees(ip.name, f.name)
    ensures p.description.None? ==> Agrees(ip.description, f.description)
    ensures p.publicId.None? ==> Agrees(ip.publicId, f.publicId)
    ensures p.restrictAccess.None? ==> Agrees(ip.restrictAccess, f.restrictAccess == Some(true))
    ensures p.settings.None? ==> SettingsUpToDate(parse, ip.settings, f.settings)
  {
    if Merged(p, ip).settings.Some? {
      StoredSettingsMatch(parse, Merged(p, ip), f.settings);
    }
  }

  /** An unparseable or infinite threshold is drift against every stored project, so the error surfaces. */
  lemma BadSpecIsNeverUpToDate(parse: ParseFloat, p: ProjectParameters, f: Project)
    requires Body(parse, p).Failure? && FiniteSettings(f.settings)
    ensures !UpToDate(parse, p, f)
  {
  }

  /** Numerically equal spellings never differ in verdict, whatever is stored. */
  lemma SpellingsShareVerdict(parse: ParseFloat, round: real -> real, s: string, t: string, actual: Option<Float>)
    requires ReadsDecimals(parse, round) && InGrammar(s) && InGrammar(t)
    requires s[0] == t[0] && Trim(Fraction(s)) == Trim(Fraction(t))
    ensures DecimalEqual(parse, Some(s), actual) <==> DecimalEqual(parse, Some(t), actual)
  {
    SpellingsOfOneNumber(s, t);
  }

  /** Every threshold the CRD admits can be sent. */
  lemma AdmittedSpecCanBeSent(parse: ParseFloat, round: real -> real, p: ProjectParameters)
    requires IsRounding(round) && ReadsDecimals(parse, round)
    requires p.settings.Some? ==>
               && (p.settings.value.confidenceLevel.Some? ==> InGrammar(p.settings.value.confidenceLevel.value))
               && (p.settings.value.pValueThreshold.Some? ==> InGrammar(p.settings.value.pValueThreshold.value))
    ensures Body(parse, p).Success?
  {
    if p.settings.Some? && p.settings.value.confidenceLevel.Some? {
      GrammarParsesIntoUnit(parse, round, p.settings.value.confidenceLevel.value);
    }
    if p.settings.Some? && p.settings.value.pValueThreshold.Some? {
      GrammarParsesIntoUnit(parse, round, p.settings.value.pValueThreshold.value);
    }
  }

  lemma LateInitKeepsVerdict(parse: ParseFloat, p: ProjectParameters, ip: ProjectInitParameters, ext: Project)
    ensures UpToDate(parse, LateInit(p, ip, ext).0, ext) <==> UpToDate(parse, p, ext)
    ensures LateInit(LateInit(p, ip, ext).0, ip, ext) == (LateInit(p, ip, ext).0, false)
  {
  }

  /**
   Late initialization fills an open public id the server has a value for, with that value,
   and touches nothing else.
   */
  lemma LateInitFillsOpenFields(p: ProjectParameters, ip: ProjectInitParameters, ext: Project)
    ensures var (q, changed) := LateInit(p, ip, ext);
            && q.(publicId := p.publicId) == p
            && q.publicId == (if p.publicId.None? && ip.publicId.None? && ext.publicId != "" then Some(ext.publicId) else p.publicId)
            && (changed <==> q != p)
  {
  }

  // ---- Bodies, field by field ---------------------------------------------------------------

  /** A decimal on the wire is the finite number its string reads as; an unset one is absent. */
  predicate SaysDecimal(parse: ParseFloat, want: Option<string>, sent: Option<real>) {
    if want.None? then sent == None else sent.Some? && parse(want.value) == Some(Finite(sent.value))
  }

  /** The body says what the spec asks in every field; an empty name is left out. */
  predicate Says(parse: ParseFloat, p: ProjectParameters, b: ProjectBody) {
    && b.name == (if p.name == "" then None else Some(p.name))
    && b.description == p.description
    && b.publicId == p.publicId
    && b.restrictAccess == p.restrictAccess
    && (b.settings.Some? <==> p.settings.Some?)
    && (p.settings.Some? ==>
          && b.settings.value.statsEngine == p.settings.value.statsEngine
          && SaysDecimal(parse, p.settings.value.confidenceLevel, b.settings.value.confidenceLevel)
          && SaysDecimal(parse, p.settings.value.pValueThreshold, b.settings.value.pValueThreshold))
  }

  /** In every field m has what forProvider sets, and where it sets nothing what initProvider does. */
  predicate TakesFirst(p: ProjectParameters, ip: ProjectInitParameters, m: ProjectParameters) {
    && m.name == (if p.name != "" || ip.name.None? then p.name else ip.name.value)
    && m.description == (if p.description.Some? then p.description else ip.description)
    && m.publicId == (if p.publicId.Some? then p.publicId else ip.publicId)
    && m.restrictAccess == (if p.restrictAccess.Some? then p.restrictAccess else ip.restrictAccess)
    && m.settings == (if p.settings.Some? then p.settings else ip.settings)
  }

  /** The body of an update says what forProvider asks. */
  lemma BodySays(parse: ParseFloat, p: ProjectParameters)
    requires Body(parse, p).Success?
    ensures Says(parse, p, Body(parse, p).value)
  {
  }

  /** The body of a create says what both halves ask. */
  lemma CreateBodySays(parse: ParseFloat, p: ProjectParameters, ip: ProjectInitParameters, m: ProjectParameters)
    requires TakesFirst(p, ip, m) && Body(parse, Merged(p, ip)).Success?
    ensures Says(parse, m, Body(parse, Merged(p, ip)).value)
  {
    assert m == Merged(p, ip);
    BodySays(parse, m);
  }

  /** A threshold that can be sent: unset, or a string that reads as a finite number. */
  predicate IsSendable(parse: ParseFloat, decimal: Option<string>) {
    decimal.Some? ==> parse(decimal.value).Some? && parse(decimal.value).value.Finite?
  }

  /**
   A spec is sent exactly when both thresholds can be; one that does not parse is named, the
   confidence level first.
   */
  lemma SendableExactlyWhen(parse: ParseFloat, p: ProjectParameters)
    ensures Body(parse, p).Success?
            <==> (p.settings.Some? ==> IsSendable(parse, p.settings.value.confidenceLevel)
                                       && IsSendable(parse, p.settings.value.pValueThreshold))
    ensures p.settings.Some? && p.settings.value.confidenceLevel.Some? && parse(p.settings.value.confidenceLevel.value).None? ==>
              Body(parse, p) == Failure(NotDecimal("confidenceLevel"))
    ensures p.settings.Some? && IsSendable(parse, p.settings.value.confidenceLevel)
            && p.settings.value.pValueThreshold.Some? && parse(p.settings.value.pValueThreshold.value).None? ==>
              Body(parse, p) == Failure(NotDecimal("pValueThreshold"))
  {
  }
}
