/**
 Whole runs of the Feature controller. The driver is the crossplane reconciler reduced
 to what it does here: one reconcile after another, with a late-initialized spec written
 back to the Kubernetes API. That write goes through the JSON tags of the CRD types
 (apis/feature/v1alpha1/feature_types.go:75-96), whose omitempty drops an empty list or
 map, so the next reconcile may read such a field back as unset.
 */
module FeatureRuns {
  import opened Options
  import opened Decimals
  import opened ApiErrors
  import opened FeatureTypes
  import opened FeatureWire
  import opened FeatureConvert
  import opened FeatureDrift
  import opened FeatureServer
  import opened FeatureController
  import opened RuleConvert
  import opened RuleDrift
  import opened RuleMeaning

  datatype State = State(spec: FeatureParameters, cloud: Cloud)

  /** The spec as read back after a write that drops empty lists and maps. */
  function DropEmpty(p: FeatureParameters): FeatureParameters {
    p.(tags := NonEmpty(p.tags),
       environments := if p.environments == Some(map[]) then None else p.environments,
       rules := NonEmpty(p.rules))
  }

  /** The write back drops exactly the empty lists and maps and keeps every other field. */
  lemma WriteBackDropsExactly(p: FeatureParameters)
    ensures var q := DropEmpty(p);
            && q.(tags := p.tags, environments := p.environments, rules := p.rules) == p
            && q.tags == (if p.tags == Some([]) then None else p.tags)
            && q.environments == (if p.environments.Some? && p.environments.value == map[] then None else p.environments)
            && q.rules == (if p.rules == Some([]) then None else p.rules)
  {
  }

  datatype Outcome = Outcome(result: Result<Observation, ControllerError>, calls: seq<Call>)

  predicate IsWrite(call: Call) {
    !call.Get?
  }

  predicate Writes(o: Outcome) {
    exists call :: call in o.calls && IsWrite(call)
  }

  predicate LateInitialized(o: Outcome) {
    o.result.Success? && o.result.value.lateInitialized
  }

  predicate ReportsUpToDate(o: Outcome) {
    o.result.Success? && o.result.value.upToDate
  }

  /** One reconcile from s to s'; the spec may come back without its empty lists when it was written. */
  ghost predicate Next(w: Behaviour, k: Context, s: State, s': State, o: Outcome) {
    var (c, p, r) := Reconciling(w, k, s.spec, s.cloud);
    && s'.cloud == c
    && c.log == s.cloud.log + o.calls
    && o.result == r
    && (s'.spec == p || (p != s.spec && s'.spec == DropEmpty(p)))
  }

  /** The i-th reconcile of a run, from trace[i] to trace[i + 1]. */
  ghost predicate StepAt(w: Behaviour, k: Context, trace: seq<State>, outcomes: seq<Outcome>, i: nat)
    requires i < |outcomes| < |trace|
  {
    Next(w, k, trace[i], trace[i + 1], outcomes[i])
  }

  ghost predicate Run(w: Behaviour, k: Context, trace: seq<State>, outcomes: seq<Outcome>) {
    && |trace| == |outcomes| + 1
    && forall i: nat :: i < |outcomes| ==> StepAt(w, k, trace, outcomes, i)
  }

  /** The reconciles of the object-oriented driver are steps of a run. */
  method ReconcileOnce(ext: External, cr: Resource) returns (ghost o: Outcome)
    modifies cr`forProvider, ext.client
    ensures Next(ext.client.behaviour, ext.ContextOf(cr),
                 State(old(cr.forProvider), old(ext.client.State())), State(cr.forProvider, ext.client.State()), o)
  {
    ghost var before := ext.client.State();
    ghost var k := ext.ContextOf(cr);
    ghost var p := cr.forProvider;
    var r := ext.Reconcile(cr);
    ReconcileCalls(ext.client.behaviour, k, p, before);
    ghost var seen := Observing(ext.client.behaviour, k, p, before);
    o := Outcome(r, [Get(k.name)] + WriteFor(k, seen.1, seen.2));
  }

  /** An observe logs one call, a look, and is the only step that touches the spec. */
  lemma ObserveCalls(w: Behaviour, k: Context, p: FeatureParameters, c: Cloud)
    ensures Observing(w, k, p, c).0.log == c.log + [Get(k.name)]
  {
  }

  /** A create logs a post of the create body, if there is one to send. */
  lemma CreateCalls(w: Behaviour, k: Context, p: FeatureParameters, c: Cloud)
    ensures var b := CreateBody(k.parse, k.name, p, k.init);
            CreatingStep(w, k, p, c).0.log == c.log + if b.Success? then [Post(b.value)] else []
  {
  }

  /** An update logs a patch with the update body, if there is one to send. */
  lemma UpdateCalls(w: Behaviour, k: Context, p: FeatureParameters, c: Cloud)
    ensures var b := UpdateBody(k.parse, p);
            UpdatingStep(w, k, p, c).0.log == c.log + if b.Success? then [Patch(k.name, b.value)] else []
  {
  }

  /**
   The write a reconcile sends after what it saw: a create of an absent feature, a patch of a
   drifted one, or none.
   */
  function WriteFor(k: Context, p: FeatureParameters, seen: Result<Observation, ControllerError>): seq<Call> {
    var create, update := CreateBody(k.parse, k.name, p, k.init), UpdateBody(k.parse, p);
    if seen.Failure? || seen.value.upToDate then []
    else if seen.value.found then if update.Success? then [Patch(k.name, update.value)] else []
    else if create.Success? then [Post(create.value)] else []
  }

  /** The calls of one reconcile: a look, then at most one write, built from the observed spec. */
  lemma ReconcileCalls(w: Behaviour, k: Context, p: FeatureParameters, c: Cloud)
    ensures var (_, p1, seen) := Observing(w, k, p, c);
            Reconciling(w, k, p, c).0.log == c.log + [Get(k.name)] + WriteFor(k, p1, seen)
  {
    var (c1, p1, seen) := Observing(w, k, p, c);
    ObserveCalls(w, k, p, c);
    CreateCalls(w, k, p1, c1);
    UpdateCalls(w, k, p1, c1);
  }

  // ---- Convergence and quiescence -----------------------------------------------------

  /** The stored feature, if any, is what the spec asks for. */
  predicate Settled(k: Context, s: State) {
    k.name in s.cloud.store && UpToDate(k.parse, s.spec, s.cloud.store[k.name])
  }

  /** Nothing can be sent by mistake and the guard of the next write holds. */
  predicate Ready(k: Context, s: State) {
    if k.name in s.cloud.store then
      UpdateBody(k.parse, s.spec).Success? && Settles(s.spec, s.cloud.store[k.name])
    else
      CreateBody(k.parse, k.name, s.spec, k.init).Success? && CreateSettles(s.spec)
  }

  lemma DropEmptyKeepsVerdict(parse: ParseFloat, p: FeatureParameters, f: Feature)
    requires UpToDate(parse, p, f)
    ensures UpToDate(parse, DropEmpty(p), f)
  {
  }

  /** A stored feature is looked at. */
  lemma ObserveExisting(w: Behaviour, k: Context, p: FeatureParameters, c: Cloud)
    requires Calm(w, c.calls) && k.name in c.store
    ensures var f := c.store[k.name];
            var (p1, changed) := LateInit(p, k.init, f);
            Observing(w, k, p, c)
            == (Cloud(c.store, c.calls + 1, c.log + [Get(k.name)]), p1,
                Success(Observation(true, UpToDate(k.parse, p, f), changed)))
  {
    LateInitKeepsVerdict(k.parse, p, k.init, c.store[k.name]);
  }

  /** A stored feature is patched when there is a body to send. */
  lemma UpdateExisting(w: Behaviour, k: Context, p: FeatureParameters, c: Cloud)
    requires Calm(w, c.calls) && k.name in c.store
    ensures var b := UpdateBody(k.parse, p);
            if b.Failure? then UpdatingStep(w, k, p, c).0 == c && UpdatingStep(w, k, p, c).1.Failure?
            else
              var f := w.patches(c.calls, b.value, c.store[k.name]);
              UpdatingStep(w, k, p, c)
              == (Cloud(c.store[k.name := f], c.calls + 1, c.log + [Patch(k.name, b.value)]), Success(()))
  {
  }

  /** An existing feature that is not up to date is patched. */
  lemma PatchedReconcile(w: Behaviour, k: Context, p: FeatureParameters, c: Cloud)
    requires Calm(w, c.calls) && k.name in c.store && !UpToDate(k.parse, p, c.store[k.name])
    requires UpdateBody(k.parse, LateInit(p, k.init, c.store[k.name]).0).Success?
    ensures var f := c.store[k.name];
            var (p1, changed) := LateInit(p, k.init, f);
            var b := UpdateBody(k.parse, p1).value;
            Reconciling(w, k, p, c)
            == (Cloud(c.store[k.name := w.patches(c.calls + 1, b, f)], c.calls + 2, c.log + [Get(k.name), Patch(k.name, b)]),
                p1, Success(Observation(true, false, changed)))
  {
    ObserveExisting(w, k, p, c);
    var (c1, p1, seen) := Observing(w, k, p, c);
    UpdateExisting(w, k, p1, c1);
    var sent := Patch(k.name, UpdateBody(k.parse, p1).value);
    assert c1.log + [sent] == c.log + [Get(k.name), sent];
  }

  /** Without a body to send, the reconcile fails after the look. */
  lemma FailedReconcile(w: Behaviour, k: Context, p: FeatureParameters, c: Cloud)
    requires Calm(w, c.calls) && k.name in c.store && !UpToDate(k.parse, p, c.store[k.name])
    requires UpdateBody(k.parse, LateInit(p, k.init, c.store[k.name]).0).Failure?
    ensures var (c', p', r) := Reconciling(w, k, p, c);
            && c' == Cloud(c.store, c.calls + 1, c.log + [Get(k.name)])
            && p' == LateInit(p, k.init, c.store[k.name]).0
            && r.Failure?
  {
    ObserveExisting(w, k, p, c);
    var (c1, p1, seen) := Observing(w, k, p, c);
    UpdateExisting(w, k, p1, c1);
  }

  /** A feature that is up to date is looked at and nothing else. */
  lemma QuietReconcile(w: Behaviour, k: Context, p: FeatureParameters, c: Cloud)
    requires Calm(w, c.calls) && k.name in c.store && UpToDate(k.parse, p, c.store[k.name])
    ensures var (p1, changed) := LateInit(p, k.init, c.store[k.name]);
            Reconciling(w, k, p, c)
            == (Cloud(c.store, c.calls + 1, c.log + [Get(k.name)]), p1, Success(Observation(true, true, changed)))
  {
    ObserveExisting(w, k, p, c);
  }

  lemma SettledStaysQuiet(w: Behaviour, k: Context, s: State, s': State, o: Outcome)
    requires Calm(w, s.cloud.calls) && Next(w, k, s, s', o) && Settled(k, s)
    ensures Settled(k, s') && s'.cloud.store == s.cloud.store && s.cloud.calls <= s'.cloud.calls
    ensures ReportsUpToDate(o) && !Writes(o)
  {
    var f := s.cloud.store[k.name];
    var p := LateInit(s.spec, k.init, f).0;
    QuietReconcile(w, k, s.spec, s.cloud);
    LateInitKeepsVerdict(k.parse, s.spec, k.init, f);
    DropEmptyKeepsVerdict(k.parse, p, f);
    assert o.calls == s'.cloud.log[|s.cloud.log|..] == [Get(k.name)];
  }

  /** A spec with fewer late-initialized fields asks for no more. */
  lemma LateInitOnlyAdds(parse: ParseFloat, p: FeatureParameters, ip: FeatureInitParameters, ext: Feature, f: Feature)
    requires UpToDate(parse, LateInit(p, ip, ext).0, f)
    ensures UpToDate(parse, p, f)
  {
  }

  lemma OneReconcileSettles(w: Behaviour, k: Context, s: State, s': State, o: Outcome)
    requires Lawful(w) && Calm(w, s.cloud.calls) && k.name != ""
    requires Next(w, k, s, s', o) && Ready(k, s)
    ensures Settled(k, s') && UpToDate(k.parse, s.spec, s'.cloud.store[k.name]) && s.cloud.calls <= s'.cloud.calls
  {
    if k.name in s.cloud.store {
      ExistingSettles(w, k, s, s', o);
    } else {
      AbsentSettles(w, k, s, s', o);
    }
  }

  lemma ExistingSettles(w: Behaviour, k: Context, s: State, s': State, o: Outcome)
    requires Lawful(w) && Calm(w, s.cloud.calls)
    requires Next(w, k, s, s', o) && Ready(k, s) && k.name in s.cloud.store
    ensures Settled(k, s') && UpToDate(k.parse, s.spec, s'.cloud.store[k.name]) && s.cloud.calls <= s'.cloud.calls
  {
    var f := s.cloud.store[k.name];
    var p := LateInit(s.spec, k.init, f).0;
    LateInitKeepsVerdict(k.parse, s.spec, k.init, f);
    if !UpToDate(k.parse, p, f) {
      PatchedReconcile(w, k, s.spec, s.cloud);
      assert PatchesAt(w, s.cloud.calls + 1, UpdateBody(k.parse, p).value, f);
      UpdateConvergesExactlyWhen(k.parse, p, f, s'.cloud.store[k.name]);
    }
    DropEmptyKeepsVerdict(k.parse, p, s'.cloud.store[k.name]);
    LateInitOnlyAdds(k.parse, s.spec, k.init, f, s'.cloud.store[k.name]);
  }

  /** An absent feature is created under its name; other entries of the store stay. */
  lemma AbsentReconcile(w: Behaviour, k: Context, p: FeatureParameters, c: Cloud)
    requires Lawful(w) && Calm(w, c.calls) && k.name != "" && k.name !in c.store
    requires CreateBody(k.parse, k.name, p, k.init).Success?
    ensures var f := w.creates(c.calls + 1, CreateBody(k.parse, k.name, p, k.init).value);
            var (c', p', r) := Reconciling(w, k, p, c);
            p' == p && c'.store == c.store[k.name := f]
  {
    RefusalsAreRecognised();
    var b := CreateBody(k.parse, k.name, p, k.init).value;
    assert CreatesAt(w, c.calls + 1, b) && b.id == Some(k.name);
    var (c1, p1, seen) := Observing(w, k, p, c);
    assert seen == Success(Observation(false, false, false)) && c1.calls == c.calls + 1;
  }

  lemma AbsentSettles(w: Behaviour, k: Context, s: State, s': State, o: Outcome)
    requires Lawful(w) && Calm(w, s.cloud.calls) && k.name != ""
    requires Next(w, k, s, s', o) && Ready(k, s) && k.name !in s.cloud.store
    ensures Settled(k, s') && UpToDate(k.parse, s.spec, s'.cloud.store[k.name]) && s.cloud.calls <= s'.cloud.calls
  {
    AbsentReconcile(w, k, s.spec, s.cloud);
    var f := w.creates(s.cloud.calls + 1, CreateBody(k.parse, k.name, s.spec, k.init).value);
    assert s'.spec == s.spec && s'.cloud.store[k.name] == f;
    assert CreatesAt(w, s.cloud.calls + 1, CreateBody(k.parse, k.name, s.spec, k.init).value);
    SettledCreate(k.parse, k.name, s.spec, k.init, f);
  }

  lemma {:induction false} StaysSettled(w: Behaviour, k: Context, trace: seq<State>, outcomes: seq<Outcome>, i: nat)
    requires Lawful(w) && k.name != ""
    requires Run(w, k, trace, outcomes) && Ready(k, trace[0])
    requires Calm(w, trace[0].cloud.calls)
    requires 1 <= i < |trace|
    ensures Settled(k, trace[i]) && trace[i].cloud.store == trace[1].cloud.store
    ensures trace[0].cloud.calls <= trace[i].cloud.calls
  {
    assert StepAt(w, k, trace, outcomes, i - 1);
    if i == 1 {
      OneReconcileSettles(w, k, trace[0], trace[1], outcomes[0]);
    } else {
      StaysSettled(w, k, trace, outcomes, i - 1);
      SettledStaysQuiet(w, k, trace[i - 1], trace[i], outcomes[i - 1]);
    }
  }

  /**
   Convergence and quiescence: once nobody else acts and no call fails, whatever happened
   before, from an absent feature or any stored one, one create or one update reaches a state the spec asks for,
   and no later reconcile sends a write or changes the store, whatever ids, defaults and
   order the server chooses.
   */
  lemma ConvergesThenQuiet(w: Behaviour, k: Context, trace: seq<State>, outcomes: seq<Outcome>, i: nat)
    requires Lawful(w) && k.name != ""
    requires Run(w, k, trace, outcomes) && Ready(k, trace[0])
    requires Calm(w, trace[0].cloud.calls)
    requires 1 <= i < |trace|
    ensures Settled(k, trace[i]) && trace[i].cloud.store == trace[1].cloud.store
    ensures i < |outcomes| ==> ReportsUpToDate(outcomes[i]) && !Writes(outcomes[i])
  {
    StaysSettled(w, k, trace, outcomes, i);
    if i < |outcomes| {
      assert StepAt(w, k, trace, outcomes, i);
      SettledStaysQuiet(w, k, trace[i], trace[i + 1], outcomes[i]);
    }
  }

  /**
   From the first reconcile on, every visitor of an environment the spec manages for whom
   no repeated id decides is served exactly what the spec asked for at the start of the run.
   */
  lemma RunServesTheSpec(w: Behaviour, k: Context, trace: seq<State>, outcomes: seq<Outcome>, i: nat, v: Visitor)
    requires Lawful(w) && k.name != ""
    requires Run(w, k, trace, outcomes) && Ready(k, trace[0]) && 1 <= i < |trace|
    requires Calm(w, trace[0].cloud.calls)
    requires var p := trace[0].spec;
             && p.rules.Some? && p.environments.Some? && Safe(k.parse, p.rules.value, v)
             && v.environment in p.environments.value && p.environments.value[v.environment].enabled.Some?
    ensures k.name in trace[i].cloud.store
    ensures FeatureServes(trace[i].cloud.store[k.name], v) == FeatureAsks(k.parse, trace[0].spec, v)
  {
    var p := trace[0].spec;
    assert StepAt(w, k, trace, outcomes, 0);
    OneReconcileSettles(w, k, trace[0], trace[1], outcomes[0]);
    StaysSettled(w, k, trace, outcomes, i);
    UpToDateRulesServeTheSame(k.parse, p.rules.value, trace[1].cloud.store[k.name].rules, p.defaultValue, v);
  }

  // ---- Errors surface -------------------------------------------------------------------------

  /**
   A spec whose update cannot be built or encoded: with the feature found, every reconcile
   surfaces that error and sends nothing.
   */
  lemma BadSpecSurfaces(w: Behaviour, k: Context, p: FeatureParameters, c: Cloud)
    requires w.fails(c.calls).None? && k.name in w.others(c.calls, c.store)
    requires Decoded(w.others(c.calls, c.store)[k.name])
    requires UpdateBody(k.parse, p).Failure?
    ensures var (c', p', r) := Reconciling(w, k, p, c);
            && c'.log == c.log + [Get(k.name)] && c'.store == w.others(c.calls, c.store)
            && r == Failure(match UpdateBody(k.parse, p).error
                            case Invalid(cause) => InvalidRules(cause)
                            case Unencodable => CannotUpdate(NOT_ENCODED))
  {
    var f := w.others(c.calls, c.store)[k.name];
    var p1 := LateInit(p, k.init, f).0;
    LateInitKeepsVerdict(k.parse, p, k.init, f);
    BadSpecIsNeverUpToDate(k.parse, p1, f);
    assert Updating(k.parse, p1).Failure? <==> Updating(k.parse, p).Failure?;
  }

  // ---- Late initialization over runs --------------------------------------------------------

  /** The fields late initialization may still fill. */
  function OpenFields(p: FeatureParameters, ip: FeatureInitParameters): nat {
    One(p.description.None? && ip.description.None?) + One(p.owner.None? && ip.owner.None?) + One(p.project.None? && ip.project.None?)
  }

  function LateInits(outcomes: seq<Outcome>): nat {
    if outcomes == [] then 0
    else LateInits(outcomes[..|outcomes| - 1]) + One(LateInitialized(outcomes[|outcomes| - 1]))
  }

  lemma LateInitFillsFields(p: FeatureParameters, ip: FeatureInitParameters, ext: Feature)
    ensures var (p', changed) := LateInit(p, ip, ext);
            One(changed) + OpenFields(p', ip) <= OpenFields(p, ip)
  {
  }

  lemma LateInitStep(w: Behaviour, k: Context, s: State, s': State, o: Outcome)
    requires Next(w, k, s, s', o)
    ensures One(LateInitialized(o)) + OpenFields(s'.spec, k.init) <= OpenFields(s.spec, k.init)
  {
    var got := Getting(w, s.cloud, k.name).1;
    if got.Success? {
      LateInitFillsFields(s.spec, k.init, got.value);
    }
  }

  /** `LateInits` counts the reconciles that report late initialization. */
  lemma {:induction false} LateInitsCounts(outcomes: seq<Outcome>)
    ensures LateInits(outcomes)
            == |set i | 0 <= i < |outcomes| && outcomes[i].result.Success? && outcomes[i].result.value.lateInitialized|
  {
    var all := set i | 0 <= i < |outcomes| && outcomes[i].result.Success? && outcomes[i].result.value.lateInitialized;
    if outcomes == [] {
      assert all == {};
    } else {
      var n := |outcomes| - 1;
      var init := outcomes[..n];
      var before := set i | 0 <= i < |init| && init[i].result.Success? && init[i].result.value.lateInitialized;
      LateInitsCounts(init);
      assert all == before + if LateInitialized(outcomes[n]) then {n} else {};
    }
  }

  /**
   Over any run, with faults and with other actors editing the feature, late initialization
   is reported at most once per open field, so at most three times.
   */
  lemma {:induction false} LateInitAtMostThrice(w: Behaviour, k: Context, trace: seq<State>, outcomes: seq<Outcome>)
    requires Run(w, k, trace, outcomes)
    ensures LateInits(outcomes) + OpenFields(trace[|outcomes|].spec, k.init) <= OpenFields(trace[0].spec, k.init) <= 3
  {
    if outcomes != [] {
      var n := |outcomes| - 1;
      var t, o := trace[..n + 1], outcomes[..n];
      forall i: nat | i < n ensures StepAt(w, k, t, o, i) {
        assert StepAt(w, k, trace, outcomes, i);
      }
      LateInitAtMostThrice(w, k, t, o);
      assert StepAt(w, k, trace, outcomes, n);
      LateInitStep(w, k, trace[n], trace[n + 1], outcomes[n]);
    }
  }

  // ---- The create-only contract of initProvider ------------------------------------------------

  /** Every field the user set only in initProvider, at the start, is still unset in forProvider. */
  predicate StillUnset(start: FeatureParameters, ip: FeatureInitParameters, p: FeatureParameters) {
    && (start.description.None? && ip.description.Some? ==> p.description.None?)
    && (start.project.None? && ip.project.Some? ==> p.project.None?)
    && (start.tags.None? && ip.tags.Some? ==> p.tags.None?)
    && (start.archived.None? && ip.archived.Some? ==> p.archived.None?)
    && (start.owner.None? && ip.owner.Some? ==> p.owner.None?)
    && (start.environments.None? && ip.environments.Some? ==> p.environments.None?)
    && (start.rules.None? && ip.rules.Some? ==> p.rules.None?)
  }

  /** No such field is in the body. */
  predicate NotSent(start: FeatureParameters, ip: FeatureInitParameters, b: FeatureBody) {
    && (start.description.None? && ip.description.Some? ==> b.description.None?)
    && (start.project.None? && ip.project.Some? ==> b.project.None?)
    && (start.tags.None? && ip.tags.Some? ==> b.tags.None?)
    && (start.archived.None? && ip.archived.Some? ==> b.archived.None?)
    && (start.owner.None? && ip.owner.Some? ==> b.owner.None?)
    && (start.environments.None? && ip.environments.Some? ==> b.environments.None?)
    && (start.rules.None? && ip.rules.Some? ==> b.rules.None?)
  }

  /** The two features differ in such fields only. */
  predicate DifferInInitOnly(start: FeatureParameters, ip: FeatureInitParameters, a: Feature, b: Feature) {
    && a.valueType == b.valueType && a.defaultValue == b.defaultValue
    && (a.description == b.description || (start.description.None? && ip.description.Some?))
    && (a.project == b.project || (start.project.None? && ip.project.Some?))
    && (a.tags == b.tags || (start.tags.None? && ip.tags.Some?))
    && (a.archived == b.archived || (start.archived.None? && ip.archived.Some?))
    && (a.owner == b.owner || (start.owner.None? && ip.owner.Some?))
    && (a.environments == b.environments || (start.environments.None? && ip.environments.Some?))
    && (a.rules == b.rules || (start.rules.None? && ip.rules.Some?))
  }

  predicate PatchesNotSent(start: FeatureParameters, ip: FeatureInitParameters, calls: seq<Call>) {
    forall call :: call in calls && call.Patch? ==> NotSent(start, ip, call.body)
  }

  lemma CallsOfReconcile(w: Behaviour, k: Context, s: State, s': State, o: Outcome)
    requires Next(w, k, s, s', o)
    ensures var (_, p, seen) := Observing(w, k, s.spec, s.cloud);
            o.calls == [Get(k.name)] + WriteFor(k, p, seen)
  {
    var (_, p, seen) := Observing(w, k, s.spec, s.cloud);
    var calls := [Get(k.name)] + WriteFor(k, p, seen);
    ReconcileCalls(w, k, s.spec, s.cloud);
    assert s.cloud.log + [Get(k.name)] + WriteFor(k, p, seen) == s.cloud.log + calls;
    assert calls == (s.cloud.log + calls)[|s.cloud.log|..] == o.calls;
  }

  lemma UnsetIsNotSent(parse: ParseFloat, start: FeatureParameters, ip: FeatureInitParameters, p: FeatureParameters)
    requires StillUnset(start, ip, p) && UpdateBody(parse, p).Success?
    ensures NotSent(start, ip, UpdateBody(parse, p).value)
  {
  }

  lemma LateInitKeepsUnset(start: FeatureParameters, ip: FeatureInitParameters, p: FeatureParameters, ext: Feature)
    requires StillUnset(start, ip, p)
    ensures StillUnset(start, ip, LateInit(p, ip, ext).0)
  {
  }

  lemma DropEmptyKeepsUnset(start: FeatureParameters, ip: FeatureInitParameters, p: FeatureParameters)
    requires StillUnset(start, ip, p)
    ensures StillUnset(start, ip, DropEmpty(p))
  {
  }

  lemma ObservingKeepsUnset(w: Behaviour, k: Context, start: FeatureParameters, p: FeatureParameters, c: Cloud)
    requires StillUnset(start, k.init, p)
    ensures StillUnset(start, k.init, Observing(w, k, p, c).1)
  {
    var (c1, got) := Getting(w, c, k.name);
    if got.Success? {
      LateInitKeepsUnset(start, k.init, p, got.value);
    }
  }

  lemma InitOnlyStep(w: Behaviour, k: Context, start: FeatureParameters, s: State, s': State, o: Outcome)
    requires Next(w, k, s, s', o) && StillUnset(start, k.init, s.spec)
    ensures StillUnset(start, k.init, s'.spec) && PatchesNotSent(start, k.init, o.calls)
  {
    var p := Observing(w, k, s.spec, s.cloud).1;
    CallsOfReconcile(w, k, s, s', o);
    ObservingKeepsUnset(w, k, start, s.spec, s.cloud);
    DropEmptyKeepsUnset(start, k.init, p);
    if UpdateBody(k.parse, p).Success? {
      UnsetIsNotSent(k.parse, start, k.init, p);
    }
  }

  lemma {:induction false} InitOnlyStaysUnset(
      w: Behaviour, k: Context, trace: seq<State>, outcomes: seq<Outcome>, i: nat)
    requires Run(w, k, trace, outcomes) && i < |trace|
    ensures StillUnset(trace[0].spec, k.init, trace[i].spec)
  {
    if i > 0 {
      InitOnlyStaysUnset(w, k, trace, outcomes, i - 1);
      assert StepAt(w, k, trace, outcomes, i - 1);
      InitOnlyStep(w, k, trace[0].spec, trace[i - 1], trace[i], outcomes[i - 1]);
    }
  }

  lemma InitOnlyNeverDrifts(
      parse: ParseFloat, start: FeatureParameters, ip: FeatureInitParameters, p: FeatureParameters, a: Feature, b: Feature)
    requires StillUnset(start, ip, p) && DifferInInitOnly(start, ip, a, b)
    ensures UpToDate(parse, p, a) <==> UpToDate(parse, p, b)
  {
    assert AgreeOnManaged(p, a, b);
    UnmanagedNeverDrifts(parse, p, a, b);
  }

  /**
   The create-only contract over any run, with faults and arbitrary edits by others: a
   field set only in initProvider never becomes set in forProvider, is in no update body,
   and never changes the verdict.
   */
  lemma InitProviderIsCreateOnly(
      w: Behaviour, k: Context, trace: seq<State>, outcomes: seq<Outcome>, i: nat, a: Feature, b: Feature)
    requires Run(w, k, trace, outcomes) && i < |trace|
    requires DifferInInitOnly(trace[0].spec, k.init, a, b)
    ensures StillUnset(trace[0].spec, k.init, trace[i].spec)
    ensures i < |outcomes| ==> PatchesNotSent(trace[0].spec, k.init, outcomes[i].calls)
    ensures UpToDate(k.parse, trace[i].spec, a) <==> UpToDate(k.parse, trace[i].spec, b)
  {
    InitOnlyStaysUnset(w, k, trace, outcomes, i);
    InitOnlyNeverDrifts(k.parse, trace[0].spec, k.init, trace[i].spec, a, b);
    if i < |outcomes| {
      assert StepAt(w, k, trace, outcomes, i);
      InitOnlyStep(w, k, trace[0].spec, trace[i], trace[i + 1], outcomes[i]);
    }
  }

  // ---- Specs written back without their empty lists ------------------------------------------------

  /**
   Writing a spec back without its empty lists keeps every verdict exactly when the rules
   are not explicitly empty, and the tags are not either, unless some rule can match
   nothing. The documented authority of an explicitly empty rule list is therefore lost.
   */
  lemma WriteBackKeepsVerdictExactlyWhen(parse: ParseFloat, p: FeatureParameters)
    ensures (forall f :: UpToDate(parse, DropEmpty(p), f) <==> UpToDate(parse, p, f))
            <==> p.rules != Some([])
                 && (p.tags != Some([]) || (p.rules.Some? && !AllMatchable(parse, p.rules.value)))
  {
    if p.rules == Some([]) {
      var rule := Rule("force", "fr_1", "", None, "", [], true, [], "", None, "", "", []);
      DroppedIsSatisfied(parse, p, [rule]);
    } else if p.tags != Some([]) {
      assert forall f :: UpToDate(parse, DropEmpty(p), f) <==> UpToDate(parse, p, f);
    } else if p.rules.Some? && !AllMatchable(parse, p.rules.value) {
      UnmatchableNeverMatches(parse, p.rules.value);
      assert DropEmpty(p).rules == p.rules;
    } else {
      DroppedIsSatisfied(parse, p, MatchingRules(parse, p.rules));
    }
  }

  /** Rules that match a desired list some stored list matches. */
  function MatchingRules(parse: ParseFloat, rules: Option<seq<RuleSpec>>): (got: seq<Rule>)
    requires rules.Some? ==> AllMatchable(parse, rules.value)
    ensures RulesMatch(parse, rules, got)
  {
    if rules.None? then []
    else
      var got := ConvertedList(parse, rules.value);
      assert RulesMatch(parse, rules, got) by {
        forall i | 0 <= i < |got| ensures RuleMatches(parse, rules.value[i], got[i]) {
          ConvertedMatches(parse, rules.value[i]);
        }
      }
      got
  }

  /** The spec without its empty lists is satisfied by stored tags, and where rules were dropped by stored rules. */
  lemma DroppedIsSatisfied(parse: ParseFloat, p: FeatureParameters, rules: seq<Rule>)
    requires p.rules == Some([]) || p.tags == Some([])
    requires p.rules == Some([]) ==> rules != []
    requires p.rules != Some([]) ==> RulesMatch(parse, p.rules, rules)
    ensures exists f :: UpToDate(parse, DropEmpty(p), f) && !UpToDate(parse, p, f)
  {
    var q := DropEmpty(p);
    var f := Satisfying(q, if q.tags.Some? then q.tags.value else ["a tag"], rules);
    SatisfyingIsUpToDate(parse, q, f.tags, rules);
    NoTagsMatch(f.tags);
    assert !UpToDate(parse, p, f);
  }

  /** With an explicitly empty rule list any stored rule is drift; written back without it, no rule is. */
  lemma WrittenBackEmptyRulesAreUnmanaged(parse: ParseFloat, p: FeatureParameters, f: Feature)
    requires p.rules == Some([]) && UpToDate(parse, p, f.(rules := []))
    ensures UpToDate(parse, p, f) <==> f.rules == []
    ensures UpToDate(parse, DropEmpty(p), f)
  {
    DropEmptyKeepsVerdict(parse, p, f.(rules := []));
  }

  /** Whether the server has a value for a field that is unset in both halves of the spec. */
  predicate HasOpenValue(p: FeatureParameters, ip: FeatureInitParameters, f: Feature) {
    || (p.description.None? && ip.description.None?)
    || (p.owner.None? && ip.owner.None? && f.owner != "")
    || (p.project.None? && ip.project.None? && f.project != "")
  }

  /** A reconcile can always take place, and a changed spec can come back with or without its empty lists. */
  lemma ReconcileGoesOn(w: Behaviour, k: Context, s: State, dropped: bool) returns (s': State, o: Outcome)
    requires dropped ==> Observing(w, k, s.spec, s.cloud).1 != s.spec
    ensures Next(w, k, s, s', o)
    ensures var p := Observing(w, k, s.spec, s.cloud).1; s'.spec == if dropped then DropEmpty(p) else p
  {
    var (c, p, r) := Reconciling(w, k, s.spec, s.cloud);
    var (_, p1, seen) := Observing(w, k, s.spec, s.cloud);
    ReconcileCalls(w, k, s.spec, s.cloud);
    o := Outcome(r, [Get(k.name)] + WriteFor(k, p1, seen));
    s' := State(if dropped then DropEmpty(p) else p, c);
    assert s.cloud.log + [Get(k.name)] + WriteFor(k, p1, seen) == s.cloud.log + o.calls;
  }

  /**
   One reconcile can take an explicitly empty rule list out of the spec exactly when the
   look succeeds and finds a value for an open field; an open description always is one.
   */
  lemma ReconcileDropsEmptyRulesExactlyWhen(w: Behaviour, k: Context, s: State)
    requires s.spec.rules == Some([])
    ensures (exists s', o :: Next(w, k, s, s', o) && s'.spec.rules.None?)
            <==> Getting(w, s.cloud, k.name).1.Success?
                 && HasOpenValue(s.spec, k.init, Getting(w, s.cloud, k.name).1.value)
  {
    var got := Getting(w, s.cloud, k.name).1;
    var (c, p, r) := Reconciling(w, k, s.spec, s.cloud);
    assert p == if got.Success? then LateInit(s.spec, k.init, got.value).0 else s.spec;
    if got.Success? {
      LateInitFillsOpenFields(s.spec, k.init, got.value);
    }
    if got.Success? && HasOpenValue(s.spec, k.init, got.value) {
      var s', o := ReconcileGoesOn(w, k, s, true);
      assert Next(w, k, s, s', o) && s'.spec.rules.None?;
    }
  }

  lemma SpecStep(w: Behaviour, k: Context, s: State, s': State, o: Outcome)
    requires Next(w, k, s, s', o)
    ensures s'.spec == s.spec || OpenFields(s'.spec, k.init) < OpenFields(s.spec, k.init)
  {
    var got := Getting(w, s.cloud, k.name).1;
    if got.Success? {
      LateInitFillsFields(s.spec, k.init, got.value);
    }
  }

  /**
   Over any run, with faults and edits by others, the spec only ever changes by filling an
   open field: one without open fields keeps its empty lists, and their authority, for ever.
   */
  lemma {:induction false} SpecChangesOnlyWithOpenFields(
      w: Behaviour, k: Context, trace: seq<State>, outcomes: seq<Outcome>, i: nat)
    requires Run(w, k, trace, outcomes) && i < |trace|
    ensures trace[i].spec == trace[0].spec || OpenFields(trace[i].spec, k.init) < OpenFields(trace[0].spec, k.init)
    ensures OpenFields(trace[0].spec, k.init) == 0 ==> trace[i].spec == trace[0].spec
  {
    if i > 0 {
      SpecChangesOnlyWithOpenFields(w, k, trace, outcomes, i - 1);
      assert StepAt(w, k, trace, outcomes, i - 1);
      SpecStep(w, k, trace[i - 1], trace[i], outcomes[i - 1]);
    }
  }
}
