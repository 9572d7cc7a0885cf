/**
 How a run of the Feature controller ends once nobody else acts and no call fails: at
 rest on what the spec asks for, or writing or failing in every reconcile for ever.
 */
module FeatureRest {
  import opened Options
  import opened Decimals
  import opened ApiErrors
  import opened FeatureTypes
  import opened FeatureWire
  import opened FeatureConvert
  import opened FeatureDrift
  import opened FeatureServer
  import opened FeatureController
  import opened FeatureRuns
  import opened RuleDrift

  // ---- Specs that never settle -----------------------------------------------------------

  lemma PatchStaysGenuine(b: FeatureBody, f: Feature, f': Feature)
    requires Patches(b, f, f') && Genuine(f)
    ensures Genuine(f')
  {
    if b.rules.Some? {
      forall g | g in f'.rules ensures Finitely(g.coverage) && g.id != "" {
        var i :| 0 <= i < |f'.rules| && f'.rules[i] == g;
        assert Keeps(DecodeRule(b.rules.value[i]), f'.rules[i]);
      }
    }
  }

  /**
   What no reconcile can repair: the body cannot be sent, another valueType is stored, an
   empty default value faces a stored one, a rule does not settle, or an explicitly empty
   list of tags faces stored tags with no late initialization left to drop it from the spec.
   */
  predicate BeyondRepair(k: Context, p: FeatureParameters, f: Feature) {
    && Genuine(f)
    && (|| UpdateBody(k.parse, p).Failure?
        || p.valueType != f.valueType
        || (p.defaultValue == "" && f.defaultValue != "")
        || !RulesSettle(p.rules)
        || (p.tags == Some([]) && f.tags != [] && !LateInit(p, k.init, f).1))
  }

  predicate Hopeless(k: Context, s: State) {
    k.name in s.cloud.store && BeyondRepair(k, s.spec, s.cloud.store[k.name])
  }

  lemma UpToDateSettles(parse: ParseFloat, p: FeatureParameters, f: Feature)
    requires UpToDate(parse, p, f) && Genuine(f)
    ensures Settles(p, f)
  {
    if p.rules.Some? {
      forall r | r in p.rules.value ensures RuleSettles(r) {
        var i :| 0 <= i < |p.rules.value| && p.rules.value[i] == r;
        assert f.rules[i] in f.rules && RuleMatches(parse, r, f.rules[i]);
        MatchIsLookup(r.variations, f.rules[i].variations);
      }
    }
    if p.tags == Some([]) {
      assert |multiset(f.tags)| == |f.tags|;
    }
  }

  lemma HopelessNotUpToDate(k: Context, s: State)
    requires Hopeless(k, s)
    ensures !UpToDate(k.parse, s.spec, s.cloud.store[k.name])
  {
    var f := s.cloud.store[k.name];
    if UpToDate(k.parse, s.spec, f) {
      UpToDateSettles(k.parse, s.spec, f);
      if UpdateBody(k.parse, s.spec).Failure? {
        BadSpecIsNeverUpToDate(k.parse, s.spec, f);
      }
    }
  }

  /** Such a reconcile sends a write or surfaces an error. */
  lemma HopelessWrites(w: Behaviour, k: Context, s: State, s': State, o: Outcome)
    requires Calm(w, s.cloud.calls)
    requires Next(w, k, s, s', o) && Hopeless(k, s)
    ensures !ReportsUpToDate(o) && (Writes(o) || o.result.Failure?)
  {
    var f := s.cloud.store[k.name];
    var b := UpdateBody(k.parse, LateInit(s.spec, k.init, f).0);
    HopelessNotUpToDate(k, s);
    if b.Failure? {
      FailedReconcile(w, k, s.spec, s.cloud);
    } else {
      PatchedReconcile(w, k, s.spec, s.cloud);
      assert o.calls == s'.cloud.log[|s.cloud.log|..] == [Get(k.name), Patch(k.name, b.value)];
      assert Patch(k.name, b.value) in o.calls;
    }
  }

  /** A patch changes nothing of what is beyond repair. */
  lemma PatchKeepsUnsent(k: Context, spec: FeatureParameters, f: Feature, f': Feature)
    requires var p := LateInit(spec, k.init, f).0;
             UpdateBody(k.parse, p).Success? && Patches(UpdateBody(k.parse, p).value, f, f')
    ensures f'.valueType == f.valueType
    ensures spec.defaultValue == "" ==> f'.defaultValue == f.defaultValue
    ensures spec.tags == Some([]) ==> f'.tags == f.tags
    ensures !LateInit(spec, k.init, f).1 ==> !LateInit(spec, k.init, f').1
  {
    var p := LateInit(spec, k.init, f).0;
    var b := UpdateBody(k.parse, p).value;
    UpdateFrame(k.parse, p, f, f');
    assert p.defaultValue == "" ==> b.defaultValue == None;
    assert p.tags == Some([]) ==> b.tags == None;
    assert (p.owner.Some? ==> b.owner == p.owner) && (p.project.Some? ==> b.project == p.project);
  }

  /** What a spec keeps of being beyond repair when it is late-initialized and perhaps written back. */
  lemma BeyondRepairKept(k: Context, spec: FeatureParameters, f: Feature, spec': FeatureParameters, f': Feature)
    requires BeyondRepair(k, spec, f) && Genuine(f')
    requires var p := LateInit(spec, k.init, f).0; spec' == p || (p != spec && spec' == DropEmpty(p))
    requires f'.valueType == f.valueType
    requires spec.defaultValue == "" ==> f'.defaultValue == f.defaultValue
    requires spec.tags == Some([]) ==> f'.tags == f.tags
    requires !LateInit(spec, k.init, f).1 ==> !LateInit(spec, k.init, f').1
    ensures BeyondRepair(k, spec', f')
  {
    LateInitKeepsVerdict(k.parse, spec, k.init, f);
  }

  /** The spec was late-initialized and perhaps written back, the feature patched when there was a body to send. */
  ghost predicate Attempted(k: Context, spec: FeatureParameters, f: Feature, spec': FeatureParameters, f': Feature) {
    var p := LateInit(spec, k.init, f).0;
    && (spec' == p || (p != spec && spec' == DropEmpty(p)))
    && if UpdateBody(k.parse, p).Success? then Patches(UpdateBody(k.parse, p).value, f, f') else f' == f
  }

  /** Beyond repair before the attempt, beyond repair after it. */
  lemma AttemptDoesNotRepair(k: Context, spec: FeatureParameters, f: Feature, spec': FeatureParameters, f': Feature)
    requires BeyondRepair(k, spec, f) && Attempted(k, spec, f, spec', f')
    ensures BeyondRepair(k, spec', f')
  {
    var b := UpdateBody(k.parse, LateInit(spec, k.init, f).0);
    if b.Success? {
      PatchStaysGenuine(b.value, f, f');
      PatchKeepsUnsent(k, spec, f, f');
    }
    BeyondRepairKept(k, spec, f, spec', f');
  }

  lemma DriftedNext(w: Behaviour, k: Context, s: State, s': State, o: Outcome)
    requires Lawful(w) && Calm(w, s.cloud.calls) && Next(w, k, s, s', o)
    requires k.name in s.cloud.store && !UpToDate(k.parse, s.spec, s.cloud.store[k.name])
    ensures k.name in s'.cloud.store && s.cloud.calls <= s'.cloud.calls
    ensures Attempted(k, s.spec, s.cloud.store[k.name], s'.spec, s'.cloud.store[k.name])
  {
    var f := s.cloud.store[k.name];
    var b := UpdateBody(k.parse, LateInit(s.spec, k.init, f).0);
    if b.Failure? {
      FailedReconcile(w, k, s.spec, s.cloud);
    } else {
      PatchedReconcile(w, k, s.spec, s.cloud);
      assert PatchesAt(w, s.cloud.calls + 1, b.value, f);
    }
  }

  /** It stays beyond repair. */
  lemma HopelessStep(w: Behaviour, k: Context, s: State, s': State, o: Outcome)
    requires Lawful(w) && Calm(w, s.cloud.calls)
    requires Next(w, k, s, s', o) && Hopeless(k, s)
    ensures Hopeless(k, s') && s.cloud.calls <= s'.cloud.calls
  {
    HopelessNotUpToDate(k, s);
    DriftedNext(w, k, s, s', o);
    AttemptDoesNotRepair(k, s.spec, s.cloud.store[k.name], s'.spec, s'.cloud.store[k.name]);
  }

  lemma HopelessAt(w: Behaviour, k: Context, trace: seq<State>, outcomes: seq<Outcome>, i: nat)
    requires Lawful(w) && Run(w, k, trace, outcomes) && i < |outcomes|
    requires Hopeless(k, trace[i]) && Calm(w, trace[i].cloud.calls)
    ensures Hopeless(k, trace[i + 1]) && trace[i].cloud.calls <= trace[i + 1].cloud.calls
  {
    assert StepAt(w, k, trace, outcomes, i);
    HopelessStep(w, k, trace[i], trace[i + 1], outcomes[i]);
  }

  lemma {:induction false} HopelessStays(w: Behaviour, k: Context, trace: seq<State>, outcomes: seq<Outcome>, i: nat)
    requires Lawful(w)
    requires Run(w, k, trace, outcomes) && Hopeless(k, trace[0]) && i < |trace|
    requires Calm(w, trace[0].cloud.calls)
    ensures Hopeless(k, trace[i]) && trace[0].cloud.calls <= trace[i].cloud.calls
  {
    if i > 0 {
      HopelessStays(w, k, trace, outcomes, i - 1);
      HopelessAt(w, k, trace, outcomes, i - 1);
    }
  }

  /** The controller then never comes to rest: every reconcile of the run writes or fails. */
  lemma HopelessNeverQuiet(w: Behaviour, k: Context, trace: seq<State>, outcomes: seq<Outcome>, i: nat)
    requires Lawful(w)
    requires Run(w, k, trace, outcomes) && Hopeless(k, trace[0])
    requires Calm(w, trace[0].cloud.calls)
    requires i < |outcomes|
    ensures !ReportsUpToDate(outcomes[i]) && (Writes(outcomes[i]) || outcomes[i].result.Failure?)
  {
    HopelessStays(w, k, trace, outcomes, i);
    assert StepAt(w, k, trace, outcomes, i);
    HopelessWrites(w, k, trace[i], trace[i + 1], outcomes[i]);
  }

  // ---- Every run is decided -----------------------------------------------------------------

  /** The spec, without its empty list of tags when the write back dropped it. */
  function WithoutDroppedTags(spec: FeatureParameters, spec': FeatureParameters): FeatureParameters {
    if spec'.tags.None? then spec.(tags := None) else spec
  }

  /** The guard of the first reconcile: its patch can be sent and settles what remains of the spec. */
  predicate Repairable(parse: ParseFloat, spec: FeatureParameters, f: Feature, spec': FeatureParameters) {
    UpdateBody(parse, spec).Success? && Settles(WithoutDroppedTags(spec, spec'), f)
  }

  /** An attempt leaves no open field the server has a value for. */
  lemma AttemptFillsAll(k: Context, spec: FeatureParameters, f: Feature, spec': FeatureParameters, f': Feature)
    requires Attempted(k, spec, f, spec', f') && UpdateBody(k.parse, LateInit(spec, k.init, f).0).Success?
    ensures !LateInit(spec', k.init, f').1
  {
    var p := LateInit(spec, k.init, f).0;
    LateInitKeepsVerdict(k.parse, spec, k.init, f);
    UpdateFrame(k.parse, p, f, f');
    UpdateCarries(k.parse, p);
  }

  /** Without an empty list of tags the update body is the same. */
  lemma SameBodyWithoutTags(parse: ParseFloat, p: FeatureParameters)
    requires p.tags == Some([])
    ensures UpdateBody(parse, p.(tags := None)) == UpdateBody(parse, p)
  {
  }

  /** The spec as written back gets the verdict of the late-initialized one without the dropped tags. */
  lemma WrittenBackVerdict(k: Context, spec: FeatureParameters, f: Feature, spec': FeatureParameters, f': Feature)
    requires Attempted(k, spec, f, spec', f') && UpdateBody(k.parse, LateInit(spec, k.init, f).0).Success?
    ensures UpToDate(k.parse, spec', f')
            <==> UpToDate(k.parse, WithoutDroppedTags(LateInit(spec, k.init, f).0, spec'), f')
    ensures Settles(spec', f') <==> Settles(WithoutDroppedTags(LateInit(spec, k.init, f).0, spec'), f')
  {
    var p := LateInit(spec, k.init, f).0;
    if p.rules == Some([]) {
      assert UpdateBody(k.parse, p).value.rules == Some([]);
      assert f'.rules == [];
    }
  }

  /** After a patch was sent, the verdict and the guard are what the guard was before. */
  lemma PatchDecides(k: Context, spec: FeatureParameters, f: Feature, spec': FeatureParameters, f': Feature)
    requires Attempted(k, spec, f, spec', f') && UpdateBody(k.parse, LateInit(spec, k.init, f).0).Success?
    ensures UpToDate(k.parse, spec', f') <==> Repairable(k.parse, spec, f, spec')
    ensures Settles(spec', f') <==> Repairable(k.parse, spec, f, spec')
  {
    var p := LateInit(spec, k.init, f).0;
    var q := WithoutDroppedTags(p, spec');
    LateInitKeepsVerdict(k.parse, spec, k.init, f);
    WrittenBackVerdict(k, spec, f, spec', f');
    if p.tags == Some([]) {
      SameBodyWithoutTags(k.parse, p);
    }
    assert UpdateBody(k.parse, q) == UpdateBody(k.parse, p);
    UpdateConvergesExactlyWhen(k.parse, q, f, f');
    UnsettledStaysUnsettled(k.parse, q, f, f');
  }

  /** A body that cannot be sent stays one when the spec is late-initialized and written back. */
  lemma BadBodyStays(k: Context, spec: FeatureParameters, f: Feature, spec': FeatureParameters, f': Feature)
    requires Attempted(k, spec, f, spec', f')
    ensures UpdateBody(k.parse, spec').Success? <==> UpdateBody(k.parse, spec).Success?
  {
    LateInitKeepsVerdict(k.parse, spec, k.init, f);
  }

  lemma AttemptDecides(k: Context, spec: FeatureParameters, f: Feature, spec': FeatureParameters, f': Feature)
    requires Genuine(f) && Attempted(k, spec, f, spec', f')
    ensures Genuine(f')
    ensures UpToDate(k.parse, spec', f') <==> Repairable(k.parse, spec, f, spec')
    ensures BeyondRepair(k, spec', f') <==> !Repairable(k.parse, spec, f, spec')
  {
    var b := UpdateBody(k.parse, LateInit(spec, k.init, f).0);
    LateInitKeepsVerdict(k.parse, spec, k.init, f);
    BadBodyStays(k, spec, f, spec', f');
    if b.Success? {
      PatchStaysGenuine(b.value, f, f');
      PatchDecides(k, spec, f, spec', f');
      AttemptFillsAll(k, spec, f, spec', f');
    } else {
      BadSpecIsNeverUpToDate(k.parse, spec', f');
    }
  }

  lemma UpToDateIsRepairable(parse: ParseFloat, spec: FeatureParameters, f: Feature, spec': FeatureParameters)
    requires Genuine(f) && UpToDate(parse, spec, f)
    ensures Repairable(parse, spec, f, spec')
  {
    UpToDateSettles(parse, spec, f);
    if UpdateBody(parse, spec).Failure? {
      BadSpecIsNeverUpToDate(parse, spec, f);
    }
  }

  /**
   One reconcile of a stored feature decides, whatever is still to be late-initialized:
   afterwards the feature is what the spec asks for or beyond repair, and which of the two
   is told before the reconcile by the guard on the spec that is written back.
   */
  lemma OneReconcileDecides(w: Behaviour, k: Context, s: State, s': State, o: Outcome)
    requires Lawful(w) && Calm(w, s.cloud.calls) && Next(w, k, s, s', o)
    requires k.name in s.cloud.store && Genuine(s.cloud.store[k.name])
    ensures Settled(k, s') <==> Repairable(k.parse, s.spec, s.cloud.store[k.name], s'.spec)
    ensures Settled(k, s') <==> !Hopeless(k, s')
    ensures k.name in s'.cloud.store && Genuine(s'.cloud.store[k.name]) && s.cloud.calls <= s'.cloud.calls
  {
    var f := s.cloud.store[k.name];
    if UpToDate(k.parse, s.spec, f) {
      SettledStaysQuiet(w, k, s, s', o);
      UpToDateIsRepairable(k.parse, s.spec, f, s'.spec);
      if Hopeless(k, s') {
        HopelessNotUpToDate(k, s');
      }
    } else {
      DriftedNext(w, k, s, s', o);
      AttemptDecides(k, s.spec, f, s'.spec, s'.cloud.store[k.name]);
    }
  }

  /** An empty list of tags that faces stored ones, in a spec the reconcile will write back. */
  predicate TagsPending(k: Context, s: State) {
    && k.name in s.cloud.store
    && s.spec.tags == Some([]) && s.cloud.store[k.name].tags != []
    && HasOpenValue(s.spec, k.init, s.cloud.store[k.name])
  }

  /**
   Before the reconcile a stored feature is ready, beyond repair, or waiting for what the
   write back does to its tags.
   */
  lemma ReadyOrHopeless(k: Context, s: State)
    requires k.name in s.cloud.store && Genuine(s.cloud.store[k.name])
    ensures Ready(k, s) ==> !Hopeless(k, s) && !TagsPending(k, s)
    ensures Ready(k, s) || Hopeless(k, s) || TagsPending(k, s)
  {
  }

  /**
   In terms of the start alone: one reconcile settles, however the spec is written back,
   exactly when the start is ready.
   */
  lemma SettlesForCertainExactlyWhen(w: Behaviour, k: Context, s: State)
    requires Lawful(w) && Calm(w, s.cloud.calls)
    requires k.name in s.cloud.store && Genuine(s.cloud.store[k.name])
    ensures (forall s', o :: Next(w, k, s, s', o) ==> Settled(k, s')) <==> Ready(k, s)
  {
    if Ready(k, s) {
      forall s', o | Next(w, k, s, s', o) ensures Settled(k, s') {
        OneReconcileDecides(w, k, s, s', o);
      }
    } else {
      var s', o := ReconcileGoesOn(w, k, s, false);
      ObserveExisting(w, k, s.spec, s.cloud);
      OneReconcileDecides(w, k, s, s', o);
      assert s.spec.tags.None? <==> s'.spec.tags.None?;
      assert Next(w, k, s, s', o) && !Settled(k, s');
    }
  }

  /**
   The guard of the spec, or of the spec without its empty list of tags when there is an open
   field to write back for.
   */
  predicate MaySettle(k: Context, spec: FeatureParameters, f: Feature) {
    && UpdateBody(k.parse, spec).Success?
    && Settles(if HasOpenValue(spec, k.init, f) then spec.(tags := NonEmpty(spec.tags)) else spec, f)
  }

  lemma WriteBackMaySettle(k: Context, spec: FeatureParameters, f: Feature, spec': FeatureParameters)
    requires var p := LateInit(spec, k.init, f).0; spec' == p || (p != spec && spec' == DropEmpty(p))
    ensures Repairable(k.parse, spec, f, spec') ==> MaySettle(k, spec, f)
    ensures HasOpenValue(spec, k.init, f) ==> spec' == DropEmpty(LateInit(spec, k.init, f).0) ==>
              (Repairable(k.parse, spec, f, spec') <==> MaySettle(k, spec, f))
    ensures !HasOpenValue(spec, k.init, f) ==> (Repairable(k.parse, spec, f, spec') <==> MaySettle(k, spec, f))
  {
    LateInitFillsOpenFields(spec, k.init, f);
  }

  lemma NextWritesBack(w: Behaviour, k: Context, s: State, s': State, o: Outcome)
    requires Calm(w, s.cloud.calls) && Next(w, k, s, s', o) && k.name in s.cloud.store
    ensures var p := LateInit(s.spec, k.init, s.cloud.store[k.name]).0;
            s'.spec == p || (p != s.spec && s'.spec == DropEmpty(p))
  {
    ObserveExisting(w, k, s.spec, s.cloud);
  }

  /** When there is an open field to write back for, the spec can come back without its empty lists. */
  lemma BestWriteBack(w: Behaviour, k: Context, s: State) returns (s': State, o: Outcome)
    requires Calm(w, s.cloud.calls) && k.name in s.cloud.store
    ensures Next(w, k, s, s', o)
    ensures HasOpenValue(s.spec, k.init, s.cloud.store[k.name]) ==>
              s'.spec == DropEmpty(LateInit(s.spec, k.init, s.cloud.store[k.name]).0)
  {
    ObserveExisting(w, k, s.spec, s.cloud);
    LateInitFillsOpenFields(s.spec, k.init, s.cloud.store[k.name]);
    s', o := ReconcileGoesOn(w, k, s, HasOpenValue(s.spec, k.init, s.cloud.store[k.name]));
  }

  /** And it settles for some write back exactly when it may, by the spec and the stored feature alone. */
  lemma MaySettleExactlyWhen(w: Behaviour, k: Context, s: State)
    requires Lawful(w) && Calm(w, s.cloud.calls)
    requires k.name in s.cloud.store && Genuine(s.cloud.store[k.name])
    ensures (exists s', o :: Next(w, k, s, s', o) && Settled(k, s')) <==> MaySettle(k, s.spec, s.cloud.store[k.name])
  {
    var f := s.cloud.store[k.name];
    if s', o :| Next(w, k, s, s', o) && Settled(k, s') {
      OneReconcileDecides(w, k, s, s', o);
      NextWritesBack(w, k, s, s', o);
      WriteBackMaySettle(k, s.spec, f, s'.spec);
    }
    if MaySettle(k, s.spec, f) {
      var s', o := BestWriteBack(w, k, s);
      OneReconcileDecides(w, k, s, s', o);
      NextWritesBack(w, k, s, s', o);
      WriteBackMaySettle(k, s.spec, f, s'.spec);
    }
  }

  /** At rest: reported as up to date, and nothing sent but looks. */
  predicate Quiet(o: Outcome) {
    ReportsUpToDate(o) && !Writes(o)
  }

  /** Not at rest: not up to date, and a write sent or an error reported. */
  predicate Restless(o: Outcome) {
    !ReportsUpToDate(o) && (Writes(o) || o.result.Failure?)
  }

  lemma RunAfter(w: Behaviour, k: Context, trace: seq<State>, outcomes: seq<Outcome>)
    requires Run(w, k, trace, outcomes) && outcomes != []
    ensures Run(w, k, trace[1..], outcomes[1..])
  {
    var t, o := trace[1..], outcomes[1..];
    forall i: nat | i < |o| ensures StepAt(w, k, t, o, i) {
      assert StepAt(w, k, trace, outcomes, i + 1);
    }
  }

  /** What is settled stays settled and quiet. */
  lemma {:induction false} SettledStays(w: Behaviour, k: Context, trace: seq<State>, outcomes: seq<Outcome>, i: nat)
    requires Run(w, k, trace, outcomes) && Settled(k, trace[0]) && i < |trace|
    requires Calm(w, trace[0].cloud.calls)
    ensures Settled(k, trace[i]) && trace[i].cloud.store == trace[0].cloud.store
    ensures trace[0].cloud.calls <= trace[i].cloud.calls
    ensures i < |outcomes| ==> Quiet(outcomes[i])
  {
    if i > 0 {
      SettledStays(w, k, trace, outcomes, i - 1);
      assert StepAt(w, k, trace, outcomes, i - 1);
      SettledStaysQuiet(w, k, trace[i - 1], trace[i], outcomes[i - 1]);
    }
    if i < |outcomes| {
      assert StepAt(w, k, trace, outcomes, i);
      SettledStaysQuiet(w, k, trace[i], trace[i + 1], outcomes[i]);
    }
  }

  /**
   Every calm run from a stored feature is decided by its first reconcile: from the second
   on, every reconcile is quiet and the store never changes, or every reconcile writes or fails.
   */
  lemma StoredRunIsDecided(w: Behaviour, k: Context, trace: seq<State>, outcomes: seq<Outcome>, i: nat)
    requires Lawful(w) && Run(w, k, trace, outcomes) && Calm(w, trace[0].cloud.calls)
    requires k.name in trace[0].cloud.store && Genuine(trace[0].cloud.store[k.name])
    requires 1 <= i < |outcomes|
    ensures if Repairable(k.parse, trace[0].spec, trace[0].cloud.store[k.name], trace[1].spec)
            then Quiet(outcomes[i]) && Settled(k, trace[i]) && trace[i].cloud.store == trace[1].cloud.store
            else Restless(outcomes[i]) && !Settled(k, trace[i])
  {
    assert StepAt(w, k, trace, outcomes, 0);
    OneReconcileDecides(w, k, trace[0], trace[1], outcomes[0]);
    RunAfter(w, k, trace, outcomes);
    var t, o := trace[1..], outcomes[1..];
    if Settled(k, trace[1]) {
      SettledStays(w, k, t, o, i - 1);
    } else {
      HopelessStays(w, k, t, o, i - 1);
      HopelessNeverQuiet(w, k, t, o, i - 1);
      HopelessNotUpToDate(k, trace[i]);
    }
  }

  /** An absent feature that cannot be created stays absent, and the reconcile fails. */
  lemma UncreatableStep(w: Behaviour, k: Context, s: State, s': State, o: Outcome)
    requires Calm(w, s.cloud.calls) && Next(w, k, s, s', o)
    requires k.name !in s.cloud.store && CreateBody(k.parse, k.name, s.spec, k.init).Failure?
    ensures s'.spec == s.spec && s'.cloud.store == s.cloud.store && s.cloud.calls <= s'.cloud.calls
    ensures Restless(o)
  {
    RefusalsAreRecognised();
    var (c1, p1, seen) := Observing(w, k, s.spec, s.cloud);
    assert seen == Success(Observation(false, false, false)) && p1 == s.spec;
  }

  lemma {:induction false} UncreatableStays(w: Behaviour, k: Context, trace: seq<State>, outcomes: seq<Outcome>, i: nat)
    requires Run(w, k, trace, outcomes) && Calm(w, trace[0].cloud.calls) && i < |trace|
    requires k.name !in trace[0].cloud.store && CreateBody(k.parse, k.name, trace[0].spec, k.init).Failure?
    ensures trace[i].spec == trace[0].spec && trace[i].cloud.store == trace[0].cloud.store
    ensures trace[0].cloud.calls <= trace[i].cloud.calls
    ensures i < |outcomes| ==> Restless(outcomes[i])
  {
    if i > 0 {
      UncreatableStays(w, k, trace, outcomes, i - 1);
      assert StepAt(w, k, trace, outcomes, i - 1);
      UncreatableStep(w, k, trace[i - 1], trace[i], outcomes[i - 1]);
    }
    if i < |outcomes| {
      assert StepAt(w, k, trace, outcomes, i);
      UncreatableStep(w, k, trace[i], trace[i + 1], outcomes[i]);
    }
  }

  /** A created feature is one a server stores, under the external name. */
  lemma CreatedIsGenuine(w: Behaviour, k: Context, s: State, s': State, o: Outcome)
    requires Lawful(w) && Calm(w, s.cloud.calls) && k.name != "" && Next(w, k, s, s', o)
    requires k.name !in s.cloud.store && CreateBody(k.parse, k.name, s.spec, k.init).Success?
    ensures s'.spec == s.spec && k.name in s'.cloud.store && s.cloud.calls <= s'.cloud.calls
    ensures Creates(CreateBody(k.parse, k.name, s.spec, k.init).value, s'.cloud.store[k.name])
  {
    AbsentReconcile(w, k, s.spec, s.cloud);
    assert CreatesAt(w, s.cloud.calls + 1, CreateBody(k.parse, k.name, s.spec, k.init).value);
  }

  /** The i-th reconcile of a run that is settled after two, or not. */
  predicate Decided(k: Context, trace: seq<State>, outcomes: seq<Outcome>, i: nat)
    requires 2 <= i < |outcomes| < |trace|
  {
    if Settled(k, trace[2]) then Quiet(outcomes[i]) && trace[i].cloud.store == trace[2].cloud.store
    else Restless(outcomes[i])
  }

  lemma StoredIsDecided(w: Behaviour, k: Context, trace: seq<State>, outcomes: seq<Outcome>, i: nat)
    requires Lawful(w) && Run(w, k, trace, outcomes) && Calm(w, trace[0].cloud.calls)
    requires k.name in trace[0].cloud.store && Genuine(trace[0].cloud.store[k.name])
    requires 2 <= i < |outcomes|
    ensures Decided(k, trace, outcomes, i)
  {
    StoredRunIsDecided(w, k, trace, outcomes, 2);
    StoredRunIsDecided(w, k, trace, outcomes, i);
  }

  lemma UncreatableIsDecided(w: Behaviour, k: Context, trace: seq<State>, outcomes: seq<Outcome>, i: nat)
    requires Run(w, k, trace, outcomes) && Calm(w, trace[0].cloud.calls)
    requires k.name !in trace[0].cloud.store && CreateBody(k.parse, k.name, trace[0].spec, k.init).Failure?
    requires 2 <= i < |outcomes|
    ensures Decided(k, trace, outcomes, i)
  {
    UncreatableStays(w, k, trace, outcomes, 2);
    UncreatableStays(w, k, trace, outcomes, i);
  }

  lemma CreatedAtFirst(w: Behaviour, k: Context, trace: seq<State>, outcomes: seq<Outcome>)
    requires Lawful(w) && k.name != "" && Run(w, k, trace, outcomes) && Calm(w, trace[0].cloud.calls)
    requires k.name !in trace[0].cloud.store && CreateBody(k.parse, k.name, trace[0].spec, k.init).Success?
    requires outcomes != []
    ensures k.name in trace[1].cloud.store && Genuine(trace[1].cloud.store[k.name])
    ensures Calm(w, trace[1].cloud.calls)
  {
    assert StepAt(w, k, trace, outcomes, 0);
    CreatedIsGenuine(w, k, trace[0], trace[1], outcomes[0]);
  }

  /** A run decided by its second reconcile. */
  lemma DecidedBySecond(w: Behaviour, k: Context, trace: seq<State>, outcomes: seq<Outcome>, i: nat)
    requires Lawful(w) && Run(w, k, trace, outcomes) && 2 <= i < |outcomes| && Calm(w, trace[1].cloud.calls)
    requires k.name in trace[1].cloud.store && Genuine(trace[1].cloud.store[k.name])
    ensures Decided(k, trace, outcomes, i)
  {
    RunAfter(w, k, trace, outcomes);
    var t, o := trace[1..], outcomes[1..];
    assert StepAt(w, k, t, o, 0);
    OneReconcileDecides(w, k, t[0], t[1], o[0]);
    StoredRunIsDecided(w, k, t, o, i - 1);
  }

  /**
   From any spec and any store, absent feature or stored one: after two reconciles the run
   is at rest for ever or never, and which of the two is seen from the state it is then in.
   */
  lemma EveryRunIsDecided(w: Behaviour, k: Context, trace: seq<State>, outcomes: seq<Outcome>, i: nat)
    requires Lawful(w) && k.name != "" && Run(w, k, trace, outcomes) && Calm(w, trace[0].cloud.calls)
    requires k.name in trace[0].cloud.store ==> Genuine(trace[0].cloud.store[k.name])
    requires 2 <= i < |outcomes|
    ensures Decided(k, trace, outcomes, i)
  {
    if k.name in trace[0].cloud.store {
      StoredIsDecided(w, k, trace, outcomes, i);
    } else if CreateBody(k.parse, k.name, trace[0].spec, k.init).Failure? {
      UncreatableIsDecided(w, k, trace, outcomes, i);
    } else {
      CreatedAtFirst(w, k, trace, outcomes);
      DecidedBySecond(w, k, trace, outcomes, i);
    }
  }

  // ---- Where the create-only contract stops ----------------------------------------------------

  /** The default value of initProvider is what a create stores when forProvider has none. */
  lemma InitDefaultValueIsStored(k: Context, p: FeatureParameters, f: Feature)
    requires p.defaultValue == "" && Deref(k.init.defaultValue) != ""
    requires CreateBody(k.parse, k.name, p, k.init).Success? && Creates(CreateBody(k.parse, k.name, p, k.init).value, f)
    ensures f.defaultValue == Deref(k.init.defaultValue) && BeyondRepair(k, p, f)
  {
    CreateBodySends(k.parse, k.name, p, k.init);
  }

  /** The stored default value is one the spec, which has none, cannot change. */
  predicate Stuck(k: Context, s: State, defaultValue: string) {
    Hopeless(k, s) && s.spec.defaultValue == "" && s.cloud.store[k.name].defaultValue == defaultValue
  }

  lemma StuckStep(w: Behaviour, k: Context, s: State, s': State, o: Outcome, defaultValue: string)
    requires Lawful(w) && Calm(w, s.cloud.calls) && Next(w, k, s, s', o) && Stuck(k, s, defaultValue)
    ensures Stuck(k, s', defaultValue) && Calm(w, s'.cloud.calls)
  {
    HopelessStep(w, k, s, s', o);
    HopelessNotUpToDate(k, s);
    DriftedNext(w, k, s, s', o);
    if UpdateBody(k.parse, LateInit(s.spec, k.init, s.cloud.store[k.name]).0).Success? {
      PatchKeepsUnsent(k, s.spec, s.cloud.store[k.name], s'.cloud.store[k.name]);
    }
  }

  lemma StuckAt(w: Behaviour, k: Context, trace: seq<State>, outcomes: seq<Outcome>, i: nat, defaultValue: string)
    requires Lawful(w) && Run(w, k, trace, outcomes) && i < |outcomes|
    requires Stuck(k, trace[i], defaultValue) && Calm(w, trace[i].cloud.calls)
    ensures Stuck(k, trace[i + 1], defaultValue) && Calm(w, trace[i + 1].cloud.calls)
  {
    assert StepAt(w, k, trace, outcomes, i);
    StuckStep(w, k, trace[i], trace[i + 1], outcomes[i], defaultValue);
  }

  lemma {:induction false} StuckStays(
      w: Behaviour, k: Context, trace: seq<State>, outcomes: seq<Outcome>, i: nat, defaultValue: string)
    requires Lawful(w) && Run(w, k, trace, outcomes) && i < |trace|
    requires Stuck(k, trace[0], defaultValue) && Calm(w, trace[0].cloud.calls)
    ensures Stuck(k, trace[i], defaultValue) && Calm(w, trace[i].cloud.calls)
  {
    if i > 0 {
      StuckStays(w, k, trace, outcomes, i - 1, defaultValue);
      StuckAt(w, k, trace, outcomes, i - 1, defaultValue);
    }
  }

  /**
   A default value set only in initProvider is created, and then no reconcile of the run is
   ever at rest: the stored value stays, and the verdict on it stays drift.
   */
  lemma InitDefaultValueDriftsForever(w: Behaviour, k: Context, trace: seq<State>, outcomes: seq<Outcome>, i: nat)
    requires Lawful(w) && k.name != "" && Run(w, k, trace, outcomes) && Calm(w, trace[0].cloud.calls)
    requires k.name !in trace[0].cloud.store && CreateBody(k.parse, k.name, trace[0].spec, k.init).Success?
    requires trace[0].spec.defaultValue == "" && Deref(k.init.defaultValue) != ""
    requires 1 <= i < |outcomes|
    ensures k.name in trace[i].cloud.store
    ensures trace[i].cloud.store[k.name].defaultValue == Deref(k.init.defaultValue)
    ensures Restless(outcomes[i])
  {
    assert StepAt(w, k, trace, outcomes, 0);
    CreatedIsGenuine(w, k, trace[0], trace[1], outcomes[0]);
    InitDefaultValueIsStored(k, trace[0].spec, trace[1].cloud.store[k.name]);
    RunAfter(w, k, trace, outcomes);
    StuckStays(w, k, trace[1..], outcomes[1..], i - 1, Deref(k.init.defaultValue));
    HopelessNeverQuiet(w, k, trace[1..], outcomes[1..], i - 1);
  }
}
