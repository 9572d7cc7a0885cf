/**
 What a rule list means: rules are evaluated in list order and the first matching
 rule wins (apis/feature/v1alpha1/feature_rules_types.go:40-42). The targeting
 condition, the saved groups, the hash and the experiment assignment are decided
 by GrowthBook, so a visitor carries them as functions. The comparison of rules respects
 this meaning except around repeated variation ids; the second half says exactly when.
 */
module RuleMeaning {
  import opened Options
  import opened Decimals
  import opened FeatureTypes
  import opened RuleDrift
  import opened RuleConvert
  import opened StringSets

  datatype Visitor = Visitor(
    environment: string,
    meets: string -> bool,
    inGroup: string -> bool,
    bucket: string -> real,
    assignment: string -> Option<string>)

  predicate InScope(all: bool, environments: seq<string>, v: Visitor) {
    all || v.environment in environments
  }

  predicate Targeted(condition: string, v: Visitor) {
    condition == "" || v.meets(condition)
  }

  predicate GroupAdmits(mode: string, ids: seq<string>, v: Visitor) {
    if mode == "all" then forall id :: id in ids ==> v.inGroup(id)
    else if mode == "any" then exists id :: id in ids && v.inGroup(id)
    else if mode == "none" then forall id :: id in ids ==> !v.inGroup(id)
    else false
  }

  /** A rollout covers the visitors whose hash falls below the coverage; unset covers everyone. */
  predicate Covered(coverage: Option<Float>, hashAttribute: string, v: Visitor) {
    match coverage
    case None => true
    case Some(Finite(c)) => v.bucket(hashAttribute) < c
    case Some(Infinite(negative)) => !negative
    case Some(NaN) => false
  }

  function FirstValue(c: seq<Variation>, id: string): Option<string> {
    if c == [] then None
    else if c[0].variationId == id then Some(c[0].value)
    else FirstValue(c[1..], id)
  }

  function FirstDesired(w: seq<VariationSpec>, id: string): Option<string> {
    if w == [] then None
    else if w[0].variationId == id then Some(w[0].value)
    else FirstDesired(w[1..], id)
  }

  /** Whether a stored rule is on, in scope and targeted at the visitor. */
  predicate Reaches(g: Rule, v: Visitor) {
    && g.enabled != Some(false)
    && InScope(g.allEnvironments, g.environments, v)
    && Targeted(g.condition, v)
    && forall s :: s in g.savedGroups ==> GroupAdmits(s.mode, s.ids, v)
  }

  /** Whether a desired rule asks to reach the visitor. */
  predicate AsksToReach(w: RuleSpec, v: Visitor) {
    && w.enabled != Some(false)
    && InScope(w.allEnvironments == Some(true), w.environments, v)
    && Targeted(Deref(w.condition), v)
    && forall s :: s in w.savedGroups ==> GroupAdmits(s.mode, s.ids, v)
  }

  /** The value a stored rule serves the visitor, or None when it does not match. */
  function Serves(g: Rule, v: Visitor): Option<string> {
    if !Reaches(g, v) then None
    else if g.kind == "force" then Some(g.value)
    else if g.kind == "rollout" then
      if Covered(g.coverage, g.hashAttribute, v) then Some(g.value) else None
    else if g.kind == "experiment-ref" then
      var variation := v.assignment(g.experimentId);
      if variation.None? then None else FirstValue(g.variations, variation.value)
    else None
  }

  /** A coverage that is no number covers nobody. */
  function AskedCoverage(parse: ParseFloat, coverage: Option<string>): Option<Float> {
    if coverage.None? then None
    else if parse(coverage.value).None? then Some(NaN)
    else parse(coverage.value)
  }

  /** The value a desired rule asks to serve. */
  function Asks(parse: ParseFloat, w: RuleSpec, v: Visitor): Option<string> {
    if !AsksToReach(w, v) then None
    else if w.kind == "force" then Some(Deref(w.value))
    else if w.kind == "rollout" then
      if Covered(AskedCoverage(parse, w.coverage), Deref(w.hashAttribute), v) then Some(Deref(w.value)) else None
    else if w.kind == "experiment-ref" then
      var variation := v.assignment(Deref(w.experimentId));
      if variation.None? then None else FirstDesired(w.variations, variation.value)
    else None
  }

  /** First match wins; without a match the fallback is served. */
  function Served(rules: seq<Rule>, fallback: string, v: Visitor): string {
    if rules == [] then fallback
    else if Serves(rules[0], v).Some? then Serves(rules[0], v).value
    else Served(rules[1..], fallback, v)
  }

  function Asked(parse: ParseFloat, rules: seq<RuleSpec>, fallback: string, v: Visitor): string {
    if rules == [] then fallback
    else if Asks(parse, rules[0], v).Some? then Asks(parse, rules[0], v).value
    else Asked(parse, rules[1..], fallback, v)
  }

  lemma {:induction false} FirstValueOfConverted(w: seq<VariationSpec>, id: string)
    ensures FirstDesired(w, id) == FirstValue(Converted(w), id)
  {
    if w != [] {
      assert Converted(w)[1..] == Converted(w[1..]);
      FirstValueOfConverted(w[1..], id);
    }
  }

  lemma {:induction false} FirstValueFinds(c: seq<Variation>, id: string)
    ensures FirstValue(c, id).Some? ==> Variation(id, FirstValue(c, id).value) in c
    ensures FirstValue(c, id).None? ==> DistinctFrom(id, c)
  {
    if c != [] {
      assert c == [c[0]] + c[1..];
      FirstValueFinds(c[1..], id);
    }
  }

  /** Of several variations with one id the first in the list is served. */
  lemma {:induction false} FirstOfSeveral(c: seq<Variation>, i: nat)
    requires i < |c| && DistinctFrom(c[i].variationId, c[..i])
    ensures FirstValue(c, c[i].variationId) == Some(c[i].value)
  {
    if i > 0 {
      assert c[0] in c[..i];
      assert c[1..][..i - 1] == c[..i][1..];
      FirstOfSeveral(c[1..], i - 1);
    }
  }

  lemma FirstValueOrderFree(c: seq<Variation>, g: seq<Variation>, id: string)
    requires Consistent(c) && multiset(c) == multiset(g)
    ensures FirstValue(c, id) == FirstValue(g, id)
  {
    FirstValueFinds(c, id);
    FirstValueFinds(g, id);
    SameMembers(c, g);
  }

  lemma GroupOrderFree(mode: string, a: seq<string>, b: seq<string>, v: Visitor)
    requires multiset(a) == multiset(b)
    ensures GroupAdmits(mode, a, v) == GroupAdmits(mode, b, v)
  {
    SameMembers(a, b);
  }

  lemma GroupsAgree(w: seq<SavedGroupSpec>, g: seq<SavedGroup>, v: Visitor)
    requires SavedGroupsMatch(w, g)
    ensures (forall s :: s in w ==> GroupAdmits(s.mode, s.ids, v))
            <==> (forall s :: s in g ==> GroupAdmits(s.mode, s.ids, v))
  {
    forall i | 0 <= i < |w| ensures GroupAdmits(w[i].mode, w[i].ids, v) == GroupAdmits(g[i].mode, g[i].ids, v) {
      GroupOrderFree(w[i].mode, w[i].ids, g[i].ids, v);
    }
    if s :| s in w && !GroupAdmits(s.mode, s.ids, v) {
      var i :| 0 <= i < |w| && w[i] == s;
      assert g[i] in g;
    }
    if s :| s in g && !GroupAdmits(s.mode, s.ids, v) {
      var i :| 0 <= i < |g| && g[i] == s;
      assert w[i] in w;
    }
  }

  lemma MatchingRuleReaches(parse: ParseFloat, w: RuleSpec, g: Rule, v: Visitor)
    requires RuleMatches(parse, w, g)
    ensures AsksToReach(w, v) <==> Reaches(g, v)
  {
    GroupsAgree(w.savedGroups, g.savedGroups, v);
    if !g.allEnvironments {
      SameMembers(w.environments, g.environments);
    }
  }

  lemma MatchingVariations(w: seq<VariationSpec>, g: seq<Variation>, id: string)
    requires DistinctIds(Converted(w)) && VariationsMatch(w, g)
    ensures FirstDesired(w, id) == FirstValue(g, id)
  {
    DistinctMatchIsEquality(w, g);
    DistinctIsConsistent(Converted(w));
    FirstValueOfConverted(w, id);
    FirstValueOrderFree(Converted(w), g, id);
  }

  // ---- The evaluation, field by field --------------------------------------------------

  /** An unset `enabled` means on, for the comparison on either side and for the evaluation. */
  lemma UnsetEnabledIsOn(parse: ParseFloat, w: RuleSpec, g: Rule, v: Visitor)
    ensures RuleMatches(parse, w.(enabled := None), g) <==> RuleMatches(parse, w.(enabled := Some(true)), g)
    ensures RuleMatches(parse, w, g.(enabled := None)) <==> RuleMatches(parse, w, g.(enabled := Some(true)))
    ensures !RuleMatches(parse, w.(enabled := None), g.(enabled := Some(false)))
    ensures !RuleMatches(parse, w.(enabled := Some(false)), g.(enabled := None))
    ensures !RuleMatches(parse, w.(enabled := Some(false)), g.(enabled := Some(true)))
    ensures Serves(g.(enabled := None), v) == Serves(g.(enabled := Some(true)), v)
    ensures Serves(g.(enabled := Some(false)), v) == None
    ensures Asks(parse, w.(enabled := None), v) == Asks(parse, w.(enabled := Some(true)), v)
    ensures Asks(parse, w.(enabled := Some(false)), v) == None
  {
  }

  /**
   An unset `allEnvironments` means no: converted, compared and evaluated like an explicit
   no, for the listed environments only.
   */
  lemma UnsetAllEnvironmentsIsNo(parse: ParseFloat, w: RuleSpec, g: Rule, v: Visitor)
    ensures var unset, no := w.(allEnvironments := None), w.(allEnvironments := Some(false));
            && (Parses(parse, w.coverage) ==>
                  ConvertedRule(parse, unset) == ConvertedRule(parse, no) && !ConvertedRule(parse, unset).allEnvironments)
            && (RuleMatches(parse, unset, g) <==> RuleMatches(parse, no, g))
            && (RuleMatches(parse, unset, g) ==> !g.allEnvironments && multiset(g.environments) == multiset(w.environments))
            && Asks(parse, unset, v) == Asks(parse, no, v)
            && (v.environment !in w.environments ==> Asks(parse, unset, v) == None)
            && (v.environment !in w.environments && RuleMatches(parse, unset, g) ==> Serves(g, v) == None)
  {
    var unset := w.(allEnvironments := None);
    if RuleMatches(parse, unset, g) {
      SameMembers(w.environments, g.environments);
    }
  }

  /** With allEnvironments set the environments do not matter, and every environment is reached. */
  lemma AllEnvironmentsIsEverywhere(parse: ParseFloat, w: RuleSpec, g: Rule, environments: seq<string>, v: Visitor)
    requires w.allEnvironments == Some(true)
    ensures Parses(parse, w.coverage) ==> ConvertedRule(parse, w).allEnvironments
    ensures RuleMatches(parse, w, g) <==> RuleMatches(parse, w.(environments := environments), g)
    ensures RuleMatches(parse, w, g) ==> g.allEnvironments
    ensures Asks(parse, w, v) == Asks(parse, w, v.(environment := ""))
  {
    var v' := v.(environment := "");
    forall s | s in w.savedGroups ensures GroupAdmits(s.mode, s.ids, v') == GroupAdmits(s.mode, s.ids, v) {
    }
  }

  /** A condition is for GrowthBook to decide: who meets it is served as without one, who does not is served nothing. */
  lemma ConditionDecides(g: Rule, v: Visitor)
    ensures g.condition != "" && !v.meets(g.condition) ==> Serves(g, v) == None
    ensures g.condition == "" || v.meets(g.condition) ==> Serves(g, v) == Serves(g.(condition := ""), v)
  {
  }

  /** A coverage that is no number asks to serve nobody. */
  lemma UnreadableCoverageAsksNobody(parse: ParseFloat, w: RuleSpec, v: Visitor)
    requires w.kind == "rollout" && !Parses(parse, w.coverage)
    ensures Asks(parse, w, v) == None
  {
  }

  /** What a reached visitor is served, by the type of the rule. */
  lemma ServedByType(g: Rule, v: Visitor)
    requires Reaches(g, v)
    ensures g.kind == "force" ==> Serves(g, v) == Some(g.value)
    ensures g.kind == "rollout" && g.coverage.None? ==> Serves(g, v) == Some(g.value)
    ensures g.kind == "rollout" && g.coverage.Some? && g.coverage.value.Finite? ==>
              Serves(g, v) == if v.bucket(g.hashAttribute) < g.coverage.value.value then Some(g.value) else None
    ensures g.kind == "rollout" && g.coverage == Some(Infinite(false)) ==> Serves(g, v) == Some(g.value)
    ensures g.kind == "rollout" && (g.coverage == Some(Infinite(true)) || g.coverage == Some(NaN)) ==> Serves(g, v) == None
    ensures g.kind == "experiment-ref" && v.assignment(g.experimentId).None? ==> Serves(g, v) == None
    ensures g.kind == "experiment-ref" && v.assignment(g.experimentId).Some? ==>
              forall i :: 0 <= i < |g.variations| && g.variations[i].variationId == v.assignment(g.experimentId).value
                          && DistinctFrom(g.variations[i].variationId, g.variations[..i]) ==>
                Serves(g, v) == Some(g.variations[i].value)
  {
    if g.kind == "experiment-ref" && v.assignment(g.experimentId).Some? {
      forall i | 0 <= i < |g.variations| && g.variations[i].variationId == v.assignment(g.experimentId).value
                 && DistinctFrom(g.variations[i].variationId, g.variations[..i])
        ensures Serves(g, v) == Some(g.variations[i].value)
      {
        FirstOfSeveral(g.variations, i);
      }
    }
  }

  /** On hashes from 0 up to 1, coverage 0 serves nobody, coverage 1 everybody, and a larger one no fewer. */
  lemma CoverageIsAShare(g: Rule, c: real, d: real, v: Visitor)
    requires Reaches(g, v) && g.kind == "rollout" && 0.0 <= v.bucket(g.hashAttribute) < 1.0 && c <= d
    ensures Serves(g.(coverage := Some(Finite(0.0))), v) == None
    ensures Serves(g.(coverage := Some(Finite(1.0))), v) == Some(g.value)
    ensures Serves(g.(coverage := Some(Finite(c))), v) == Some(g.value) ==>
              Serves(g.(coverage := Some(Finite(d))), v) == Some(g.value)
  {
    forall o ensures Reaches(g.(coverage := o), v) {
    }
  }

  /** The first rule that serves the visitor decides. */
  lemma {:induction false} FirstMatchWins(got: seq<Rule>, i: nat, fallback: string, v: Visitor)
    requires i < |got| && Serves(got[i], v).Some?
    requires forall j :: 0 <= j < i ==> Serves(got[j], v).None?
    ensures Served(got, fallback, v) == Serves(got[i], v).value
  {
    if i > 0 {
      FirstMatchWins(got[1..], i - 1, fallback, v);
    }
  }

  /** Without such a rule the fallback is served. */
  lemma {:induction false} NoMatchServesFallback(got: seq<Rule>, fallback: string, v: Visitor)
    requires forall j :: 0 <= j < |got| ==> Serves(got[j], v).None?
    ensures Served(got, fallback, v) == fallback
  {
    if got != [] {
      NoMatchServesFallback(got[1..], fallback, v);
    }
  }

  // ---- Where a repeated variation id is harmless ------------------------------------

  /** A desired experiment rule that gives two variations one id. */
  predicate RepeatsIds(w: RuleSpec) {
    w.kind == "experiment-ref" && !DistinctIds(Converted(w.variations))
  }

  /** Such a rule decides what this visitor is served, once the earlier rules let the visitor pass. */
  predicate AtRisk(w: RuleSpec, v: Visitor) {
    RepeatsIds(w) && AsksToReach(w, v) && v.assignment(Deref(w.experimentId)).Some?
  }

  /** No rule before the i-th asks to serve the visitor. */
  predicate Passes(parse: ParseFloat, want: seq<RuleSpec>, i: nat, v: Visitor)
    requires i <= |want|
  {
    forall j :: 0 <= j < i ==> Asks(parse, want[j], v).None?
  }

  /** No rule with a repeated id decides what this visitor is served. */
  predicate Safe(parse: ParseFloat, want: seq<RuleSpec>, v: Visitor) {
    forall i :: 0 <= i < |want| && AtRisk(want[i], v) ==> !Passes(parse, want, i, v)
  }

  lemma MatchingRuleServes(parse: ParseFloat, w: RuleSpec, g: Rule, v: Visitor)
    requires RuleMatches(parse, w, g) && !AtRisk(w, v)
    ensures Asks(parse, w, v) == Serves(g, v)
  {
    MatchingRuleReaches(parse, w, g, v);
    var variation := v.assignment(g.experimentId);
    if w.kind == "experiment-ref" && variation.Some? && AsksToReach(w, v) {
      MatchingVariations(w.variations, g.variations, variation.value);
    }
  }

  /**
   The drift verdict respects meaning: stored rules reported as up to date serve every
   visitor, in every environment, exactly what the desired rules ask for, unless a rule
   with a repeated id decides for that visitor.
   */
  lemma {:induction false} UpToDateRulesServeTheSame(
      parse: ParseFloat, want: seq<RuleSpec>, got: seq<Rule>, fallback: string, v: Visitor)
    requires RulesMatch(parse, Some(want), got) && Safe(parse, want, v)
    ensures Asked(parse, want, fallback, v) == Served(got, fallback, v)
  {
    if want != [] {
      assert RuleMatches(parse, want[0], got[0]);
      assert Passes(parse, want, 0, v);
      MatchingRuleServes(parse, want[0], got[0], v);
      if Asks(parse, want[0], v).None? {
        RestMatches(parse, want, got);
        RestIsSafe(parse, want, v);
        UpToDateRulesServeTheSame(parse, want[1..], got[1..], fallback, v);
      }
    }
  }

  /** Rules that serve a visitor alike one by one serve the visitor alike as lists. */
  lemma {:induction false} ServedAlike(parse: ParseFloat, want: seq<RuleSpec>, got: seq<Rule>, fallback: string, v: Visitor)
    requires |want| == |got| && forall i :: 0 <= i < |want| ==> Asks(parse, want[i], v) == Serves(got[i], v)
    ensures Asked(parse, want, fallback, v) == Served(got, fallback, v)
  {
    if want != [] {
      ServedAlike(parse, want[1..], got[1..], fallback, v);
    }
  }

  lemma RestMatches(parse: ParseFloat, want: seq<RuleSpec>, got: seq<Rule>)
    requires want != [] && RulesMatch(parse, Some(want), got)
    ensures RulesMatch(parse, Some(want[1..]), got[1..])
  {
    forall i | 0 <= i < |got[1..]| ensures RuleMatches(parse, want[1..][i], got[1..][i]) {
      assert RuleMatches(parse, want[i + 1], got[i + 1]);
    }
  }

  lemma RestIsSafe(parse: ParseFloat, want: seq<RuleSpec>, v: Visitor)
    requires want != [] && Safe(parse, want, v) && Asks(parse, want[0], v).None?
    ensures Safe(parse, want[1..], v)
  {
    forall i | 0 <= i < |want[1..]| && AtRisk(want[1..][i], v) ensures !Passes(parse, want[1..], i, v) {
      assert AtRisk(want[i + 1], v) && !Passes(parse, want, i + 1, v);
      var j :| 0 <= j < i + 1 && Asks(parse, want[j], v).Some?;
      assert want[1..][j - 1] == want[j];
    }
  }

  // ---- Where it is not: the exact condition ------------------------------------------

  /** Some stored rule compares as up to date: the coverage is a number or unset, and no id has two values. */
  predicate Matchable(parse: ParseFloat, w: RuleSpec) {
    && Parses(parse, w.coverage)
    && (w.coverage.Some? ==> !parse(w.coverage.value).value.NaN?)
    && Consistent(Converted(w.variations))
  }

  /** A matchable rule, converted and stored as it is, matches and serves every visitor what it asks. */
  lemma ConvertedMatches(parse: ParseFloat, w: RuleSpec)
    requires Matchable(parse, w)
    ensures RuleMatches(parse, w, ConvertedRule(parse, w))
    ensures forall v :: Asks(parse, w, v) == Serves(ConvertedRule(parse, w), v)
  {
    var g := ConvertedRule(parse, w);
    ConsistentMatch(w.variations, g.variations);
    assert SavedGroupsMatch(w.savedGroups, g.savedGroups);
    forall v ensures Asks(parse, w, v) == Serves(g, v) {
      MatchingRuleReaches(parse, w, g, v);
      var variation := v.assignment(g.experimentId);
      if variation.Some? {
        FirstValueOfConverted(w.variations, variation.value);
      }
    }
  }

  lemma MatchableExactlyWhen(parse: ParseFloat, w: RuleSpec)
    ensures (exists g :: RuleMatches(parse, w, g)) <==> Matchable(parse, w)
  {
    if g :| RuleMatches(parse, w, g) {
      MatchIsLookup(w.variations, g.variations);
    }
    if Matchable(parse, w) {
      ConvertedMatches(parse, w);
    }
  }

  /** An id no saved group of the rule may admit. */
  predicate Excluded(w: RuleSpec, id: string) {
    exists s :: s in w.savedGroups && s.mode == "none" && id in s.ids
  }

  /** What a rule asks of visitors does not contradict itself. */
  predicate Reachable(w: RuleSpec) {
    && w.enabled != Some(false)
    && (w.allEnvironments == Some(true) || w.environments != [])
    && forall s :: s in w.savedGroups ==>
         || s.mode == "none"
         || (s.mode == "all" && forall id :: id in s.ids ==> !Excluded(w, id))
         || (s.mode == "any" && exists id :: id in s.ids && !Excluded(w, id))
  }

  /** A visitor in the first environment who meets every condition and is in every group not excluded. */
  function Candidate(w: RuleSpec): Visitor {
    Visitor(if w.environments == [] then "" else w.environments[0], _ => true, id => !Excluded(w, id), _ => 0.0, _ => None)
  }

  lemma ReachableExactlyWhen(w: RuleSpec)
    ensures (exists v :: AsksToReach(w, v)) <==> Reachable(w)
  {
    if v :| AsksToReach(w, v) {
      forall id | Excluded(w, id) ensures !v.inGroup(id) {
        var s :| s in w.savedGroups && s.mode == "none" && id in s.ids;
        assert GroupAdmits(s.mode, s.ids, v);
      }
      forall s | s in w.savedGroups && s.mode != "none"
        ensures (s.mode == "all" && forall id :: id in s.ids ==> !Excluded(w, id))
                || (s.mode == "any" && exists id :: id in s.ids && !Excluded(w, id))
      {
        assert GroupAdmits(s.mode, s.ids, v);
      }
    }
    if Reachable(w) {
      var v := Candidate(w);
      forall s | s in w.savedGroups ensures GroupAdmits(s.mode, s.ids, v) {
      }
      assert AsksToReach(w, v);
    }
  }

  /** The visitor, assigned to another variation of one experiment. */
  function Reassigned(v: Visitor, experiment: string, id: string): Visitor {
    v.(assignment := e => if e == experiment then Some(id) else v.assignment(e))
  }

  lemma ReassignedReaches(w: RuleSpec, v: Visitor, experiment: string, id: string)
    ensures AsksToReach(w, Reassigned(v, experiment, id)) <==> AsksToReach(w, v)
  {
    var v' := Reassigned(v, experiment, id);
    forall s | s in w.savedGroups ensures GroupAdmits(s.mode, s.ids, v') == GroupAdmits(s.mode, s.ids, v) {
    }
  }

  /** An id the rule does not know makes no rule serve that passed before. */
  lemma ReassignedPasses(parse: ParseFloat, w: RuleSpec, v: Visitor, experiment: string, id: string)
    requires DistinctFrom(id, Converted(w.variations)) && Asks(parse, w, v).None?
    ensures Asks(parse, w, Reassigned(v, experiment, id)).None?
  {
    ReassignedReaches(w, v, experiment, id);
    FirstValueOfConverted(w.variations, id);
    FirstValueFinds(Converted(w.variations), id);
  }

  /** A repeated id leaves room for a foreign variation that the comparison does not see and a lookup finds. */
  lemma MaskedVariations(w: seq<VariationSpec>, foreign: Variation) returns (masked: seq<Variation>)
    requires !DistinctIds(Converted(w)) && Consistent(Converted(w))
    requires DistinctFrom(foreign.variationId, Converted(w))
    ensures VariationsMatch(w, masked) && FirstValue(masked, foreign.variationId) == Some(foreign.value)
    ensures FirstDesired(w, foreign.variationId) == None
  {
    var c, id := Converted(w), foreign.variationId;
    var a, b :| 0 <= a < b < |c| && c[a].variationId == c[b].variationId;
    masked := MaskedAt(c, a, b, foreign);
    MatchIsLookup(w, masked);
    FirstValueOfConverted(w, id);
    FirstValueFinds(c, id);
    FirstValueFinds(masked, id);
  }

  /** Among the fields of a rule only the variations leave such room. */
  lemma MaskedMatches(parse: ParseFloat, w: RuleSpec, masked: seq<Variation>)
    requires Matchable(parse, w) && VariationsMatch(w.variations, masked)
    ensures RuleMatches(parse, w, ConvertedRule(parse, w).(variations := masked))
  {
    ConvertedMatches(parse, w);
  }

  /** A repeated id hides a stored rule that serves a foreign value to a visitor the desired rule serves nothing. */
  lemma MaskedRule(parse: ParseFloat, w: RuleSpec, v: Visitor, foreign: Variation) returns (g: Rule)
    requires Matchable(parse, w) && RepeatsIds(w) && AsksToReach(w, v)
    requires v.assignment(Deref(w.experimentId)) == Some(foreign.variationId)
    requires DistinctFrom(foreign.variationId, Converted(w.variations))
    ensures RuleMatches(parse, w, g) && Serves(g, v) == Some(foreign.value) && Asks(parse, w, v) == None
  {
    var masked := MaskedVariations(w.variations, foreign);
    g := ConvertedRule(parse, w).(variations := masked);
    MaskedMatches(parse, w, masked);
    MatchingRuleReaches(parse, w, g, v);
  }

  /**
   One rule: an up-to-date verdict guarantees its meaning exactly when it is no experiment
   rule, or its ids are distinct, or it can reach nobody, or it can never be up to date.
   */
  lemma RuleMeaningExactlyWhen(parse: ParseFloat, w: RuleSpec)
    ensures (forall g, v :: RuleMatches(parse, w, g) ==> Asks(parse, w, v) == Serves(g, v))
            <==> (!RepeatsIds(w) || !Reachable(w) || !Matchable(parse, w))
  {
    if !RepeatsIds(w) || !Reachable(w) || !Matchable(parse, w) {
      forall g, v | RuleMatches(parse, w, g) ensures Asks(parse, w, v) == Serves(g, v) {
        MatchableExactlyWhen(parse, w);
        ReachableExactlyWhen(w);
        MatchingRuleServes(parse, w, g, v);
      }
    } else {
      ReachableExactlyWhen(w);
      var v :| AsksToReach(w, v);
      var foreign := Variation(FreshId(Converted(w.variations)), "");
      var v' := Reassigned(v, Deref(w.experimentId), foreign.variationId);
      ReassignedReaches(w, v, Deref(w.experimentId), foreign.variationId);
      var g := MaskedRule(parse, w, v', foreign);
      assert RuleMatches(parse, w, g) && Asks(parse, w, v') != Serves(g, v');
    }
  }

  // ---- Rule lists ----------------------------------------------------------------------

  function AllVariations(want: seq<RuleSpec>): seq<Variation> {
    if want == [] then [] else Converted(want[0].variations) + AllVariations(want[1..])
  }

  lemma {:induction false} AllVariationsHoldsEach(want: seq<RuleSpec>, j: nat, id: string)
    requires j < |want| && DistinctFrom(id, AllVariations(want))
    ensures DistinctFrom(id, Converted(want[j].variations))
  {
    if j > 0 {
      AllVariationsHoldsEach(want[1..], j - 1, id);
    }
  }

  predicate AllMatchable(parse: ParseFloat, want: seq<RuleSpec>) {
    forall w :: w in want ==> Matchable(parse, w)
  }

  /**
   For every desired list that some stored list matches, whenever a visitor passes the
   earlier rules and is reached by one with a repeated id, some stored list is reported
   as up to date and yet serves a visitor what the desired rules do not ask for.
   */
  lemma RepeatedVariationIdHidesDrift(parse: ParseFloat, want: seq<RuleSpec>, fallback: string, i: nat, v: Visitor)
    returns (got: seq<Rule>, v': Visitor)
    requires AllMatchable(parse, want) && i < |want|
    requires RepeatsIds(want[i]) && AsksToReach(want[i], v) && Passes(parse, want, i, v)
    ensures RulesMatch(parse, Some(want), got)
    ensures Asked(parse, want, fallback, v') != Served(got, fallback, v')
  {
    var experiment, id := Deref(want[i].experimentId), FreshId(AllVariations(want));
    v' := Reassigned(v, experiment, id);
    ReassignedReaches(want[i], v, experiment, id);
    forall j | 0 <= j < |want| ensures DistinctFrom(id, Converted(want[j].variations)) {
      AllVariationsHoldsEach(want, j, id);
    }
    var foreign := Variation(id, Asked(parse, want, fallback, v') + "x");
    var masked := MaskedRule(parse, want[i], v', foreign);
    got := ConvertedList(parse, want)[i := masked];
    OneReplacedMatches(parse, want, i, masked);
    forall j | 0 <= j < i ensures Serves(got[j], v').None? {
      ReassignedPasses(parse, want[j], v, experiment, id);
      ConvertedMatches(parse, want[j]);
    }
    FirstMatchWins(got, i, fallback, v');
  }

  lemma OneReplacedMatches(parse: ParseFloat, want: seq<RuleSpec>, i: nat, g: Rule)
    requires AllMatchable(parse, want) && i < |want| && RuleMatches(parse, want[i], g)
    ensures RulesMatch(parse, Some(want), ConvertedList(parse, want)[i := g])
  {
    forall j | 0 <= j < |want| && j != i
      ensures Matchable(parse, want[j]) && RuleMatches(parse, want[j], ConvertedRule(parse, want[j]))
    {
      ConvertedMatches(parse, want[j]);
    }
  }

  /** An up-to-date verdict on this list guarantees every visitor what the list asks. */
  ghost predicate VerdictRespectsMeaning(parse: ParseFloat, want: seq<RuleSpec>, fallback: string) {
    forall got, v :: RulesMatch(parse, Some(want), got) ==>
      Asked(parse, want, fallback, v) == Served(got, fallback, v)
  }

  /**
   The verdict on a rule list respects meaning exactly when no stored list can match it,
   or no visitor comes, past the earlier rules, to a rule with a repeated id.
   */
  lemma MeaningExactlyWhen(parse: ParseFloat, want: seq<RuleSpec>, fallback: string)
    ensures VerdictRespectsMeaning(parse, want, fallback)
            <==> (!AllMatchable(parse, want) || forall v :: Safe(parse, want, v))
  {
    if !AllMatchable(parse, want) {
      UnmatchableNeverMatches(parse, want);
    } else if forall v :: Safe(parse, want, v) {
      forall got, v | RulesMatch(parse, Some(want), got)
        ensures Asked(parse, want, fallback, v) == Served(got, fallback, v)
      {
        UpToDateRulesServeTheSame(parse, want, got, fallback, v);
      }
    } else {
      var v :| !Safe(parse, want, v);
      var i :| 0 <= i < |want| && AtRisk(want[i], v) && Passes(parse, want, i, v);
      var got, v' := RepeatedVariationIdHidesDrift(parse, want, fallback, i, v);
      assert !VerdictRespectsMeaning(parse, want, fallback);
    }
  }

  lemma UnmatchableNeverMatches(parse: ParseFloat, want: seq<RuleSpec>)
    requires !AllMatchable(parse, want)
    ensures forall got :: !RulesMatch(parse, Some(want), got)
  {
    var w :| w in want && !Matchable(parse, w);
    var i :| 0 <= i < |want| && want[i] == w;
    forall got ensures !RulesMatch(parse, Some(want), got) {
      if RulesMatch(parse, Some(want), got) {
        assert RuleMatches(parse, want[i], got[i]);
        MatchableExactlyWhen(parse, w);
      }
    }
  }
}
