/**
 internal/controller/feature/rules_drift.go: the comparison of the desired rules
 with the observed ones. Each Go function is a method here, proved against a
 predicate on values; the lemmas say what those predicates decide.
 */
module RuleDrift {
  import opened Options
  import opened Decimals
  import opened FeatureTypes
  import opened StringSets

  // ---- Variations: compared through a map keyed by id ---------------------------

  /** The map filled front to back from a list of variations: the last entry of an id wins. */
  function ById(g: seq<Variation>): map<string, string> {
    if g == [] then map[] else ById(g[..|g| - 1])[g[|g| - 1].variationId := g[|g| - 1].value]
  }

  predicate VariationsMatch(w: seq<VariationSpec>, g: seq<Variation>) {
    && |w| == |g|
    && var gm := ById(g);
       forall v :: v in w ==> v.variationId in gm && gm[v.variationId] == v.value
  }

  method VariationsUpToDate(w: seq<VariationSpec>, g: seq<Variation>) returns (r: bool)
    ensures r <==> VariationsMatch(w, g)
  {
    if |w| != |g| {
      return false;
    }
    var gm: map<string, string> := map[];
    for i := 0 to |g|
      invariant gm == ById(g[..i])
    {
      gm := gm[g[i].variationId := g[i].value];
      assert g[..i + 1][..i] == g[..i];
    }
    assert g[..|g|] == g;
    for i := 0 to |w|
      invariant forall v :: v in w[..i] ==> v.variationId in gm && gm[v.variationId] == v.value
    {
      var v := w[i];
      if v.variationId !in gm || gm[v.variationId] != v.value {
        return false;
      }
    }
    assert w[..|w|] == w;
    return true;
  }

  function Converted(w: seq<VariationSpec>): (c: seq<Variation>)
    ensures |c| == |w|
    ensures forall i :: 0 <= i < |w| ==> c[i] == Variation(w[i].variationId, w[i].value)
  {
    seq(|w|, i requires 0 <= i < |w| => Variation(w[i].variationId, w[i].value))
  }

  predicate DistinctIds(c: seq<Variation>) {
    forall i, j :: 0 <= i < j < |c| ==> c[i].variationId != c[j].variationId
  }

  /** No id is given two different values. */
  predicate Consistent(c: seq<Variation>) {
    forall u, v :: u in c && v in c && u.variationId == v.variationId ==> u.value == v.value
  }

  lemma {:induction false} ByIdEntries(g: seq<Variation>)
    ensures forall k :: k in ById(g) ==> Variation(k, ById(g)[k]) in g
    ensures forall v :: v in g ==> v.variationId in ById(g)
  {
    if g != [] {
      var init, last := g[..|g| - 1], g[|g| - 1];
      assert g == init + [last];
      ByIdEntries(init);
    }
  }

  /** `VariationsMatch` in terms of the converted list. */
  lemma MatchIsLookup(w: seq<VariationSpec>, g: seq<Variation>)
    ensures VariationsMatch(w, g) <==>
            |w| == |g| && forall v :: v in Converted(w) ==> v.variationId in ById(g) && ById(g)[v.variationId] == v.value
  {
    var c := Converted(w);
    forall v: Variation | v in c ensures VariationSpec(v.variationId, v.value) in w {
      var i :| 0 <= i < |c| && c[i] == v;
      assert w[i] == VariationSpec(v.variationId, v.value);
    }
    forall v | v in w ensures Variation(v.variationId, v.value) in c {
      var i :| 0 <= i < |w| && w[i] == v;
      assert c[i] == Variation(v.variationId, v.value);
    }
  }

  lemma {:induction false} DistinctFitsIn(c: seq<Variation>, g: seq<Variation>)
    requires DistinctIds(c) && forall v :: v in c ==> v in g
    ensures multiset(c) <= multiset(g)
  {
    forall v ensures multiset(c)[v] <= multiset(g)[v] {
      DistinctOccursOnce(c, v);
      if v in c {
        assert v in multiset(g);
      } else {
        assert v !in multiset(c);
      }
    }
  }

  lemma {:induction false} DistinctOccursOnce(c: seq<Variation>, v: Variation)
    requires DistinctIds(c)
    ensures multiset(c)[v] <= 1
  {
    if c != [] {
      assert c == [c[0]] + c[1..];
      DistinctOccursOnce(c[1..], v);
      if v == c[0] {
        assert v !in c[1..];
        assert v !in multiset(c[1..]);
      }
    }
  }

  lemma {:induction false} OnceEachIsDistinct(c: seq<Variation>, g: seq<Variation>)
    requires DistinctIds(c) && multiset(c) == multiset(g)
    ensures DistinctIds(g)
  {
    SameMembers(c, g);
    forall i, j | 0 <= i < j < |g| ensures g[i].variationId != g[j].variationId {
      if g[i].variationId == g[j].variationId {
        assert g[i] in c && g[j] in c;
        var a :| 0 <= a < |c| && c[a] == g[i];
        var b :| 0 <= b < |c| && c[b] == g[j];
        assert a == b;
        DistinctOccursOnce(c, g[i]);
        OccursTwice(g, i, j);
      }
    }
  }

  lemma OccursTwice(g: seq<Variation>, i: nat, j: nat)
    requires i < j < |g| && g[i] == g[j]
    ensures multiset(g)[g[i]] >= 2
  {
    assert g == g[..j] + [g[j]] + g[j + 1..];
    assert g[i] in g[..j];
    assert g[i] in multiset(g[..j]);
  }

  lemma SubsetOfSameSize<T>(a: multiset<T>, b: multiset<T>)
    requires a <= b && |a| == |b|
    ensures a == b
  {
    assert b == a + (b - a);
    assert |b| == |a| + |b - a|;
  }

  /**
   Pigeonhole: when the desired ids are distinct, the length test and the lookups
   together decide equality of the two lists as multisets, hence of the two maps,
   and the observed ids are distinct as well.
   */
  lemma DistinctMatchIsEquality(w: seq<VariationSpec>, g: seq<Variation>)
    requires DistinctIds(Converted(w))
    ensures VariationsMatch(w, g) <==> multiset(Converted(w)) == multiset(g)
    ensures VariationsMatch(w, g) <==> DistinctIds(g) && ById(Converted(w)) == ById(g)
  {
    var c := Converted(w);
    MatchIsLookup(w, g);
    ByIdEntries(g);
    ByIdEntries(c);
    if VariationsMatch(w, g) {
      forall v | v in c ensures v in g {
        assert Variation(v.variationId, ById(g)[v.variationId]) in g;
      }
      DistinctFitsIn(c, g);
      SubsetOfSameSize(multiset(c), multiset(g));
    }
    if multiset(c) == multiset(g) {
      OnceEachIsDistinct(c, g);
      SameMembers(c, g);
      ConsistentMatch(w, g);
      SameMap(c, g);
    }
    if DistinctIds(g) && ById(c) == ById(g) {
      forall v | v in c ensures v in g {
        UniqueValue(c, v);
        assert Variation(v.variationId, ById(g)[v.variationId]) in g;
      }
      forall v | v in g ensures v in c {
        UniqueValue(g, v);
        assert Variation(v.variationId, ById(c)[v.variationId]) in c;
      }
      DistinctFitsIn(c, g);
      DistinctFitsIn(g, c);
    }
  }

  lemma UniqueValue(g: seq<Variation>, v: Variation)
    requires Consistent(g) || DistinctIds(g)
    requires v in g
    ensures v.variationId in ById(g) && ById(g)[v.variationId] == v.value
  {
    ByIdEntries(g);
    var u := Variation(v.variationId, ById(g)[v.variationId]);
    assert u in g;
    var i :| 0 <= i < |g| && g[i] == u;
    var j :| 0 <= j < |g| && g[j] == v;
  }

  lemma SameMap(c: seq<Variation>, g: seq<Variation>)
    requires DistinctIds(c) && DistinctIds(g) && forall v :: v in c <==> v in g
    ensures ById(c) == ById(g)
  {
    ByIdEntries(c);
    ByIdEntries(g);
    forall k | k in ById(c) ensures k in ById(g) && ById(g)[k] == ById(c)[k] {
      UniqueValue(g, Variation(k, ById(c)[k]));
    }
    forall k | k in ById(g) ensures k in ById(c) {
      UniqueValue(c, Variation(k, ById(g)[k]));
    }
  }

  /** A stored permutation of the desired list compares as up to date exactly when no id has two values. */
  lemma ConsistentMatch(w: seq<VariationSpec>, g: seq<Variation>)
    requires multiset(Converted(w)) == multiset(g)
    ensures VariationsMatch(w, g) <==> Consistent(Converted(w))
  {
    var c := Converted(w);
    MatchIsLookup(w, g);
    SameMembers(c, g);
    if Consistent(c) {
      assert Consistent(g);
      forall v | v in c ensures v.variationId in ById(g) && ById(g)[v.variationId] == v.value {
        UniqueValue(g, v);
      }
    }
  }

  lemma DistinctIsConsistent(c: seq<Variation>)
    requires DistinctIds(c)
    ensures Consistent(c)
  {
    forall u, v | u in c && v in c && u.variationId == v.variationId ensures u.value == v.value {
      var i :| 0 <= i < |c| && c[i] == u;
      var j :| 0 <= j < |c| && c[j] == v;
    }
  }

  /** An id longer than every id in the list. */
  function FreshId(c: seq<Variation>): (id: string)
    ensures forall v :: v in c ==> |v.variationId| < |id|
  {
    if c == [] then "x"
    else
      var rest := FreshId(c[1..]);
      assert forall v :: v in c ==> v == c[0] || v in c[1..];
      if |c[0].variationId| < |rest| then rest else c[0].variationId + "x"
  }

  /**
   The comparison by id is sound for a desired list, meaning that only a permutation
   of it is ever reported as up to date, exactly when the desired ids are distinct
   or some id has two values (and then nothing is ever up to date).
   */
  lemma MatchSoundExactlyWhen(w: seq<VariationSpec>)
    ensures (forall g :: VariationsMatch(w, g) ==> multiset(Converted(w)) == multiset(g))
            <==> (DistinctIds(Converted(w)) || !Consistent(Converted(w)))
  {
    var c := Converted(w);
    if DistinctIds(c) {
      forall g | VariationsMatch(w, g) ensures multiset(c) == multiset(g) {
        DistinctMatchIsEquality(w, g);
      }
    } else if !Consistent(c) {
      forall g ensures !VariationsMatch(w, g) {
        MatchIsLookup(w, g);
      }
    } else {
      var g := MaskedDuplicate(w);
      assert VariationsMatch(w, g) && multiset(c) != multiset(g);
    }
  }

  predicate DistinctFrom(id: string, c: seq<Variation>) {
    forall v :: v in c ==> v.variationId != id
  }

  lemma ForeignKeepsConsistent(c: seq<Variation>, j: nat, foreign: Variation)
    requires j < |c| && Consistent(c) && DistinctFrom(foreign.variationId, c)
    ensures Consistent(c[j := foreign])
  {
    var g := c[j := foreign];
    forall u, v | u in g && v in g && u.variationId == v.variationId ensures u.value == v.value {
      assert u == foreign || u in c;
      assert v == foreign || v in c;
    }
  }

  /** A repeated id hides one foreign variation from the comparison. */
  lemma MaskedDuplicate(w: seq<VariationSpec>) returns (g: seq<Variation>)
    requires !DistinctIds(Converted(w)) && Consistent(Converted(w))
    ensures VariationsMatch(w, g) && multiset(Converted(w)) != multiset(g)
    ensures exists v :: v in g && v !in Converted(w) && DistinctFrom(v.variationId, Converted(w))
  {
    var c := Converted(w);
    var i, j :| 0 <= i < j < |c| && c[i].variationId == c[j].variationId;
    var foreign := Variation(FreshId(c), "");
    g := MaskedAt(c, i, j, foreign);
    assert foreign in multiset(g) && foreign !in multiset(c);
    MatchIsLookup(w, g);
  }

  lemma MaskedAt(c: seq<Variation>, i: nat, j: nat, foreign: Variation) returns (g: seq<Variation>)
    requires i < j < |c| && c[i].variationId == c[j].variationId && Consistent(c)
    requires DistinctFrom(foreign.variationId, c)
    ensures |g| == |c| && foreign in g && foreign !in c
    ensures forall v :: v in g ==> v == foreign || v in c
    ensures forall v :: v in c ==> v.variationId in ById(g) && ById(g)[v.variationId] == v.value
  {
    g := c[j := foreign];
    assert g[j] == foreign;
    ForeignKeepsConsistent(c, j, foreign);
    assert c[i] in c && c[j] in c;
    forall v | v in c ensures v.variationId in ById(g) && ById(g)[v.variationId] == v.value {
      var k :| 0 <= k < |c| && c[k] == v;
      assert g[if k == j then i else k] == v;
      UniqueValue(g, v);
    }
  }

  // ---- Saved groups: ordered entries, ids as a set ------------------------------

  predicate SavedGroupsMatch(w: seq<SavedGroupSpec>, g: seq<SavedGroup>) {
    && |w| == |g|
    && forall i :: 0 <= i < |w| ==> w[i].mode == g[i].mode && multiset(w[i].ids) == multiset(g[i].ids)
  }

  method SavedGroupsUpToDate(w: seq<SavedGroupSpec>, g: seq<SavedGroup>) returns (r: bool)
    ensures r <==> SavedGroupsMatch(w, g)
  {
    if |w| != |g| {
      return false;
    }
    for i := 0 to |w|
      invariant forall k :: 0 <= k < i ==> w[k].mode == g[k].mode && multiset(w[k].ids) == multiset(g[k].ids)
    {
      if w[i].mode != g[i].mode {
        return false;
      }
      var same := SameLists(w[i].ids, g[i].ids);
      if !same {
        return false;
      }
    }
    return true;
  }

  // ---- One rule -----------------------------------------------------------------

  predicate ScopeMatches(w: RuleSpec, g: Rule) {
    && DerefBool(w.allEnvironments) == g.allEnvironments
    && (g.allEnvironments || multiset(w.environments) == multiset(g.environments))
  }

  method EnvironmentsRuleUpToDate(w: RuleSpec, g: Rule) returns (r: bool)
    ensures r <==> ScopeMatches(w, g)
  {
    var wantAll := DerefBool(w.allEnvironments);
    if wantAll != g.allEnvironments {
      return false;
    }
    if wantAll {
      return true;
    }
    r := SameLists(w.environments, g.environments);
  }

  /** Numeric comparison: an unparseable desired coverage counts as out of date. */
  predicate CoverageMatches(parse: ParseFloat, w: Option<string>, g: Option<Float>) {
    if w.None? then g.None?
    else
      var f := parse(w.value);
      f.Some? && g.Some? && FloatEq(f.value, g.value)
  }

  predicate ValueMatches(parse: ParseFloat, w: RuleSpec, g: Rule) {
    && Deref(w.value) == g.value
    && Deref(w.hashAttribute) == g.hashAttribute
    && Deref(w.experimentId) == g.experimentId
    && CoverageMatches(parse, w.coverage, g.coverage)
    && VariationsMatch(w.variations, g.variations)
  }

  method RuleValueUpToDate(parse: ParseFloat, w: RuleSpec, g: Rule) returns (r: bool)
    ensures r <==> ValueMatches(parse, w, g)
  {
    if Deref(w.value) != g.value {
      return false;
    } else if Deref(w.hashAttribute) != g.hashAttribute {
      return false;
    } else if Deref(w.experimentId) != g.experimentId {
      return false;
    } else if !CoverageMatches(parse, w.coverage, g.coverage) {
      return false;
    }
    r := VariationsUpToDate(w.variations, g.variations);
  }

  predicate RuleMatches(parse: ParseFloat, w: RuleSpec, g: Rule) {
    && w.kind == g.kind
    && Agrees(w.id, g.id)
    && EnabledOrTrue(w.enabled) == EnabledOrTrue(g.enabled)
    && Deref(w.condition) == g.condition
    && SavedGroupsMatch(w.savedGroups, g.savedGroups)
    && ScopeMatches(w, g)
    && ValueMatches(parse, w, g)
  }

  method RuleUpToDate(parse: ParseFloat, w: RuleSpec, g: Rule) returns (r: bool)
    ensures r <==> RuleMatches(parse, w, g)
  {
    if w.kind != g.kind {
      return false;
    } else if w.id.Some? && w.id.value != g.id {
      return false;
    } else if EnabledOrTrue(w.enabled) != EnabledOrTrue(g.enabled) {
      return false;
    } else if Deref(w.condition) != g.condition {
      return false;
    }
    var groups := SavedGroupsUpToDate(w.savedGroups, g.savedGroups);
    if !groups {
      return false;
    }
    var scope := EnvironmentsRuleUpToDate(w, g);
    if !scope {
      return false;
    }
    r := RuleValueUpToDate(parse, w, g);
  }

  // ---- The rule list ------------------------------------------------------------

  /** Rules are opt-in: a nil list never drifts, a set one compares rule by rule, in order. */
  predicate RulesMatch(parse: ParseFloat, want: Option<seq<RuleSpec>>, got: seq<Rule>) {
    want.Some? ==>
      && |want.value| == |got|
      && forall i :: 0 <= i < |got| ==> RuleMatches(parse, want.value[i], got[i])
  }

  method RulesUpToDate(parse: ParseFloat, want: Option<seq<RuleSpec>>, got: seq<Rule>) returns (r: bool)
    ensures r <==> RulesMatch(parse, want, got)
  {
    if want.None? {
      return true;
    }
    if |want.value| != |got| {
      return false;
    }
    for i := 0 to |want.value|
      invariant forall k :: 0 <= k < i ==> RuleMatches(parse, want.value[k], got[k])
    {
      var same := RuleUpToDate(parse, want.value[i], got[i]);
      if !same {
        return false;
      }
    }
    return true;
  }
}
