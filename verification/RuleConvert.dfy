/**
 internal/controller/feature/rules_convert.go: the desired rules as API rules. The
 loops that fill slices by index are methods, proved against functions on values.
 */
module RuleConvert {
  import opened Options
  import opened Decimals
  import opened FeatureTypes
  import opened RuleDrift

  function ConvertedGroups(groups: seq<SavedGroupSpec>): (c: seq<SavedGroup>)
    ensures |c| == |groups|
    ensures forall i :: 0 <= i < |groups| ==> c[i] == SavedGroup(groups[i].mode, groups[i].ids)
  {
    seq(|groups|, i requires 0 <= i < |groups| => SavedGroup(groups[i].mode, groups[i].ids))
  }

  method SavedGroupsRequest(groups: seq<SavedGroupSpec>) returns (r: seq<SavedGroup>)
    ensures r == ConvertedGroups(groups)
  {
    var out := new SavedGroup[|groups|];
    for i := 0 to |groups|
      invariant forall k :: 0 <= k < i ==> out[k] == SavedGroup(groups[k].mode, groups[k].ids)
    {
      out[i] := SavedGroup(groups[i].mode, groups[i].ids);
    }
    r := out[..];
  }

  method VariationsRequest(variations: seq<VariationSpec>) returns (r: seq<Variation>)
    ensures r == Converted(variations)
  {
    var out := new Variation[|variations|];
    for i := 0 to |variations|
      invariant forall k :: 0 <= k < i ==> out[k] == Variation(variations[k].variationId, variations[k].value)
    {
      out[i] := Variation(variations[i].variationId, variations[i].value);
    }
    r := out[..];
  }

  /** A coverage the converter accepts: unset, or a string that parses. */
  predicate Parses(parse: ParseFloat, coverage: Option<string>) {
    coverage.Some? ==> parse(coverage.value).Some?
  }

  function ConvertedRule(parse: ParseFloat, r: RuleSpec): Rule
    requires Parses(parse, r.coverage)
  {
    Rule(r.kind, Deref(r.id), Deref(r.description), r.enabled, Deref(r.condition),
         ConvertedGroups(r.savedGroups), DerefBool(r.allEnvironments), r.environments, Deref(r.value),
         if r.coverage.None? then None else Some(parse(r.coverage.value).value),
         Deref(r.hashAttribute), Deref(r.experimentId), Converted(r.variations))
  }

  method RuleRequest(parse: ParseFloat, r: RuleSpec) returns (res: Result<Rule, RequestError>)
    ensures res == if Parses(parse, r.coverage) then Success(ConvertedRule(parse, r)) else Failure(CoverageNotDecimal)
  {
    var groups := SavedGroupsRequest(r.savedGroups);
    var variations := VariationsRequest(r.variations);
    var gr := Rule(r.kind, Deref(r.id), Deref(r.description), r.enabled, Deref(r.condition),
                   groups, DerefBool(r.allEnvironments), r.environments, Deref(r.value), None,
                   Deref(r.hashAttribute), Deref(r.experimentId), variations);
    if r.coverage.Some? {
      var f := parse(r.coverage.value);
      if f.None? {
        return Failure(CoverageNotDecimal);
      }
      gr := gr.(coverage := f);
    }
    return Success(gr);
  }

  predicate AllParse(parse: ParseFloat, rules: seq<RuleSpec>) {
    forall r :: r in rules ==> Parses(parse, r.coverage)
  }

  /** The error of the first rule, front to back, whose coverage does not parse. */
  function FirstError(parse: ParseFloat, rules: seq<RuleSpec>): (e: RequestError)
    requires !AllParse(parse, rules)
    ensures e.InRule? && e.index < |rules| && e.cause == CoverageNotDecimal
    ensures !Parses(parse, rules[e.index].coverage) && AllParse(parse, rules[..e.index])
  {
    if !Parses(parse, rules[0].coverage) then InRule(0, CoverageNotDecimal)
    else
      assert rules == [rules[0]] + rules[1..];
      var e := FirstError(parse, rules[1..]);
      assert rules[..e.index + 1] == [rules[0]] + rules[1..][..e.index];
      InRule(e.index + 1, CoverageNotDecimal)
  }

  lemma FirstErrorUnique(parse: ParseFloat, rules: seq<RuleSpec>, i: nat)
    requires i < |rules| && AllParse(parse, rules[..i]) && !Parses(parse, rules[i].coverage)
    ensures !AllParse(parse, rules) && FirstError(parse, rules) == InRule(i, CoverageNotDecimal)
  {
    assert rules[i] in rules;
    var e := FirstError(parse, rules);
    PrefixParses(parse, rules, i, e.index);
    PrefixParses(parse, rules, e.index, i);
  }

  lemma PrefixParses(parse: ParseFloat, rules: seq<RuleSpec>, n: nat, i: nat)
    requires n <= |rules| && i < |rules| && AllParse(parse, rules[..n])
    ensures i < n ==> Parses(parse, rules[i].coverage)
  {
    if i < n {
      assert rules[..n][i] in rules[..n];
    }
  }

  function ConvertedList(parse: ParseFloat, rules: seq<RuleSpec>): (out: seq<Rule>)
    requires AllParse(parse, rules)
    ensures |out| == |rules|
    ensures forall i :: 0 <= i < |rules| ==> out[i] == ConvertedRule(parse, rules[i])
  {
    seq(|rules|, i requires 0 <= i < |rules| => ConvertedRule(parse, rules[i]))
  }

  /** Nil rules stay nil (unmanaged); a set list, even an empty one, is converted whole or fails. */
  function ConvertedRules(parse: ParseFloat, rules: Option<seq<RuleSpec>>): Result<Option<seq<Rule>>, RequestError> {
    if rules.None? then Success(None)
    else if AllParse(parse, rules.value) then Success(Some(ConvertedList(parse, rules.value)))
    else Failure(FirstError(parse, rules.value))
  }

  method RulesRequest(parse: ParseFloat, rules: Option<seq<RuleSpec>>)
    returns (res: Result<Option<seq<Rule>>, RequestError>)
    ensures res == ConvertedRules(parse, rules)
  {
    if rules.None? {
      return Success(None);
    }
    var out := new Rule[|rules.value|];
    for i := 0 to |rules.value|
      invariant AllParse(parse, rules.value[..i])
      invariant forall k :: 0 <= k < i ==>
        Parses(parse, rules.value[k].coverage) && out[k] == ConvertedRule(parse, rules.value[k])
    {
      var gr := RuleRequest(parse, rules.value[i]);
      if gr.Failure? {
        FirstErrorUnique(parse, rules.value, i);
        return Failure(InRule(i, gr.error));
      }
      out[i] := gr.value;
      assert rules.value[..i + 1] == rules.value[..i] + [rules.value[i]];
    }
    assert rules.value[..|rules.value|] == rules.value;
    assert out[..] == ConvertedList(parse, rules.value);
    return Success(Some(out[..]));
  }
}
