/** What affinity requirements, rules and totals mean, operator by operator. */
module Affinity {
  import opened Prelude
  import opened Membership
  import opened Policy

  // ----- one value -----

  /** `In` asks for a listed value and `NotIn` for an unlisted one. */
  lemma PresentKey(parse: NumberParser, text: string, r: AffinityRequirement)
    ensures r.operator.In? ==>
      (EvaluateTableValue(parse, Some(text), r) <==> exists i :: 0 <= i < |r.values| && r.values[i] == text)
    ensures r.operator.NotIn? ==>
      (EvaluateTableValue(parse, Some(text), r) <==> forall i :: 0 <= i < |r.values| ==> r.values[i] != text)
  {
  }

  lemma MissingKey(parse: NumberParser, r: AffinityRequirement)
    ensures EvaluateTableValue(parse, None, r) <==> r.operator == NotIn
  {
  }

  lemma NotInIsTheComplementOfIn(parse: NumberParser, text: string, r: AffinityRequirement)
    ensures EvaluateTableValue(parse, Some(text), r.(operator := NotIn))
       <==> !EvaluateTableValue(parse, Some(text), r.(operator := In))
  {
  }

  /** No value is listed at first, a value is once it is added, and it stays listed. */
  lemma ListingIsMonotone(parse: NumberParser, text: string, r: AffinityRequirement, more: seq<string>)
    requires r.operator.In?
    ensures !EvaluateTableValue(parse, Some(text), r.(values := []))
    ensures EvaluateTableValue(parse, Some(text), r.(values := r.values + [text]))
    ensures EvaluateTableValue(parse, Some(text), r) ==> EvaluateTableValue(parse, Some(text), r.(values := r.values + more))
  {
    assert text in r.values + [text];
  }

  /** Comparisons need exactly one value and a number on both sides, and are strict. */
  lemma ComparisonsNeedNumbers(parse: NumberParser, text: string, r: AffinityRequirement)
    requires (r.operator.Lt? || r.operator.Gt?) && EvaluateTableValue(parse, Some(text), r)
    ensures |r.values| == 1 && r.values[0] != text
    ensures parse(text).Some? && !parse(text).value.NaN?
    ensures parse(r.values[0]).Some? && !parse(r.values[0]).value.NaN?
  {
  }

  /** On finite numbers they are the orders of the reals; the infinities lie outside. */
  lemma ComparisonsOrderNumbers(parse: NumberParser, text: string, r: AffinityRequirement, x: real, y: real)
    requires |r.values| == 1 && (r.operator.Lt? || r.operator.Gt?)
    ensures parse(text) == Some(Finite(x)) && parse(r.values[0]) == Some(Finite(y)) ==>
      (EvaluateTableValue(parse, Some(text), r) <==> if r.operator.Lt? then x < y else x > y)
    ensures parse(text) == Some(NegInf) && parse(r.values[0]) == Some(Finite(y)) ==>
      (EvaluateTableValue(parse, Some(text), r) <==> r.operator.Lt?)
    ensures parse(text) == Some(PosInf) && parse(r.values[0]) == Some(Finite(y)) ==>
      (EvaluateTableValue(parse, Some(text), r) <==> r.operator.Gt?)
    ensures parse(text) == Some(NegInf) && parse(r.values[0]) == Some(PosInf) ==>
      (EvaluateTableValue(parse, Some(text), r) <==> r.operator.Lt?)
  {
  }

  /** The two comparisons exclude each other, and exchanging the sides exchanges them. */
  lemma ComparisonsAreOpposite(parse: NumberParser, text: string, other: string, r: AffinityRequirement)
    requires r.values == [other]
    ensures !(EvaluateTableValue(parse, Some(text), r.(operator := Lt))
           && EvaluateTableValue(parse, Some(text), r.(operator := Gt)))
    ensures EvaluateTableValue(parse, Some(text), r.(operator := Lt))
       <==> EvaluateTableValue(parse, Some(other), r.(operator := Gt, values := [text]))
  {
  }

  // ----- one rule -----

  /** The object carries the key, in the table that the requirement names, with a listed value. */
  predicate CarriesListed(o: Metadata, table: MetadataTable, key: string, values: seq<string>) {
    match table
    case Label => key in o.labels && o.labels[key] in values
    case Annotation => key in o.annotations && o.annotations[key] in values
  }

  /**
   * A rule with one `In` requirement holds, apart from its direction, exactly of non-empty sets
   * of objects that all carry a listed value.
   */
  lemma ListingRule(parse: NumberParser, objects: set<Metadata>, rule: AffinityRule)
    requires |rule.requirements| == 1 && rule.requirements[0].operator.In?
    ensures var r := rule.requirements[0];
      RuleHolds(parse, objects, rule)
      <==> rule.inverse != (objects != {} && forall o :: o in objects ==> CarriesListed(o, r.table, r.key, r.values))
  {
    var r := rule.requirements[0];
    assert forall o :: o in objects ==>
      (EvaluateTableValue(parse, Lookup(o, r), r) <==> CarriesListed(o, r.table, r.key, r.values));
    assert RequirementHolds(parse, objects, r)
      <==> objects != {} && forall o :: o in objects ==> CarriesListed(o, r.table, r.key, r.values);
    assert forall q :: q in rule.requirements <==> q == r;
  }

  /** A requirement more is an alternative more. */
  lemma RequirementsAreAlternatives(parse: NumberParser, objects: set<Metadata>, rule: AffinityRule, r: AffinityRequirement)
    requires !rule.inverse
    ensures RuleHolds(parse, objects, rule.(requirements := rule.requirements + [r]))
       <==> RuleHolds(parse, objects, rule) || RuleHolds(parse, objects, rule.(requirements := [r]))
    ensures !RuleHolds(parse, objects, rule.(requirements := []))
    ensures RuleHolds(parse, objects, rule.(inverse := true)) <==> !RuleHolds(parse, objects, rule)
  {
    assert forall q :: q in rule.requirements + [r] <==> q in rule.requirements || q == r;
    assert forall q :: q in [r] <==> q == r;
  }

  // ----- all rules -----

  function Clamped(n: int): I64 {
    if n < I64_MIN then I64_MIN else if n > I64_MAX then I64_MAX else n
  }

  /** What one more rule does to the total: rejection, nothing, or its weight up to saturation. */
  lemma {:induction false} OneMoreRule(
    parse: NumberParser, rules: seq<AffinityRule>, rule: AffinityRule, vmObjects: set<Metadata>, agentObject: Metadata, sum: I64)
    ensures var objects := if rule.affinityType == Agent then {agentObject} else vmObjects;
      var before := AffinityTotal(parse, rules, vmObjects, agentObject, sum);
      AffinityTotal(parse, rules + [rule], vmObjects, agentObject, sum)
      == if before.None? then None
         else if RuleHolds(parse, objects, rule)
              then Some(if rule.strictness.Preferred? then Clamped(before.value + rule.strictness.weight) else before.value)
         else if rule.strictness.Required? then None
         else before
    decreases |rules|
  {
    if rules == [] {
      assert (rules + [rule])[1..] == [];
    } else {
      assert (rules + [rule])[0] == rules[0] && (rules + [rule])[1..] == rules[1..] + [rule];
      var follows := RuleHolds(parse, ObjectsInScope(rules[0], vmObjects, agentObject), rules[0]);
      var delta := AffinityDelta(rules[0].strictness, follows);
      if delta.Some? {
        OneMoreRule(parse, rules[1..], rule, vmObjects, agentObject, SatAddI64(sum, delta.value));
      }
    }
  }

  /** One required `In` rule admits exactly what its direction, scope, table and list say. */
  lemma RequiredListingRule(parse: NumberParser, rule: AffinityRule, vmObjects: set<Metadata>, agentObject: Metadata)
    requires rule.strictness.Required? && |rule.requirements| == 1 && rule.requirements[0].operator.In?
    ensures var r := rule.requirements[0];
      var objects := if rule.affinityType == Agent then {agentObject} else vmObjects;
      RequiredRulesHold(parse, [rule], vmObjects, agentObject)
      <==> rule.inverse != (objects != {} && forall o :: o in objects ==> CarriesListed(o, r.table, r.key, r.values))
  {
    ListingRule(parse, ObjectsInScope(rule, vmObjects, agentObject), rule);
    assert forall q :: q in [rule] <==> q == rule;
  }
}
