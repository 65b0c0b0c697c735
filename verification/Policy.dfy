/** Capacity, affinity and score arithmetic (`scheduler_actor/scheduling.rs`, manifest types). */
module Policy {
  import opened Prelude
  import opened Membership

  // ----- floating point, with exact reals in place of rounding -----

  datatype Float = NaN | NegInf | Finite(value: real) | PosInf

  /** `parse::<f64>` is a parameter of the policy. */
  type NumberParser = string -> Option<Float>

  predicate Less(a: Float, b: Float) {
    match (a, b)
    case (NaN, _) => false
    case (_, NaN) => false
    case (NegInf, _) => !b.NegInf?
    case (_, PosInf) => !a.PosInf?
    case (Finite(x), Finite(y)) => x < y
    case _ => false
  }

  function Plus(a: Float, b: Float): Float {
    match (a, b)
    case (Finite(x), Finite(y)) => Finite(x + y)
    case (NegInf, Finite(_)) => NegInf
    case (NegInf, NegInf) => NegInf
    case (Finite(_), NegInf) => NegInf
    case (PosInf, Finite(_)) => PosInf
    case (PosInf, PosInf) => PosInf
    case (Finite(_), PosInf) => PosInf
    case _ => NaN
  }

  /** Quotient of two non-negative integers in floating point: 0/0 is NaN, n/0 is infinite. */
  function Ratio(n: nat, d: nat): Float {
    if d != 0 then Finite(n as real / d as real) else if n == 0 then NaN else PosInf
  }

  // ----- manifests -----

  const I64_MIN: int := -0x8000_0000_0000_0000
  const I64_MAX: int := 0x7FFF_FFFF_FFFF_FFFF

  type I64 = n: int | I64_MIN <= n <= I64_MAX

  function SatAddI64(a: I64, b: I64): I64 {
    if a + b < I64_MIN then I64_MIN else if a + b > I64_MAX then I64_MAX else a + b
  }

  datatype Strictness = Required | Preferred(weight: I64)

  datatype AffinityType = VirtualMachine | Agent

  datatype MetadataTable = Label | Annotation

  datatype Operator = In | NotIn | Lt | Gt

  datatype AffinityRequirement = AffinityRequirement(
    key: string, table: MetadataTable, operator: Operator, values: seq<string>)

  datatype AffinityRule = AffinityRule(
    strictness: Strictness, affinityType: AffinityType, inverse: bool, requirements: seq<AffinityRequirement>)

  /** `rest` stands for the manifest fields that the scheduler only compares for equality. */
  datatype Manifest = Manifest(
    vcpus: U32, memory: U64, metadata: Metadata, affinity: seq<AffinityRule>, rest: string)

  // ----- affinity -----

  function Lookup(metadata: Metadata, requirement: AffinityRequirement): Option<string> {
    var table := if requirement.table.Label? then metadata.labels else metadata.annotations;
    if requirement.key in table then Some(table[requirement.key]) else None
  }

  /** Missing keys match only `NotIn`; comparisons need one parseable value on both sides. */
  predicate EvaluateTableValue(parse: NumberParser, value: Option<string>, requirement: AffinityRequirement) {
    match value
    case None => requirement.operator.NotIn?
    case Some(text) =>
      match requirement.operator
      case In => text in requirement.values
      case NotIn => text !in requirement.values
      case _ =>
        && |requirement.values| == 1
        && parse(text).Some?
        && parse(requirement.values[0]).Some?
        && if requirement.operator.Lt?
           then Less(parse(text).value, parse(requirement.values[0]).value)
           else Less(parse(requirement.values[0]).value, parse(text).value)
  }

  /** A requirement holds of a non-empty set of objects when every object satisfies it. */
  ghost predicate RequirementHolds(parse: NumberParser, objects: set<Metadata>, requirement: AffinityRequirement) {
    objects != {} && forall o :: o in objects ==> EvaluateTableValue(parse, Lookup(o, requirement), requirement)
  }

  /** Requirements are alternatives; `inverse` negates their disjunction. */
  ghost predicate RuleHolds(parse: NumberParser, objects: set<Metadata>, rule: AffinityRule) {
    rule.inverse != exists r :: r in rule.requirements && RequirementHolds(parse, objects, r)
  }

  /** The early-exit loops compute the rule, whatever the order of the objects. */
  method EvaluateAffinityRule(parse: NumberParser, tables: seq<Metadata>, rule: AffinityRule) returns (follows: bool)
    ensures follows <==> RuleHolds(parse, Elems(tables), rule)
  {
    var matched := false;
    for i := 0 to |rule.requirements|
      invariant !matched
      invariant forall k :: 0 <= k < i ==> !RequirementHolds(parse, Elems(tables), rule.requirements[k])
    {
      var requirement := rule.requirements[i];
      var outcome := tables != [];
      ElemsEmpty(tables);
      for j := 0 to |tables|
        invariant outcome <==> tables != []
        invariant forall k :: 0 <= k < j ==> EvaluateTableValue(parse, Lookup(tables[k], requirement), requirement)
      {
        if !EvaluateTableValue(parse, Lookup(tables[j], requirement), requirement) {
          outcome := false;
          assert tables[j] in Elems(tables);
          break;
        }
      }
      assert outcome <==> RequirementHolds(parse, Elems(tables), requirement);
      if outcome {
        matched := true;
        break;
      }
    }
    return matched != rule.inverse;
  }

  /** A failed required rule rejects; an unmet preferred rule contributes nothing. */
  function AffinityDelta(strictness: Strictness, follows: bool): Option<I64> {
    match strictness
    case Required => if follows then Some(0) else None
    case Preferred(weight) => Some(if follows then weight else 0)
  }

  ghost function ObjectsInScope(rule: AffinityRule, vmObjects: set<Metadata>, agentObject: Metadata): set<Metadata> {
    if rule.affinityType.VirtualMachine? then vmObjects else {agentObject}
  }

  /** The affinity component after scanning `rules` from `sum`, or rejection. */
  ghost function AffinityTotal(
    parse: NumberParser, rules: seq<AffinityRule>, vmObjects: set<Metadata>, agentObject: Metadata, sum: I64): Option<I64>
    decreases |rules|
  {
    if rules == [] then Some(sum) else
      var follows := RuleHolds(parse, ObjectsInScope(rules[0], vmObjects, agentObject), rules[0]);
      match AffinityDelta(rules[0].strictness, follows)
      case None => None
      case Some(delta) => AffinityTotal(parse, rules[1..], vmObjects, agentObject, SatAddI64(sum, delta))
  }

  ghost predicate RequiredRulesHold(
    parse: NumberParser, rules: seq<AffinityRule>, vmObjects: set<Metadata>, agentObject: Metadata)
  {
    forall r :: r in rules && r.strictness.Required? ==> RuleHolds(parse, ObjectsInScope(r, vmObjects, agentObject), r)
  }

  lemma {:induction false} RejectionMeansRequiredRuleFails(
    parse: NumberParser, rules: seq<AffinityRule>, vmObjects: set<Metadata>, agentObject: Metadata, sum: I64)
    ensures AffinityTotal(parse, rules, vmObjects, agentObject, sum).Some?
       <==> RequiredRulesHold(parse, rules, vmObjects, agentObject)
    decreases |rules|
  {
    if rules != [] {
      var follows := RuleHolds(parse, ObjectsInScope(rules[0], vmObjects, agentObject), rules[0]);
      var delta := AffinityDelta(rules[0].strictness, follows);
      assert forall r :: r in rules <==> r == rules[0] || r in rules[1..];
      if delta.Some? {
        RejectionMeansRequiredRuleFails(parse, rules[1..], vmObjects, agentObject, SatAddI64(sum, delta.value));
      }
    }
  }

  // ----- capacity -----

  const VCPU_OVERPROVISIONMENT: nat := 2

  predicate HasCapacity(
    maxVcpus: U32, usedVcpus: U32, requestedVcpus: U32, maxRam: U64, usedRam: U64, requestedRam: U64)
  {
    && SatAdd(U32_MAX, usedVcpus, requestedVcpus) <= maxVcpus
    && SatAdd(U64_MAX, usedRam, requestedRam) <= maxRam
  }

  /** Resources reserved on an agent by pending placements. */
  datatype Reservation = Reservation(vcpus: nat, ram: nat)

  /** Reservations as the machine holds them: each component saturated. */
  function Saturated(r: Reservation): Reservation {
    Reservation(Min(U32_MAX, r.vcpus), Min(U64_MAX, r.ram))
  }

  predicate Representable(r: Reservation) {
    r.vcpus <= U32_MAX && r.ram <= U64_MAX
  }

  function VcpuLimit(status: AgentStatus): U32 {
    Min(U32_MAX, status.vcpus * VCPU_OVERPROVISIONMENT)
  }

  /** The capacity test that scoring applies to one agent. */
  predicate Fits(m: Manifest, status: AgentStatus, reserved: Reservation)
    requires Representable(reserved)
  {
    HasCapacity(
      VcpuLimit(status), SatAdd(U32_MAX, status.usedVcpus, reserved.vcpus), m.vcpus,
      status.ram, SatAdd(U64_MAX, status.usedRam, reserved.ram), m.memory)
  }

  /** Used plus reserved resources within twice the vCPUs and the RAM, in unbounded integers. */
  ghost predicate WithinLimits(status: AgentStatus, reserved: Reservation) {
    && status.usedVcpus + reserved.vcpus <= 2 * status.vcpus
    && status.usedRam + reserved.ram <= status.ram
  }

  /** Limits that saturating arithmetic can tell from "everything". */
  ghost predicate Measurable(status: AgentStatus) {
    2 * status.vcpus < U32_MAX && status.ram < U64_MAX
  }

  /** On a measurable agent the saturating test is exact in unbounded integers. */
  lemma CapacityCheckIsExact(m: Manifest, status: AgentStatus, exact: Reservation)
    requires Measurable(status)
    ensures Fits(m, status, Saturated(exact))
       <==> WithinLimits(status, Reservation(exact.vcpus + m.vcpus, exact.ram + m.memory))
  {
  }

  /** On any other agent, every request that fits it now also passes under some excessive load. */
  lemma UnmeasurableAgentsAreOvercommitted(m: Manifest, status: AgentStatus)
    requires !Measurable(status) && Fits(m, status, Reservation(0, 0))
    ensures exists exact: Reservation ::
      Fits(m, status, Saturated(exact)) && !WithinLimits(status, Reservation(exact.vcpus + m.vcpus, exact.ram + m.memory))
  {
    var exact := if 2 * status.vcpus >= U32_MAX then Reservation(2 * status.vcpus + 1, 0) else Reservation(0, U64_MAX + 1);
    assert Fits(m, status, Saturated(exact));
    assert !WithinLimits(status, Reservation(exact.vcpus + m.vcpus, exact.ram + m.memory));
  }

  // ----- scores -----

  datatype AgentScore = AgentScore(affinity: I64, general: Float)

  const REJECTED := AgentScore(I64_MIN, NegInf)

  /** Strict lexicographic order: affinity first, then headroom. */
  predicate Beats(a: AgentScore, b: AgentScore) {
    a.affinity > b.affinity || (a.affinity == b.affinity && Less(b.general, a.general))
  }

  function Headroom(m: Manifest, status: AgentStatus, reserved: Reservation): Float
    requires Representable(reserved) && Fits(m, status, reserved)
  {
    var usedVcpus := SatAdd(U32_MAX, SatAdd(U32_MAX, status.usedVcpus, reserved.vcpus), m.vcpus);
    var usedRam := SatAdd(U64_MAX, SatAdd(U64_MAX, status.usedRam, reserved.ram), m.memory);
    Plus(Plus(Finite(0.0), Ratio(VcpuLimit(status) - usedVcpus, VcpuLimit(status))),
         Ratio(SatSub(status.ram, usedRam), status.ram))
  }

  ghost function ScoreOf(
    parse: NumberParser, m: Manifest, status: AgentStatus, reserved: Reservation, vmObjects: set<Metadata>): AgentScore
    requires Representable(reserved)
  {
    if !Fits(m, status, reserved) then REJECTED else
      match AffinityTotal(parse, m.affinity, vmObjects, status.metadata, 0)
      case None => REJECTED
      case Some(affinity) => AgentScore(affinity, Headroom(m, status, reserved))
  }

  /** The agent has room for the request and satisfies all its required rules. */
  ghost predicate Eligible(
    parse: NumberParser, m: Manifest, status: AgentStatus, reserved: Reservation, vmObjects: set<Metadata>)
    requires Representable(reserved)
  {
    Fits(m, status, reserved) && RequiredRulesHold(parse, m.affinity, vmObjects, status.metadata)
  }

  predicate AsksForSomething(m: Manifest) {
    m.vcpus >= 1 && m.memory >= 1
  }

  lemma RatioIsProper(n: nat, d: nat)
    requires d > 0
    ensures Ratio(n, d).Finite? && Ratio(n, d).value >= 0.0
  {
    var x, y := n as real, d as real;
    assert x >= 0.0 && y > 0.0;
    assert x / y >= 0.0;
  }

  /** With both capacities the headroom is a proper number; without one of them it is 0/0. */
  lemma HeadroomIsExact(m: Manifest, status: AgentStatus, reserved: Reservation)
    requires Representable(reserved) && Fits(m, status, reserved)
    ensures var headroom := Headroom(m, status, reserved);
      if status.vcpus > 0 && status.ram > 0 then headroom.Finite? && headroom.value >= 0.0 else headroom.NaN?
  {
    var usedVcpus := SatAdd(U32_MAX, SatAdd(U32_MAX, status.usedVcpus, reserved.vcpus), m.vcpus);
    var usedRam := SatAdd(U64_MAX, SatAdd(U64_MAX, status.usedRam, reserved.ram), m.memory);
    if status.vcpus > 0 {
      RatioIsProper(VcpuLimit(status) - usedVcpus, VcpuLimit(status));
    }
    if status.ram > 0 {
      RatioIsProper(SatSub(status.ram, usedRam), status.ram);
    }
  }

  lemma RatioOfRest(used: nat, d: nat)
    requires 0 < d && used <= d
    ensures Ratio(d - used, d) == Finite(1.0 - used as real / d as real)
  {
    var u, x := used as real, d as real;
    assert (x - u) / x == x / x - u / x;
  }

  /** The fractions of the vCPU limit and of the RAM that are in use once the request is placed. */
  ghost function FractionUsed(m: Manifest, status: AgentStatus, exact: Reservation): real
    requires status.vcpus > 0 && status.ram > 0
  {
    Min(U32_MAX, status.usedVcpus + exact.vcpus + m.vcpus) as real / Min(U32_MAX, 2 * status.vcpus) as real
    + Min(U64_MAX, status.usedRam + exact.ram + m.memory) as real / status.ram as real
  }

  /** The headroom is what those fractions leave of two whole resources. */
  lemma HeadroomIsWhatIsLeft(m: Manifest, status: AgentStatus, exact: Reservation)
    requires status.vcpus > 0 && status.ram > 0 && Fits(m, status, Saturated(exact))
    ensures Headroom(m, status, Saturated(exact)) == Finite(2.0 - FractionUsed(m, status, exact))
    ensures Measurable(status) ==>
      Headroom(m, status, Saturated(exact)) == Finite(
        2.0 - (status.usedVcpus + exact.vcpus + m.vcpus) as real / (2 * status.vcpus) as real
            - (status.usedRam + exact.ram + m.memory) as real / status.ram as real)
  {
    RatioOfRest(Min(U32_MAX, status.usedVcpus + exact.vcpus + m.vcpus), VcpuLimit(status));
    RatioOfRest(Min(U64_MAX, status.usedRam + exact.ram + m.memory), status.ram);
  }

  /** No division by zero: an agent with room for a proper request has proper capacities. */
  lemma HeadroomIsProper(m: Manifest, status: AgentStatus, reserved: Reservation)
    requires Representable(reserved) && Fits(m, status, reserved) && AsksForSomething(m)
    ensures Headroom(m, status, reserved).Finite? && Headroom(m, status, reserved).value >= 0.0
  {
    HeadroomIsExact(m, status, reserved);
  }

  /**
   * An eligible agent that the scan can select: with the affinity saturated to the least
   * integer the headroom decides, and without capacities the headroom is no number.
   */
  ghost predicate Rankable(
    parse: NumberParser, m: Manifest, status: AgentStatus, reserved: Reservation, vmObjects: set<Metadata>)
    requires Representable(reserved)
  {
    && Eligible(parse, m, status, reserved, vmObjects)
    && (AffinityTotal(parse, m.affinity, vmObjects, status.metadata, 0) != Some(I64_MIN)
        || (status.vcpus > 0 && status.ram > 0))
  }

  /**
   * For every request, an agent is scored as rejected exactly when it is not eligible, and its
   * score beats the rejected one exactly when it is rankable.
   */
  lemma ScoreSeparatesEligible(
    parse: NumberParser, m: Manifest, status: AgentStatus, reserved: Reservation, vmObjects: set<Metadata>)
    requires Representable(reserved)
    ensures var score := ScoreOf(parse, m, status, reserved, vmObjects);
      && (score == REJECTED <==> !Eligible(parse, m, status, reserved, vmObjects))
      && (Beats(score, REJECTED) <==> Rankable(parse, m, status, reserved, vmObjects))
  {
    RejectionMeansRequiredRuleFails(parse, m.affinity, vmObjects, status.metadata, 0);
    if Fits(m, status, reserved) {
      HeadroomIsExact(m, status, reserved);
    }
  }

  /** The condition on one eligible agent's score, and why a proper request always meets it. */
  lemma EligibleIsRanked(
    parse: NumberParser, m: Manifest, status: AgentStatus, reserved: Reservation, vmObjects: set<Metadata>)
    requires Representable(reserved) && Eligible(parse, m, status, reserved, vmObjects)
    ensures var score := ScoreOf(parse, m, status, reserved, vmObjects);
      && (Beats(score, REJECTED) <==> score.affinity > I64_MIN || (status.vcpus > 0 && status.ram > 0))
      && (AsksForSomething(m) ==> score.general.Finite? && score.general.value >= 0.0 && Beats(score, REJECTED))
  {
    RejectionMeansRequiredRuleFails(parse, m.affinity, vmObjects, status.metadata, 0);
    ScoreSeparatesEligible(parse, m, status, reserved, vmObjects);
    if AsksForSomething(m) {
      HeadroomIsProper(m, status, reserved);
    }
  }

  /** Such an agent exists: eligible for a request for nothing, and never selected. */
  lemma EmptyRequestCanBeUnranked(parse: NumberParser, m: Manifest, status: AgentStatus)
    requires m.vcpus == 0 && m.memory == 0 && m.affinity == [AffinityRule(Preferred(I64_MIN), Agent, true, [])]
    requires status.vcpus == status.usedVcpus == 0 && status.ram == status.usedRam == 0
    ensures Eligible(parse, m, status, Reservation(0, 0), {})
    ensures ScoreOf(parse, m, status, Reservation(0, 0), {}) == AgentScore(I64_MIN, NaN)
    ensures !Beats(ScoreOf(parse, m, status, Reservation(0, 0), {}), REJECTED)
  {
    assert RuleHolds(parse, {status.metadata}, m.affinity[0]);
    assert m.affinity[1..] == [];
    assert AffinityTotal(parse, m.affinity, {}, status.metadata, 0) == Some(I64_MIN);
  }
}
