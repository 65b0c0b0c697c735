/** Which agent the scheduler chooses, without reference to scores. */
module Choice {
  import opened Prelude
  import opened Membership
  import opened Policy
  import opened Affinity
  import opened Placements
  import opened Scheduler

  ghost function Status(s: Sched, a: ActorId): AgentStatus
    requires a in s.agents
  {
    s.agents[a].data
  }

  ghost function Held(s: Sched, a: ActorId): Reservation {
    ExactReservation(s.manifests, s.placements, a)
  }

  ghost function AffinityFor(parse: NumberParser, s: Sched, m: Manifest, a: ActorId): Option<I64>
    requires a in s.agents
  {
    AffinityTotal(parse, m.affinity, VmObjects(s, a), Status(s, a).metadata, 0)
  }

  predicate HasCapacities(status: AgentStatus) {
    status.vcpus > 0 && status.ram > 0
  }

  lemma EligibleScore(parse: NumberParser, s: Sched, m: Manifest, a: ActorId)
    requires EligibleFor(parse, s, m, a)
    ensures AffinityFor(parse, s, m, a).Some? && ScoreFor(parse, s, m, a).affinity == AffinityFor(parse, s, m, a).value
    ensures HasCapacities(Status(s, a)) ==>
      ScoreFor(parse, s, m, a).general == Finite(2.0 - FractionUsed(m, Status(s, a), Held(s, a)))
  {
    RejectionMeansRequiredRuleFails(parse, m.affinity, VmObjects(s, a), Status(s, a).metadata, 0);
    if HasCapacities(Status(s, a)) {
      HeadroomIsWhatIsLeft(m, Status(s, a), Held(s, a));
    }
  }

  lemma ProperRequestNeedsCapacities(parse: NumberParser, s: Sched, m: Manifest, a: ActorId)
    requires AsksForSomething(m) && EligibleFor(parse, s, m, a)
    ensures HasCapacities(Status(s, a)) && RankableFor(parse, s, m, a)
  {
  }

  lemma IneligibleNeverBeats(parse: NumberParser, s: Sched, m: Manifest, b: ActorId, score: AgentScore)
    requires b in s.agents && !EligibleFor(parse, s, m, b)
    ensures !Beats(ScoreFor(parse, s, m, b), score)
  {
    ScoreSeparatesEligible(parse, m, s.agents[b].data, ReservedFor(s, b), VmObjects(s, b));
  }

  /** `a` is preferred to `b` or as good: more affinity, or as much and no larger fractions used. */
  ghost predicate NoWorse(parse: NumberParser, s: Sched, m: Manifest, a: ActorId, b: ActorId)
    requires a in s.agents && HasCapacities(Status(s, a)) && AffinityFor(parse, s, m, a).Some?
    requires b in s.agents && HasCapacities(Status(s, b)) && AffinityFor(parse, s, m, b).Some?
  {
    var x, y := AffinityFor(parse, s, m, a).value, AffinityFor(parse, s, m, b).value;
    x > y || (x == y && FractionUsed(m, Status(s, a), Held(s, a)) <= FractionUsed(m, Status(s, b), Held(s, b)))
  }

  lemma BeatenMeansWorse(parse: NumberParser, s: Sched, m: Manifest, a: ActorId, b: ActorId)
    requires EligibleFor(parse, s, m, a) && HasCapacities(Status(s, a)) && AffinityFor(parse, s, m, a).Some?
    requires EligibleFor(parse, s, m, b) && HasCapacities(Status(s, b)) && AffinityFor(parse, s, m, b).Some?
    ensures Beats(ScoreFor(parse, s, m, b), ScoreFor(parse, s, m, a)) <==> !NoWorse(parse, s, m, a, b)
  {
    EligibleScore(parse, s, m, a);
    EligibleScore(parse, s, m, b);
  }

  /**
   * For a proper request the possible choices are exactly the eligible agents with the highest
   * affinity total and, among those, the smallest used fractions; none if none is eligible.
   */
  lemma BestMeans(parse: NumberParser, s: Sched, m: Manifest, target: Option<ActorId>)
    requires AsksForSomething(m)
    ensures Best(parse, s, m, target) <==>
      match target
      case None => forall b :: b in s.agents ==> !EligibleFor(parse, s, m, b)
      case Some(a) =>
        && EligibleFor(parse, s, m, a)
        && forall b :: b in s.agents && EligibleFor(parse, s, m, b) ==>
          && HasCapacities(Status(s, a)) && AffinityFor(parse, s, m, a).Some?
          && HasCapacities(Status(s, b)) && AffinityFor(parse, s, m, b).Some?
          && NoWorse(parse, s, m, a, b)
  {
    forall b | b in s.agents && EligibleFor(parse, s, m, b)
      ensures RankableFor(parse, s, m, b) && HasCapacities(Status(s, b)) && AffinityFor(parse, s, m, b).Some?
    {
      ProperRequestNeedsCapacities(parse, s, m, b);
      EligibleScore(parse, s, m, b);
    }
    if target.Some? && EligibleFor(parse, s, m, target.value) {
      var a := target.value;
      forall b | b in s.agents
        ensures !Beats(ScoreFor(parse, s, m, b), ScoreFor(parse, s, m, a))
          <==> (EligibleFor(parse, s, m, b) ==> NoWorse(parse, s, m, a, b))
      {
        if EligibleFor(parse, s, m, b) {
          BeatenMeansWorse(parse, s, m, a, b);
        } else {
          IneligibleNeverBeats(parse, s, m, b, ScoreFor(parse, s, m, a));
        }
      }
    }
  }

  /** For every request, no eligible agent has a higher affinity total than the chosen one. */
  lemma ChosenHasHighestAffinity(parse: NumberParser, s: Sched, m: Manifest, a: ActorId, b: ActorId)
    requires Best(parse, s, m, Some(a)) && EligibleFor(parse, s, m, b)
    ensures AffinityFor(parse, s, m, a).Some? && AffinityFor(parse, s, m, b).Some?
    ensures AffinityFor(parse, s, m, b).value <= AffinityFor(parse, s, m, a).value
  {
    EligibleScore(parse, s, m, a);
    EligibleScore(parse, s, m, b);
  }

  lemma SmallerFraction(x: nat, y: nat, d: nat)
    requires x <= y && d > 0
    ensures x as real / d as real <= y as real / d as real
    ensures x < y ==> x as real / d as real < y as real / d as real
  {
    var p, q, z := x as real, y as real, d as real;
    assert q / z - p / z == (q - p) / z;
  }

  /** At most the used plus reserved vCPUs and RAM of another host, and less of one of them. */
  predicate LessLoaded(status: AgentStatus, held: Reservation, than: AgentStatus, thanHeld: Reservation) {
    && status.usedVcpus + held.vcpus <= than.usedVcpus + thanHeld.vcpus
    && status.usedRam + held.ram <= than.usedRam + thanHeld.ram
    && (|| status.usedVcpus + held.vcpus < than.usedVcpus + thanHeld.vcpus
        || status.usedRam + held.ram < than.usedRam + thanHeld.ram)
  }

  lemma LessLoadedUsesLess(m: Manifest, status: AgentStatus, held: Reservation, than: AgentStatus, thanHeld: Reservation)
    requires LessLoaded(status, held, than, thanHeld)
    requires status.vcpus == than.vcpus > 0 && status.ram == than.ram > 0 && Measurable(than)
    requires Fits(m, than, Saturated(thanHeld))
    ensures FractionUsed(m, status, held) < FractionUsed(m, than, thanHeld)
  {
    CapacityCheckIsExact(m, than, thanHeld);
    SmallerFraction(status.usedVcpus + held.vcpus + m.vcpus, than.usedVcpus + thanHeld.vcpus + m.vcpus, 2 * than.vcpus);
    SmallerFraction(status.usedRam + held.ram + m.memory, than.usedRam + thanHeld.ram + m.memory, than.ram);
  }

  /**
   * Among equal hosts with the same affinity total, the chosen one is not dominated: no eligible
   * host has at most its used plus reserved vCPUs and RAM and less of one of them.
   */
  lemma ChosenIsNotDominated(parse: NumberParser, s: Sched, m: Manifest, a: ActorId, b: ActorId)
    requires Best(parse, s, m, Some(a)) && EligibleFor(parse, s, m, b)
    requires AffinityFor(parse, s, m, a) == AffinityFor(parse, s, m, b)
    requires Status(s, a).vcpus == Status(s, b).vcpus > 0 && Status(s, a).ram == Status(s, b).ram > 0
    requires Measurable(Status(s, a))
    ensures !LessLoaded(Status(s, b), Held(s, b), Status(s, a), Held(s, a))
  {
    if LessLoaded(Status(s, b), Held(s, b), Status(s, a), Held(s, a)) {
      EligibleScore(parse, s, m, a);
      EligibleScore(parse, s, m, b);
      BeatenMeansWorse(parse, s, m, a, b);
      LessLoadedUsesLess(m, Status(s, b), Held(s, b), Status(s, a), Held(s, a));
    }
  }

  // ----- affinity seen from the scheduler -----

  /** The VM could be on the agent: listed by its status, named by its index, or placed there. */
  ghost predicate OnAgent(s: Sched, a: ActorId, v: VmId)
    requires a in s.agents
  {
    || v in s.agents[a].data.vms
    || (a in s.index && v in s.index[a])
    || exists e :: e in Get(s.placements, v) && e.agent == a
  }

  /** One required listing rule about agents admits exactly the fitting agents that carry it. */
  lemma AgentRuleAdmits(parse: NumberParser, s: Sched, m: Manifest, a: ActorId, r: AffinityRequirement)
    requires a in s.agents && r.operator.In? && m.affinity == [AffinityRule(Required, AffinityType.Agent, false, [r])]
    ensures EligibleFor(parse, s, m, a)
       <==> Fits(m, Status(s, a), ReservedFor(s, a)) && CarriesListed(Status(s, a).metadata, r.table, r.key, r.values)
  {
    RequiredListingRule(parse, m.affinity[0], VmObjects(s, a), Status(s, a).metadata);
  }

  /**
   * One required listing rule about VMs admits exactly the fitting agents that could host some
   * known VM and whose known VMs all carry it; the opposite rule admits exactly the others.
   */
  lemma VmRuleAdmits(parse: NumberParser, s: Sched, m: Manifest, a: ActorId, r: AffinityRequirement, anti: bool)
    requires a in s.agents && r.operator.In? && m.affinity == [AffinityRule(Required, VirtualMachine, anti, [r])]
    ensures EligibleFor(parse, s, m, a) <==>
      && Fits(m, Status(s, a), ReservedFor(s, a))
      && anti != (&& (exists v :: v in s.manifests && OnAgent(s, a, v))
                  && (forall v :: v in s.manifests && OnAgent(s, a, v) ==>
                        CarriesListed(s.manifests[v].metadata, r.table, r.key, r.values)))
  {
    var objects := VmObjects(s, a);
    RequiredListingRule(parse, m.affinity[0], objects, Status(s, a).metadata);
    forall v | v in s.manifests ensures MayHost(s, a, v) <==> OnAgent(s, a, v) {
      PlacedMeansEntry(Get(s.placements, v), a);
    }
    forall v | v in s.manifests && OnAgent(s, a, v) ensures s.manifests[v].metadata in objects {
      assert MayHost(s, a, v);
    }
    forall o | o in objects ensures exists v :: v in s.manifests && OnAgent(s, a, v) && s.manifests[v].metadata == o {
      var v :| v in s.manifests && MayHost(s, a, v) && s.manifests[v].metadata == o;
      assert OnAgent(s, a, v);
    }
  }

  lemma PlacedMeansEntry(entries: seq<VmPlacement>, a: ActorId)
    ensures PlacedOn(entries, a) <==> exists e :: e in entries && e.agent == a
  {
    if PlacedOn(entries, a) {
      var i :| 0 <= i < |entries| && entries[i].agent == a;
      assert entries[i] in entries;
    }
  }
}
