/**
 * The scheduler actor: one method per helper and handler, each proved against the functions of
 * `Scheduler`.  Loops over hash maps pick their keys in an arbitrary order.
 */
module SchedulerActors {
  import opened Prelude
  import opened Membership
  import opened Policy
  import opened Placements
  import opened Scheduler
  import opened SchedulerInvariants
  import opened SchedulerSteps

  /** Adds the pending entries of one VM to the running totals. */
  method AccumulateEntries(
    resources: map<ActorId, Reservation>, m: Manifest, entries: seq<VmPlacement>,
    ghost manifests: Manifests, ghost part: PlacementMap, ghost v: VmId)
    returns (totals: map<ActorId, Reservation>)
    requires v in manifests && manifests[v] == m && Get(part, v) == []
    requires resources == PendingByAgent(manifests, part)
    ensures totals == PendingByAgent(manifests, part[v := entries])
  {
    totals := resources;
    PendingReadsListsOnly(manifests, part, part[v := []]);
    assert entries[..0] == [];
    for i := 0 to |entries|
      invariant totals == PendingByAgent(manifests, part[v := entries[..i]])
    {
      assert entries[..i + 1] == entries[..i] + [entries[i]];
      AccumulationStep(manifests, part, v, entries[..i], entries[i]);
      if entries[i].lifecycle.Pending? {
        var a := entries[i].agent;
        var sofar := if a in totals then totals[a] else Reservation(0, 0);
        totals := totals[a := Reservation(
          SatAdd(U32_MAX, sofar.vcpus, m.vcpus), SatAdd(U64_MAX, sofar.ram, m.memory))];
      }
    }
    assert entries[..|entries|] == entries;
  }

  /** `pending_resources_by_agent`: the totals do not depend on the iteration order. */
  method PendingResourcesByAgent(manifests: Manifests, placements: PlacementMap)
    returns (resources: map<ActorId, Reservation>)
    ensures resources == PendingByAgent(manifests, placements)
  {
    resources := map[];
    var todo := placements.Keys;
    ghost var done: set<VmId> := {};
    while todo != {}
      invariant todo !! done && todo + done == placements.Keys
      invariant resources == PendingByAgent(manifests, Part(placements, done))
      decreases |todo|
    {
      var v :| v in todo;
      PartGrows(manifests, placements, done, v);
      if v in manifests {
        resources := AccumulateEntries(resources, manifests[v], placements[v], manifests, Part(placements, done), v);
      }
      todo, done := todo - {v}, done + {v};
    }
    assert Part(placements, done) == placements;
  }

  method AppendUnseen(vmids: seq<VmId>, seen: set<VmId>, v: VmId) returns (vmids': seq<VmId>, seen': set<VmId>)
    requires NoDuplicates(vmids) && seen == Elems(vmids)
    ensures NoDuplicates(vmids') && seen' == Elems(vmids') == seen + {v}
  {
    vmids', seen' := vmids, seen;
    if v !in seen {
      assert forall i :: 0 <= i < |vmids| ==> vmids[i] in Elems(vmids);
      vmids', seen' := vmids + [v], seen + {v};
    }
  }

  method AppendAllUnseen(vmids: seq<VmId>, seen: set<VmId>, more: set<VmId>) returns (vmids': seq<VmId>, seen': set<VmId>)
    requires NoDuplicates(vmids) && seen == Elems(vmids)
    ensures NoDuplicates(vmids') && seen' == Elems(vmids') == seen + more
  {
    vmids', seen' := vmids, seen;
    var rest := more;
    while rest != {}
      invariant rest <= more && NoDuplicates(vmids') && seen' == Elems(vmids') == seen + (more - rest)
      decreases |rest|
    {
      var v :| v in rest;
      rest := rest - {v};
      vmids', seen' := AppendUnseen(vmids', seen', v);
    }
  }

  /** `placement_vm_ids`: every VM that could be on the agent, each once. */
  method PlacementVmIds(placements: PlacementMap, indexed: Option<set<VmId>>, agent: ActorId, observed: seq<VmId>)
    returns (vmids: seq<VmId>)
    ensures NoDuplicates(vmids)
    ensures forall v :: v in vmids <==>
      v in observed || (indexed.Some? && v in indexed.value) || PlacedOn(Get(placements, v), agent)
  {
    vmids := [];
    var seen: set<VmId> := {};
    for i := 0 to |observed|
      invariant NoDuplicates(vmids) && seen == Elems(vmids) == Elems(observed[..i])
    {
      ElemsSplit(observed, i);
      vmids, seen := AppendUnseen(vmids, seen, observed[i]);
    }
    assert observed[..|observed|] == observed;
    if indexed.Some? {
      vmids, seen := AppendAllUnseen(vmids, seen, indexed.value);
    }
    var placed := set v | v in placements && PlacedOn(placements[v], agent);
    vmids, seen := AppendAllUnseen(vmids, seen, placed);
    assert forall v :: v in vmids <==> v in Elems(vmids);
  }

  /** `update_cached_vm_entry`: matched by actor id, then the first placeholder, then appended. */
  method UpdateCachedVmEntry(entries: seq<Option<ActorId>>, actor: ActorId) returns (updated: seq<Option<ActorId>>)
    ensures updated == WithActor(entries, actor)
  {
    for i := 0 to |entries|
      invariant forall k :: 0 <= k < i ==> entries[k] != Some(actor)
    {
      if entries[i] == Some(actor) {
        return entries;
      }
    }
    for i := 0 to |entries|
      invariant forall k :: 0 <= k < i ==> entries[k].Some?
    {
      if entries[i].None? {
        assert FirstPlaceholder(entries) == i;
        return entries[i := Some(actor)];
      }
    }
    return entries + [Some(actor)];
  }

  // ----- placement reconciliation; the `&mut` maps of the source are in/out parameters -----

  /** `reconcile_agent_delta`: confirms the added VMs, then drops running entries of the removed. */
  method ReconcileAgentDelta(
    agent: ActorId, added: seq<VmId>, removed: seq<VmId>, manifests: Manifests, placements: PlacementMap, now: nat)
    returns (reconciled: PlacementMap)
    ensures reconciled == DeltaReconciled(manifests, placements, agent, Elems(added), Elems(removed), now)
  {
    reconciled := placements;
    DeltaOfNothing(manifests, placements, agent, now);
    for i := 0 to |added|
      invariant reconciled == DeltaReconciled(manifests, placements, agent, Elems(added[..i]), {}, now)
    {
      ElemsSplit(added, i);
      DeltaAddsOne(manifests, placements, agent, Elems(added[..i]), now, added[i]);
      if added[i] !in manifests {
        continue;
      }
      var entries := Get(reconciled, added[i]);
      var k := PositionOf(entries, agent);
      if k < |entries| {
        entries := entries[k := entries[k].(lifecycle := Running, lastConfirmedAt := Some(now))];
      } else {
        entries := entries + [VmPlacement(agent, Running, now, Some(now))];
      }
      reconciled := reconciled[added[i] := entries];
    }
    assert added[..|added|] == added;
    for i := 0 to |removed|
      invariant reconciled == DeltaReconciled(manifests, placements, agent, Elems(added), Elems(removed[..i]), now)
    {
      ElemsSplit(removed, i);
      DeltaRemovesOne(manifests, placements, agent, Elems(added), Elems(removed[..i]), now, removed[i]);
      if removed[i] in reconciled {
        reconciled := reconciled[removed[i] := Retain(reconciled[removed[i]], UnlessRunningOn(agent))];
      }
    }
    assert removed[..|removed|] == removed;
  }

  /** `reconcile_discovered_vm`: confirms a known VM on every agent whose index names it, in any order. */
  method ReconcileDiscoveredVm(vmid: VmId, index: VmIndex, manifests: Manifests, placements: PlacementMap, now: nat)
    returns (reconciled: PlacementMap, ghost order: seq<ActorId>)
    ensures NoDuplicates(order) && Elems(order) == AgentsSeeing(index, vmid)
    ensures reconciled == DiscoveryOf(manifests, placements, vmid, order, now)
  {
    reconciled, order := placements, [];
    var todo := AgentsSeeing(index, vmid);
    while todo != {}
      invariant Visited(order, todo, AgentsSeeing(index, vmid))
      invariant reconciled == DiscoveryOf(manifests, placements, vmid, order, now)
      decreases |todo|
    {
      var a :| a in todo;
      VisitOneMore(order, todo, AgentsSeeing(index, vmid), a);
      todo := todo - {a};
      reconciled := ReconcileAgentDelta(a, [vmid], [], manifests, reconciled, now);
      DiscoveryOneMore(manifests, placements, vmid, order, a, now);
      order := order + [a];
    }
  }

  /** Records one observation, creating the VM's list if there is none. */
  method RecordObserved(placements: PlacementMap, v: VmId, agent: ActorId, now: nat) returns (recorded: PlacementMap)
    ensures recorded == placements[v := Get(placements, v) + [Observed(agent, now)]]
  {
    recorded := placements[v := Get(placements, v) + [VmPlacement(agent, Running, now, Some(now))]];
  }

  /** Records reported, known VMs that have no entry on the agent yet. */
  method AddMissingPlacements(
    agent: ActorId, observed: set<VmId>, manifests: Manifests, placements: PlacementMap, now: nat)
    returns (extended: PlacementMap)
    ensures extended == Extended(manifests, placements, observed, agent, now)
  {
    extended := placements;
    var missing := Missing(manifests, placements, observed, agent);
    ghost var order: seq<VmId> := [];
    ghost var all := missing;
    ObserveNone(placements, agent, now);
    while missing != {}
      invariant Visited(order, missing, all)
      invariant extended == WithObserved(placements, Elems(order), agent, now)
      decreases |missing|
    {
      var v :| v in missing;
      ObserveOneMore(placements, order, v, agent, now);
      VisitOneMore(order, missing, all, v);
      missing, order := missing - {v}, order + [v];
      extended := RecordObserved(extended, v, agent, now);
    }
    ObserveMissing(manifests, placements, observed, agent, now);
  }

  /** Confirms reported VMs on the agent and expires what the snapshot omits. */
  method ConfirmOrExpire(agent: ActorId, observed: set<VmId>, placements: PlacementMap, now: nat)
    returns (updated: PlacementMap)
    ensures updated.Keys == placements.Keys
    ensures forall v :: v in placements ==>
      updated[v] == if v in observed then ConfirmEvery(placements[v], agent, now)
                    else Retain(placements[v], UnlessStaleOn(agent, now))
  {
    updated := placements;
    var todo := placements.Keys;
    while todo != {}
      invariant todo <= updated.Keys == placements.Keys
      invariant forall v :: v in placements && v in todo ==> updated[v] == placements[v]
      invariant forall v :: v in placements && v !in todo ==>
        updated[v] == if v in observed then ConfirmEvery(placements[v], agent, now)
                      else Retain(placements[v], UnlessStaleOn(agent, now))
      decreases |todo|
    {
      var v :| v in todo;
      todo := todo - {v};
      if v in observed {
        updated := updated[v := ConfirmEvery(updated[v], agent, now)];
      } else {
        updated := updated[v := Retain(updated[v], UnlessStaleOn(agent, now))];
      }
    }
  }

  /** `reconcile_agent_placements`: add what is missing, confirm or expire, drop emptied lists. */
  method ReconcileAgentPlacements(
    agent: ActorId, vms: seq<VmId>, manifests: Manifests, placements: PlacementMap, now: nat)
    returns (reconciled: PlacementMap)
    ensures reconciled == SnapshotReconciled(manifests, placements, agent, Elems(vms), now)
  {
    var observed := Elems(vms);
    var extended := AddMissingPlacements(agent, observed, manifests, placements, now);
    var updated := ConfirmOrExpire(agent, observed, extended, now);
    reconciled := map v | v in updated && updated[v] != [] :: updated[v];
    forall v | v in updated ensures updated[v] == SnapshotEntries(Get(placements, v), agent, v in observed, v in manifests, now) {
      PassesCompose(manifests, placements, agent, observed, now, updated, v);
    }
    SnapshotIs(manifests, placements, agent, observed, now, updated, reconciled);
  }

  /** `remove_agent_placements`: drops a departed agent's entries, except of VMs still reachable. */
  method RemoveAgentPlacements(agent: ActorId, reachable: set<VmId>, placements: PlacementMap)
    returns (remaining: PlacementMap)
    ensures remaining.Keys == placements.Keys
    ensures forall v :: v in placements ==> remaining[v] == DepartedEntries(placements[v], agent, v in reachable)
  {
    remaining := placements;
    var todo := placements.Keys;
    while todo != {}
      invariant todo <= remaining.Keys == placements.Keys
      invariant forall v :: v in placements ==>
        remaining[v] == if v in todo then placements[v] else DepartedEntries(placements[v], agent, v in reachable)
      decreases |todo|
    {
      var v :| v in todo;
      todo := todo - {v};
      if v !in reachable {
        remaining := remaining[v := Retain(remaining[v], UnlessOn(agent))];
      }
    }
  }

  /** `remove_vm_actor`: drops a departed actor from every list, and lists that become empty. */
  method RemoveVmActor(actor: ActorId, cache: ActorCache) returns (remaining: ActorCache)
    ensures remaining == ActorForgotten(cache, actor)
  {
    remaining := cache;
    var todo := cache.Keys;
    while todo != {}
      invariant todo <= remaining.Keys == cache.Keys
      invariant forall v :: v in cache ==>
        remaining[v] == if v in todo then cache[v] else WithoutActor(cache[v], actor)
      decreases |todo|
    {
      var v :| v in todo;
      todo := todo - {v};
      remaining := remaining[v := WithoutActor(remaining[v], actor)];
    }
    remaining := map v | v in remaining && remaining[v] != [] :: remaining[v];
  }

  /** `cleanup_unresolved_vm_cache`: expires pending entries of VMs without a discovered actor. */
  method CleanupUnresolvedVmCache(placements: PlacementMap, cache: ActorCache, now: nat)
    returns (placements': PlacementMap, cache': ActorCache)
    ensures placements'.Keys == placements.Keys
    ensures forall v :: v in placements ==>
      placements'[v] == ExpiredEntries(placements[v], HasActor(cache, v), now)
    ensures forall v :: v in cache' <==> v in cache && !(v in placements && placements'[v] == [] && !HasActor(cache, v))
    ensures forall v :: v in cache' ==> cache'[v] == cache[v]
  {
    placements' := placements;
    var discovered := set v | v in cache && SomeDiscovered(cache[v]);
    var todo := placements.Keys;
    while todo != {}
      invariant todo <= placements'.Keys == placements.Keys
      invariant forall v :: v in placements ==>
        placements'[v] == if v in todo then placements[v] else ExpiredEntries(placements[v], HasActor(cache, v), now)
      decreases |todo|
    {
      var v :| v in todo;
      todo := todo - {v};
      if v !in discovered {
        placements' := placements'[v := Retain(placements'[v], UnlessPendingExpired(now))];
      }
    }
    var emptied := set v | v in placements' && placements'[v] == [];
    cache' := map v | v in cache && !(v in emptied && !SomeDiscovered(cache[v])) :: cache[v];
  }

  /** Takes a VM out of every agent's index. */
  method RemoveFromIndex(index: VmIndex, vmid: VmId) returns (remaining: VmIndex)
    ensures remaining.Keys == index.Keys
    ensures forall a :: a in index ==> remaining[a] == index[a] - {vmid}
  {
    remaining := index;
    var todo := index.Keys;
    while todo != {}
      invariant todo <= remaining.Keys == index.Keys
      invariant forall a :: a in index ==> remaining[a] == if a in todo then index[a] else index[a] - {vmid}
      decreases |todo|
    {
      var a :| a in todo;
      todo := todo - {a};
      remaining := remaining[a := remaining[a] - {vmid}];
    }
  }

  lemma PutTwice<K, V>(p: map<K, V>, k: K, x: V, y: V)
    ensures p[k := x][k := y] == p[k := y]
  {
  }

  lemma PutThenRemove<K, V>(p: map<K, V>, k: K, x: V)
    ensures p[k := x] - {k} == p - {k}
  {
  }

  /** `actor` is some actor mapped to the VM, or none when no actor is. */
  ghost predicate IsActorOf(actorVms: map<ActorId, VmId>, vmid: VmId, actor: Option<ActorId>) {
    match actor
    case Some(a) => a in actorVms && actorVms[a] == vmid
    case None => forall a :: a in actorVms ==> actorVms[a] != vmid
  }

  /** `Forwarded` passes on the agent's reply, or the failure to get one. */
  datatype CreateReply = Conflict | AlreadyExists(actor: Option<ActorId>) | NoValidAgents | Forwarded(replied: bool)

  class SchedulerActor {
    const parse: NumberParser
    var agents: map<ActorId, CachedAgent>
    var actorVms: map<ActorId, VmId>
    var manifests: Manifests
    var placements: PlacementMap
    var vmActors: ActorCache
    var pendingCache: Option<map<ActorId, Reservation>>
    var index: VmIndex
    var kinds: map<ActorId, ActorKind>

    function View(): Sched
      reads this
    {
      Sched(agents, actorVms, manifests, placements, vmActors, pendingCache, index, kinds)
    }

    constructor (parse: NumberParser)
      ensures View() == EMPTY && this.parse == parse
    {
      this.parse := parse;
      agents, actorVms, manifests, placements := map[], map[], map[], map[];
      vmActors, pendingCache, index, kinds := map[], None, map[], map[];
    }

    // ----- scheduling -----

    method PendingResources() returns (resources: map<ActorId, Reservation>)
      requires Coherent(View())
      modifies this`pendingCache
      ensures View() == CacheFilled(old(View()))
      ensures resources == PendingByAgent(manifests, placements)
    {
      if pendingCache.None? {
        var totals := PendingResourcesByAgent(manifests, placements);
        pendingCache := Some(totals);
      }
      resources := pendingCache.value;
    }

    /** Scores one agent from cached state. */
    method ScoreAgent(m: Manifest, a: ActorId, pending: map<ActorId, Reservation>) returns (score: AgentScore)
      requires a in agents && pending == PendingByAgent(manifests, placements)
      ensures score == ScoreFor(parse, View(), m, a)
    {
      var status := agents[a].data;
      var limit := Min(U32_MAX, status.vcpus * VCPU_OVERPROVISIONMENT);
      var reserved := if a in pending then pending[a] else Reservation(0, 0);
      if a !in pending {
        NothingReserved(manifests, placements, a);
      }
      assert reserved == ReservedFor(View(), a);
      var usedVcpus := SatAdd(U32_MAX, status.usedVcpus, reserved.vcpus);
      var usedRam := SatAdd(U64_MAX, status.usedRam, reserved.ram);
      if !HasCapacity(limit, usedVcpus, m.vcpus, status.ram, usedRam, m.memory) {
        return REJECTED;
      }
      var vcpuHeadroom := Ratio(limit - SatAdd(U32_MAX, usedVcpus, m.vcpus), limit);
      var ramHeadroom := Ratio(SatSub(status.ram, SatAdd(U64_MAX, usedRam, m.memory)), status.ram);
      var general := Plus(Plus(Finite(0.0), vcpuHeadroom), ramHeadroom);
      var affinity := AffinityOf(m, a);
      if affinity.None? {
        return REJECTED;
      }
      return AgentScore(affinity.value, general);
    }

    /** Adds up the affinity of all rules, or stops at the first required rule that fails. */
    method AffinityOf(m: Manifest, a: ActorId) returns (affinity: Option<I64>)
      requires a in agents
      ensures affinity == AffinityTotal(parse, m.affinity, VmObjects(View(), a), agents[a].data.metadata, 0)
    {
      var sum: I64 := 0;
      ghost var objects, agentObject := VmObjects(View(), a), agents[a].data.metadata;
      assert m.affinity[0..] == m.affinity;
      for i := 0 to |m.affinity|
        invariant AffinityTotal(parse, m.affinity, objects, agentObject, 0)
               == AffinityTotal(parse, m.affinity[i..], objects, agentObject, sum)
      {
        var rule := m.affinity[i];
        assert m.affinity[i..][1..] == m.affinity[i + 1..];
        var tables := MetadataTables(rule, a);
        var follows := EvaluateAffinityRule(parse, tables, rule);
        var delta := AffinityDelta(rule.strictness, follows);
        if delta.None? {
          return None;
        }
        sum := SatAddI64(sum, delta.value);
      }
      assert m.affinity[|m.affinity|..] == [];
      return Some(sum);
    }

    /** The metadata objects in a rule's scope, in some order and possibly repeated. */
    method MetadataTables(rule: AffinityRule, a: ActorId) returns (tables: seq<Metadata>)
      requires a in agents
      ensures Elems(tables) == ObjectsInScope(rule, VmObjects(View(), a), agents[a].data.metadata)
    {
      if rule.affinityType.Agent? {
        return [agents[a].data.metadata];
      }
      var indexed := if a in index then Some(index[a]) else None;
      var vmids := PlacementVmIds(placements, indexed, a, agents[a].data.vms);
      tables := [];
      for i := 0 to |vmids|
        invariant Elems(tables) == set v | v in manifests && v in vmids[..i] :: manifests[v].metadata
      {
        assert vmids[..i + 1] == vmids[..i] + [vmids[i]];
        if vmids[i] in manifests {
          assert Elems(tables + [manifests[vmids[i]].metadata]) == Elems(tables) + {manifests[vmids[i]].metadata};
          tables := tables + [manifests[vmids[i]].metadata];
        }
      }
      assert vmids[..|vmids|] == vmids;
      assert forall v :: v in manifests ==> (v in vmids <==> MayHost(View(), a, v));
    }

    /** Scans the cached agents in arbitrary order and keeps the first of the best scores. */
    method ScheduleAgent(m: Manifest) returns (target: Option<ActorId>)
      requires Coherent(View())
      modifies this`pendingCache
      ensures View() == CacheFilled(old(View()))
      ensures Best(parse, old(View()), m, target)
    {
      var pending := PendingResources();
      ghost var s := View();
      target := None;
      var bestScore := REJECTED;
      var todo := agents.Keys;
      while todo != {}
        invariant View() == s && todo <= agents.Keys
        invariant BestSoFar(parse, s, m, agents.Keys - todo, target, bestScore)
        decreases |todo|
      {
        var a :| a in todo;
        var score := ScoreAgent(m, a, pending);
        OneMoreCandidate(parse, s, m, agents.Keys - todo, target, bestScore, a);
        assert agents.Keys - (todo - {a}) == agents.Keys - todo + {a};
        todo := todo - {a};
        if Beats(score, bestScore) {
          target := Some(a);
          bestScore := score;
        }
      }
      assert agents.Keys - {} == agents.Keys;
      ScanFindsBest(parse, s, m, target, bestScore);
      ChoiceReadsListsOnly(parse, s, old(View()), m, target);
    }

    // ----- status and discovery -----

    /** A discovered agent gets a kind unless its updater runs already or linking fails. */
    method AgentActorDiscovered(id: ActorId, updaterRuns: bool, linked: bool)
      requires Inv(View())
      modifies this`kinds
      ensures View() == if updaterRuns || !linked then old(View()) else Next(old(View()), Step.AgentDiscovered(id))
      ensures Inv(View())
    {
      if !updaterRuns && linked {
        kinds := kinds[id := AgentKind];
      }
    }

    method VmActorDiscovered(id: ActorId, updaterRuns: bool, linked: bool)
      requires Inv(View())
      modifies this`kinds
      ensures View() == if updaterRuns || !linked then old(View()) else Next(old(View()), Step.VmDiscovered(id))
      ensures Inv(View())
    {
      if !updaterRuns && linked {
        kinds := kinds[id := VmKind];
      }
    }

    method AcceptSnapshot(id: ActorId, revision: U64, status: AgentStatus, now: nat)
      modifies this
      ensures View() == SnapshotAccepted(old(View()), id, revision, status, now)
    {
      index := index[id := Elems(status.vms)];
      placements := ReconcileAgentPlacements(id, status.vms, manifests, placements, now);
      agents := agents[id := CachedAgent(status, revision)];
      pendingCache := None;
    }

    method AcceptDelta(id: ActorId, update: StatusUpdate, now: nat)
      requires id in agents && StrictlySorted(agents[id].data.vms) && update.Delta?
      modifies this
      ensures View() == DeltaAccepted(old(View()), id, update, now)
    {
      var data, revision := ApplyStatusUpdate(agents[id].data, update);
      agents := agents[id := CachedAgent(data, revision)];
      var seen := if id in index then index[id] else {};
      index := index[id := seen + Elems(update.added)];
      index := index[id := index[id] - Elems(update.removed)];
      PutTwice(old(index), id, seen + Elems(update.added), (seen + Elems(update.added)) - Elems(update.removed));
      pendingCache := None;
      placements := ReconcileAgentDelta(id, update.added, update.removed, manifests, placements, now);
    }

    /** Applies an agent update: a full snapshot first, then only newer revisions. */
    method AgentUpdated(id: ActorId, update: StatusUpdate, now: nat)
      requires Inv(View())
      modifies this
      ensures View() == StatusArrived(old(View()), id, update, now)
      ensures (update.Full? ==> StrictlySorted(update.status.vms)) ==> Inv(View())
    {
      if update.Full? ==> StrictlySorted(update.status.vms) {
        StatusKeepsInv(View(), id, update, now);
      }
      if id !in agents {
        if update.Full? {
          AcceptSnapshot(id, update.revision, update.status, now);
        }
        return;
      }
      if update.revision <= agents[id].revision {
        return;
      }
      if update.Delta? {
        AcceptDelta(id, update, now);
      } else {
        AcceptSnapshot(id, update.revision, update.status, now);
      }
    }

    /** Caches a VM's identity, its manifest when supplied, and its actor. */
    method VmUpdated(id: ActorId, vmid: VmId, config: Option<Manifest>, now: nat) returns (ghost order: seq<ActorId>)
      requires Inv(View())
      modifies this
      ensures config.Some? ==> NoDuplicates(order) && Elems(order) == AgentsSeeing(old(index), vmid)
      ensures View() == VmReported(old(View()), id, vmid, config, order, now)
      ensures Inv(View())
    {
      order := [];
      actorVms := actorVms[id := vmid];
      if config.Some? {
        manifests := manifests[vmid := config.value];
        placements, order := ReconcileDiscoveredVm(vmid, index, manifests, placements, now);
        pendingCache := None;
      }
      var entries := UpdateCachedVmEntry(ActorsOf(vmActors, vmid), id);
      vmActors := vmActors[vmid := entries];
      VmReportKeepsInv(old(View()), id, vmid, config, order, now);
    }

    // ----- cleanup -----

    method CleanupAgentActor(id: ActorId)
      modifies this
      ensures View() == AgentCleaned(old(View()), id)
    {
      ghost var s := View();
      var seen := if id in index then index[id] else {};
      var reachable := StillReachable(seen, vmActors);
      agents := agents - {id};
      index := index - {id};
      pendingCache := None;
      placements := RemoveAgentPlacements(id, reachable, placements);
      DepartureIsCleaned(s, id, placements);
    }

    method CleanupVmActor(id: ActorId)
      modifies this
      ensures View() == VmCleaned(old(View()), id)
    {
      var vmid := if id in actorVms then Some(actorVms[id]) else None;
      actorVms := actorVms - {id};
      pendingCache := None;
      vmActors := RemoveVmActor(id, vmActors);
      if vmid.None? || HasActor(vmActors, vmid.value) {
        return;
      }
      var v := vmid.value;
      if v in placements {
        placements := placements[v := Retain(placements[v], IfPendingOrOn(AgentsSeeing(index, v)))];
      }
      pendingCache := None;
    }

    method VmUpdaterStopped(id: ActorId)
      requires Inv(View())
      modifies this
      ensures View() == Next(old(View()), Step.VmUpdaterStopped(id))
      ensures Inv(View())
    {
      StepKeepsInv(parse, View(), Step.VmUpdaterStopped(id));
      kinds := kinds - {id};
      CleanupVmActor(id);
    }

    method AgentUpdaterStopped(id: ActorId)
      requires Inv(View())
      modifies this
      ensures View() == Next(old(View()), Step.AgentUpdaterStopped(id))
      ensures Inv(View())
    {
      StepKeepsInv(parse, View(), Step.AgentUpdaterStopped(id));
      kinds := kinds - {id};
      CleanupAgentActor(id);
    }

    method OnLinkDied(id: ActorId)
      requires Inv(View())
      modifies this
      ensures View() == LinkLost(old(View()), id)
      ensures Inv(View())
    {
      LinkLossKeepsInv(View(), id);
      if id !in kinds {
        return;
      }
      var kind := kinds[id];
      kinds := kinds - {id};
      match kind
      case AgentKind => CleanupAgentActor(id);
      case VmKind => CleanupVmActor(id);
    }

    // ----- creating and stopping VMs -----

    method RemoveVmIntent(vmid: VmId)
      modifies this
      ensures View() == IntentRemoved(old(View()), vmid)
    {
      ghost var s := View();
      manifests := manifests - {vmid};
      placements := placements - {vmid};
      vmActors := vmActors - {vmid};
      actorVms := WithoutVm(actorVms, vmid);
      index := RemoveFromIndex(index, vmid);
      pendingCache := None;
      IntentRemovedIs(s, vmid, index);
    }

    /** Delete and shutdown: only a request that reached the VM actor removes intent. */
    method StopVm(vmid: VmId, reached: bool) returns (ok: bool)
      requires Inv(View())
      modifies this
      ensures View() == Next(old(View()), Step.StopVm(vmid, reached))
      ensures Inv(View()) && ok == reached
    {
      StepKeepsInv(parse, View(), Step.StopVm(vmid, reached));
      ok := reached;
      if reached {
        RemoveVmIntent(vmid);
      }
    }

    method RollbackFailedCreate(vmid: VmId, actorExists: bool, actor: Option<ActorId>)
      modifies this
      ensures View() == RolledBack(old(View()), vmid, actorExists, actor)
    {
      if !actorExists {
        if actor.Some? && actor.value in actorVms && actorVms[actor.value] == vmid {
          actorVms := actorVms - {actor.value};
        }
        manifests := manifests - {vmid};
        placements := placements - {vmid};
        vmActors := vmActors - {vmid};
      }
    }

    /** Reserves optimistically, forwards the request, and rolls back when no actor came of it. */
    method CreateVm(vmid: VmId, config: Manifest, outcome: CreateOutcome, now: nat)
      returns (reply: CreateReply, ghost target: Option<ActorId>)
      requires Inv(View())
      modifies this
      ensures Enabled(parse, old(View()), Step.CreateVm(vmid, config, target, outcome, now))
      ensures View() == Created(old(View()), vmid, config, target, outcome, now)
      ensures Inv(View())
      ensures vmid in old(manifests) && config != old(manifests)[vmid] <==> reply.Conflict?
      ensures vmid in old(manifests) && config == old(manifests)[vmid] <==> reply.AlreadyExists?
      ensures reply.AlreadyExists? ==> IsActorOf(actorVms, vmid, reply.actor)
      ensures vmid !in old(manifests) ==> reply == if target.Some? then Forwarded(outcome.Replied?) else NoValidAgents
    {
      target := None;
      if vmid in manifests {
        if manifests[vmid] != config {
          return Conflict, None;
        }
        var actor := ActorOf(vmid);
        return AlreadyExists(actor), None;
      }
      reply, target := CreateNewVm(vmid, config, outcome, now);
    }

    method CreateNewVm(vmid: VmId, config: Manifest, outcome: CreateOutcome, now: nat)
      returns (reply: CreateReply, ghost target: Option<ActorId>)
      requires Inv(View()) && vmid !in manifests
      modifies this
      ensures Best(parse, old(View()), config, target)
      ensures View() == Created(old(View()), vmid, config, target, outcome, now)
      ensures Inv(View())
      ensures reply == if target.Some? then Forwarded(outcome.Replied?) else NoValidAgents
    {
      var chosen := ScheduleAgent(config);
      target := chosen;
      CreateKeepsInv(old(View()), vmid, config, target, outcome, now);
      if chosen.None? {
        return NoValidAgents, target;
      }
      ReserveAndForward(vmid, config, chosen.value, outcome, now);
      return Forwarded(outcome.Replied?), target;
    }

    method ReserveAndForward(vmid: VmId, config: Manifest, target: ActorId, outcome: CreateOutcome, now: nat)
      modifies this
      ensures View() == CreateSettled(
        WithReservation(old(View()).(manifests := old(manifests)[vmid := config]), vmid, target, now), vmid, outcome)
    {
      manifests := manifests[vmid := config];
      pendingCache := None;
      placements := placements[vmid := Get(placements, vmid) + [VmPlacement(target, Pending, now, None)]];
      vmActors := vmActors[vmid := ActorsOf(vmActors, vmid) + [None]];
      match outcome {
        case Replied(actor) =>
          if actor.Some? {
            actorVms := actorVms[actor.value := vmid];
          }
        case Failed(actorExists) =>
          RollbackFailedCreate(vmid, actorExists, None);
      }
    }

    /** Some actor known to run the VM, if there is one. */
    method ActorOf(vmid: VmId) returns (actor: Option<ActorId>)
      ensures IsActorOf(actorVms, vmid, actor)
    {
      var candidates := set a | a in actorVms && actorVms[a] == vmid;
      if candidates == {} {
        assert forall a :: a in actorVms ==> a !in candidates;
        return None;
      }
      var a :| a in candidates;
      return Some(a);
    }

    // ----- periodic maintenance -----

    /** Expires stale reservations, then tries to place every unplaced VM; `failing` sends fail. */
    method ReconcileVmPlacements(failing: set<VmId>, now: nat) returns (ghost dispatches: seq<Dispatch>)
      requires Inv(View())
      modifies this
      ensures Enabled(parse, old(View()), Step.ReconcileVmPlacements(dispatches, now))
      ensures View() == DispatchedAll(Expired(old(View()), now), dispatches, now)
      ensures Inv(View())
    {
      ExpiryKeepsInv(View(), now);
      ExpireUnresolved(now);
      dispatches := DispatchUnplaced(failing, now);
    }

    method ExpireUnresolved(now: nat)
      modifies this
      ensures View() == Expired(old(View()), now)
    {
      ghost var s := View();
      placements, vmActors := CleanupUnresolvedVmCache(placements, vmActors, now);
      pendingCache := None;
      assert placements == Expired(s, now).placements;
      assert vmActors == Expired(s, now).vmActors;
    }

    method DispatchUnplaced(failing: set<VmId>, now: nat) returns (ghost dispatches: seq<Dispatch>)
      requires Inv(View())
      modifies this
      ensures NoDuplicates(DispatchIds(dispatches)) && Elems(DispatchIds(dispatches)) == Unplaced(old(View()))
      ensures Dispatchable(parse, old(View()), dispatches, now)
      ensures View() == DispatchedAll(old(View()), dispatches, now)
      ensures Inv(View())
    {
      ghost var s := View();
      var todo := Unplaced(View());
      dispatches := [];
      while todo != {}
        invariant Inv(View())
        invariant Dispatching(parse, s, dispatches, todo, View(), now)
        decreases |todo|
      {
        var v :| v in todo;
        ghost var t := View();
        ghost var d := DispatchVm(v, v !in failing, now);
        DispatchingStep(parse, s, dispatches, todo, t, d, now);
        todo := todo - {v};
        dispatches := dispatches + [d];
      }
    }

    /** One re-create attempt for an unplaced VM. */
    method DispatchVm(vmid: VmId, sent: bool, now: nat) returns (ghost d: Dispatch)
      requires Inv(View()) && vmid in Unplaced(View())
      modifies this
      ensures d.vmid == vmid && Best(parse, old(View()), old(manifests)[vmid], d.target)
      ensures View() == Dispatched(old(View()), d, now)
      ensures Inv(View())
    {
      var target := ScheduleAgent(manifests[vmid]);
      d := Dispatch(vmid, target, sent);
      DispatchKeepsInv(old(View()), d, now);
      if target.Some? {
        ReserveAndSend(vmid, target.value, sent, now);
      }
    }

    method ReserveAndSend(vmid: VmId, target: ActorId, sent: bool, now: nat)
      modifies this
      ensures View() == if sent then WithReservation(old(View()), vmid, target, now)
                        else old(View()).(placements := old(placements)[vmid := []], vmActors := old(vmActors) - {vmid})
    {
      placements := placements[vmid := Get(placements, vmid) + [VmPlacement(target, Pending, now, None)]];
      vmActors := vmActors[vmid := ActorsOf(vmActors, vmid) + [None]];
      if !sent {
        PutTwice(old(placements), vmid, placements[vmid], []);
        PutThenRemove(old(vmActors), vmid, vmActors[vmid]);
        placements := placements[vmid := []];
        vmActors := vmActors - {vmid};
      } else {
        pendingCache := None;
      }
    }
  }
}
