/** What the handlers do to the maps other than placements, said map by map. */
module Handlers {
  import opened Prelude
  import opened Policy
  import opened Placements
  import opened Scheduler

  ghost predicate KnowsActor(s: Sched, v: VmId, actor: ActorId) {
    Some(actor) in ActorsOf(s.vmActors, v)
  }

  // ----- actor entries -----

  predicate IsFirstPlaceholder(entries: seq<Option<ActorId>>, i: nat) {
    i < |entries| && entries[i].None? && forall k :: 0 <= k < i ==> entries[k].Some?
  }

  /** A known actor changes nothing; a new one takes the first placeholder or the end of the list. */
  lemma ActorTakesPlaceholder(entries: seq<Option<ActorId>>, actor: ActorId, i: nat)
    ensures Some(actor) in entries ==> WithActor(entries, actor) == entries
    ensures Some(actor) !in entries && IsFirstPlaceholder(entries, i) ==>
      WithActor(entries, actor) == entries[i := Some(actor)]
    ensures Some(actor) !in entries && (forall k :: 0 <= k < |entries| ==> entries[k].Some?) ==>
      WithActor(entries, actor) == entries + [Some(actor)]
  {
  }

  lemma {:induction false} DepartedActorIsGone(entries: seq<Option<ActorId>>, actor: ActorId)
    ensures forall e :: e in WithoutActor(entries, actor) <==> e in entries && e != Some(actor)
  {
    if entries != [] {
      DepartedActorIsGone(entries[1..], actor);
    }
  }

  lemma NothingLeft(entries: seq<Option<ActorId>>, actor: ActorId)
    ensures WithoutActor(entries, actor) != [] <==> exists e :: e in entries && e != Some(actor)
  {
    DepartedActorIsGone(entries, actor);
    var rest := WithoutActor(entries, actor);
    if rest != [] {
      assert rest[0] in rest;
    }
  }

  // ----- reports -----

  /** A VM report maps its actor to its VM, records the actor there, and stores a manifest if it has one. */
  lemma ReportRecords(
    s: Sched, actor: ActorId, vmid: VmId, config: Option<Manifest>, order: seq<ActorId>, now: nat)
    ensures var t := VmReported(s, actor, vmid, config, order, now);
      && actor in t.actorVms && t.actorVms[actor] == vmid
      && (forall x :: x != actor ==> (x in t.actorVms <==> x in s.actorVms))
      && (forall x :: x != actor && x in s.actorVms ==> t.actorVms[x] == s.actorVms[x])
      && KnowsActor(t, vmid, actor)
      && (forall v :: v != vmid ==> ActorsOf(t.vmActors, v) == ActorsOf(s.vmActors, v))
      && t.manifests == (if config.Some? then s.manifests[vmid := config.value] else s.manifests)
      && t.agents == s.agents && t.index == s.index && t.kinds == s.kinds
  {
    var entries := ActorsOf(s.vmActors, vmid);
    var i := FirstPlaceholder(entries);
    if Some(actor) !in entries {
      assert WithActor(entries, actor)[i] == Some(actor);
    }
  }

  // ----- creates -----

  /** A create of a known id, or without an agent, changes at most the totals cache. */
  lemma RefusedCreateChangesNothing(s: Sched, vmid: VmId, config: Manifest, outcome: CreateOutcome, now: nat)
    ensures vmid in s.manifests ==> forall target :: Created(s, vmid, config, target, outcome, now) == s
    ensures Created(s, vmid, config, None, outcome, now).(pendingCache := s.pendingCache) == s
  {
  }

  /** The actor named by the agent's reply is mapped to the VM; without one the mapping stays. */
  lemma CreateRemembersActor(s: Sched, vmid: VmId, config: Manifest, target: ActorId, outcome: CreateOutcome, now: nat)
    requires vmid !in s.manifests
    ensures var t := Created(s, vmid, config, Some(target), outcome, now);
      && t.actorVms == (if outcome.Replied? && outcome.actor.Some? then s.actorVms[outcome.actor.value := vmid] else s.actorVms)
      && t.manifests == (if outcome == Failed(false) then s.manifests else s.manifests[vmid := config])
      && ActorsOf(t.vmActors, vmid) == (if outcome == Failed(false) then [] else ActorsOf(s.vmActors, vmid) + [None])
      && t.agents == s.agents && t.index == s.index && t.kinds == s.kinds
  {
    if outcome == Failed(false) {
      assert s.manifests[vmid := config] - {vmid} == s.manifests;
    }
  }

  /** A rollback acts only when no actor exists, and unmaps only an actor that names this VM. */
  lemma RollbackIsSelective(s: Sched, vmid: VmId, actorExists: bool, actor: Option<ActorId>)
    ensures var t := RolledBack(s, vmid, actorExists, actor);
      && (actorExists ==> t == s)
      && (!actorExists ==>
            && vmid !in t.manifests && vmid !in t.placements && vmid !in t.vmActors
            && (forall x :: x in t.actorVms <==> x in s.actorVms && !(actor == Some(x) && s.actorVms[x] == vmid))
            && (forall x :: x in t.actorVms ==> t.actorVms[x] == s.actorVms[x])
            && (forall v :: v != vmid ==> Get(t.placements, v) == Get(s.placements, v))
            && (forall v :: v != vmid ==> ActorsOf(t.vmActors, v) == ActorsOf(s.vmActors, v)))
      && t.agents == s.agents && t.index == s.index && t.kinds == s.kinds
  {
  }

  /** An attempt adds a placeholder when it is sent, and drops the VM's entries when sending fails. */
  lemma DispatchChangesEntries(s: Sched, d: Dispatch, now: nat, v: VmId)
    ensures ActorsOf(Dispatched(s, d, now).vmActors, v)
         == if v != d.vmid || d.target.None? then ActorsOf(s.vmActors, v)
            else if d.sent then ActorsOf(s.vmActors, v) + [None]
            else []
  {
  }

  // ----- stops -----

  /** A stop that reached the VM erases it from every map and nothing else from any. */
  lemma StopForgetsVm(s: Sched, vmid: VmId)
    ensures var t := IntentRemoved(s, vmid);
      && vmid !in t.manifests && vmid !in t.placements && vmid !in t.vmActors
      && (forall v :: v != vmid ==> (v in t.manifests <==> v in s.manifests))
      && (forall v :: v != vmid && v in s.manifests ==> t.manifests[v] == s.manifests[v])
      && (forall v :: v != vmid ==> Get(t.placements, v) == Get(s.placements, v))
      && (forall v :: v != vmid ==> ActorsOf(t.vmActors, v) == ActorsOf(s.vmActors, v))
      && (forall x :: x in t.actorVms <==> x in s.actorVms && s.actorVms[x] != vmid)
      && (forall x :: x in t.actorVms ==> t.actorVms[x] == s.actorVms[x])
      && t.index.Keys == s.index.Keys
      && (forall a, v :: a in s.index ==> (v in t.index[a] <==> v in s.index[a] && v != vmid))
      && t.agents == s.agents && t.kinds == s.kinds
  {
  }

  // ----- departures -----

  lemma AgentDeparts(s: Sched, id: ActorId)
    ensures var t := AgentCleaned(s, id);
      && t.agents == s.agents - {id} && t.index == s.index - {id}
      && t.manifests == s.manifests && t.actorVms == s.actorVms && t.vmActors == s.vmActors && t.kinds == s.kinds
      && t.placements.Keys == s.placements.Keys
  {
  }

  lemma VmActorDeparts(s: Sched, id: ActorId)
    ensures var t := VmCleaned(s, id);
      && t.agents == s.agents && t.index == s.index && t.manifests == s.manifests && t.kinds == s.kinds
      && t.actorVms == s.actorVms - {id}
      && (forall v, x :: KnowsActor(t, v, x) <==> KnowsActor(s, v, x) && x != id)
      && (forall v :: v in t.vmActors <==> v in s.vmActors && exists e :: e in s.vmActors[v] && e != Some(id))
      && t.placements.Keys == s.placements.Keys
  {
    forall v | v in s.vmActors
      ensures WithoutActor(s.vmActors[v], id) != [] <==> exists e :: e in s.vmActors[v] && e != Some(id)
    {
      NothingLeft(s.vmActors[v], id);
    }
    forall v: VmId, x: ActorId ensures KnowsActor(VmCleaned(s, id), v, x) <==> KnowsActor(s, v, x) && x != id {
      DepartedActorIsGone(ActorsOf(s.vmActors, v), id);
    }
  }

  /** A dead link cleans up by the kind of the actor, once, and an unknown actor is ignored. */
  lemma DeadLinkActsByKind(s: Sched, id: ActorId)
    ensures var t := LinkLost(s, id);
      && id !in t.kinds && LinkLost(t, id) == t
      && (id !in s.kinds ==> t == s)
      && (id in s.kinds && s.kinds[id] == AgentKind ==>
            id !in t.agents && id !in t.index && t.actorVms == s.actorVms && t.vmActors == s.vmActors)
      && (id in s.kinds && s.kinds[id] == VmKind ==>
            id !in t.actorVms && (forall v :: !KnowsActor(t, v, id)) && t.agents == s.agents && t.index == s.index)
  {
    var u := s.(kinds := s.kinds - {id});
    AgentDeparts(u, id);
    VmActorDeparts(u, id);
  }

  /** What discovery records decides: the cleanup of the same actor follows its kind. */
  lemma DiscoveredActorsAreCleanedUp(s: Sched, id: ActorId)
    ensures LinkLost(Next(s, AgentDiscovered(id)), id).agents == s.agents - {id}
    ensures LinkLost(Next(s, VmDiscovered(id)), id).actorVms == s.actorVms - {id}
    ensures LinkLost(Next(s, VmDiscovered(id)), id).agents == s.agents
  {
    AgentDeparts(s.(kinds := s.kinds[id := AgentKind] - {id}), id);
    VmActorDeparts(s.(kinds := s.kinds[id := VmKind] - {id}), id);
  }

  /** An updater that gave up counts as a dead link to an actor of its kind. */
  lemma StoppedUpdaterIsADeadLink(s: Sched, id: ActorId)
    ensures Next(s, AgentUpdaterStopped(id)) == LinkLost(s.(kinds := s.kinds[id := AgentKind]), id)
    ensures Next(s, VmUpdaterStopped(id)) == LinkLost(s.(kinds := s.kinds[id := VmKind]), id)
  {
    assert s.kinds[id := AgentKind] - {id} == s.kinds - {id};
    assert s.kinds[id := VmKind] - {id} == s.kinds - {id};
  }

  // ----- expiry -----

  /** Expiry keeps every list, and drops actor entries only of VMs left without entry and actor. */
  lemma ExpiryKeepsIntent(s: Sched, now: nat)
    ensures var t := Expired(s, now);
      && t.manifests == s.manifests && t.placements.Keys == s.placements.Keys
      && t.agents == s.agents && t.index == s.index && t.actorVms == s.actorVms && t.kinds == s.kinds
      && (forall v :: v in t.vmActors <==>
            v in s.vmActors && !(v in s.placements && t.placements[v] == [] && !HasActor(s.vmActors, v)))
      && (forall v :: v in t.vmActors ==> t.vmActors[v] == s.vmActors[v])
      && (forall v, x :: KnowsActor(t, v, x) <==> KnowsActor(s, v, x))
  {
    var t := Expired(s, now);
    forall v: VmId, x: ActorId | KnowsActor(s, v, x) ensures KnowsActor(t, v, x) {
      var i :| 0 <= i < |s.vmActors[v]| && s.vmActors[v][i] == Some(x);
      assert HasActor(s.vmActors, v);
    }
  }
}
