/**
 * The scheduler refines a simpler machine: every VM has a placement list (possibly empty) and a
 * set of discovered actors, there are no placeholders and no cached totals.  Missing keys,
 * empty lists, placeholder counts and the cache never influence behaviour.
 */
module Refinement {
  import opened Prelude
  import opened Membership
  import opened Policy
  import opened Placements
  import opened Scheduler
  import opened SchedulerInvariants

  /** `placed` and `found` are total on VM ids. */
  datatype Plain = Plain(
    agents: map<ActorId, CachedAgent>,
    actorVms: map<ActorId, VmId>,
    manifests: Manifests,
    placed: imap<VmId, seq<VmPlacement>>,
    found: imap<VmId, set<ActorId>>,
    index: VmIndex,
    kinds: map<ActorId, ActorKind>)
  {
    ghost predicate Valid() {
      (forall v: VmId :: v in placed) && (forall v: VmId :: v in found)
    }
  }

  ghost function Found(entries: seq<Option<ActorId>>): set<ActorId> {
    set e | e in entries && e.Some? :: e.value
  }

  ghost function Abs(s: Sched): (t: Plain)
    ensures t.Valid()
  {
    Plain(
      s.agents, s.actorVms, s.manifests,
      imap v: VmId :: Get(s.placements, v),
      imap v: VmId :: Found(ActorsOf(s.vmActors, v)),
      s.index, s.kinds)
  }

  // ----- the simpler machine -----

  /** The part of the state that scheduling reads, as a scheduler state. */
  ghost function Scheduling(t: Plain): Sched
    requires t.Valid()
  {
    Sched(t.agents, t.actorVms, t.manifests, map v | v in t.manifests :: t.placed[v], map[], None, t.index, t.kinds)
  }

  ghost function PlainForgotten(t: Plain, vmid: VmId): (u: Plain)
    requires t.Valid()
    ensures u.Valid()
  {
    t.(manifests := t.manifests - {vmid}, placed := t.placed[vmid := []], found := t.found[vmid := {}])
  }

  ghost function PlainReserved(t: Plain, vmid: VmId, target: ActorId, now: nat): (u: Plain)
    requires t.Valid()
    ensures u.Valid()
  {
    t.(placed := t.placed[vmid := t.placed[vmid] + [Reserved(target, now)]])
  }

  ghost function PlainSettled(t: Plain, vmid: VmId, outcome: CreateOutcome): (u: Plain)
    requires t.Valid()
    ensures u.Valid()
  {
    match outcome
    case Replied(None) => t
    case Replied(Some(actor)) => t.(actorVms := t.actorVms[actor := vmid])
    case Failed(actorExists) => if actorExists then t else PlainForgotten(t, vmid)
  }

  ghost function PlainCreated(
    t: Plain, vmid: VmId, config: Manifest, target: Option<ActorId>, outcome: CreateOutcome, now: nat): (u: Plain)
    requires t.Valid()
    ensures u.Valid()
  {
    if vmid in t.manifests || target.None? then t
    else PlainSettled(PlainReserved(t.(manifests := t.manifests[vmid := config]), vmid, target.value, now), vmid, outcome)
  }

  ghost function PlainStopped(t: Plain, vmid: VmId): (u: Plain)
    requires t.Valid()
    ensures u.Valid()
  {
    PlainForgotten(t, vmid).(
      actorVms := WithoutVm(t.actorVms, vmid),
      index := map a | a in t.index :: t.index[a] - {vmid})
  }

  ghost function PlainReported(
    t: Plain, actor: ActorId, vmid: VmId, config: Option<Manifest>, order: seq<ActorId>, now: nat): (u: Plain)
    requires t.Valid()
    ensures u.Valid()
  {
    var u := t.(actorVms := t.actorVms[actor := vmid], found := t.found[vmid := t.found[vmid] + {actor}]);
    if config.None? then u else
      u.(manifests := t.manifests[vmid := config.value],
         placed := t.placed[vmid := ConfirmAcross(t.placed[vmid], order, now)])
  }

  ghost function PlainAgentCleaned(t: Plain, a: ActorId): (u: Plain)
    requires t.Valid()
    ensures u.Valid()
  {
    var seen := if a in t.index then t.index[a] else {};
    t.(agents := t.agents - {a},
       index := t.index - {a},
       placed := imap v: VmId :: DepartedEntries(t.placed[v], a, v in seen && t.found[v] != {}))
  }

  ghost function PlainActorDropped(t: Plain, actor: ActorId): (u: Plain)
    requires t.Valid()
    ensures u.Valid()
  {
    t.(actorVms := t.actorVms - {actor}, found := imap v: VmId :: t.found[v] - {actor})
  }

  ghost function PlainVmCleaned(t: Plain, actor: ActorId): (u: Plain)
    requires t.Valid()
    ensures u.Valid()
  {
    var u := PlainActorDropped(t, actor);
    if actor !in t.actorVms then u else
      var v := t.actorVms[actor];
      if u.found[v] != {} then u
      else u.(placed := t.placed[v := Retain(t.placed[v], IfPendingOrOn(AgentsSeeing(t.index, v)))])
  }

  ghost function PlainLinkLost(t: Plain, id: ActorId): (u: Plain)
    requires t.Valid()
    ensures u.Valid()
  {
    if id !in t.kinds then t
    else if t.kinds[id].AgentKind? then PlainAgentCleaned(t.(kinds := t.kinds - {id}), id)
    else PlainVmCleaned(t.(kinds := t.kinds - {id}), id)
  }

  ghost function PlainSnapshot(t: Plain, a: ActorId, revision: U64, status: AgentStatus, now: nat): (u: Plain)
    requires t.Valid()
    ensures u.Valid()
  {
    t.(agents := t.agents[a := CachedAgent(status, revision)],
       index := t.index[a := Elems(status.vms)],
       placed := imap v: VmId :: SnapshotEntries(t.placed[v], a, v in Elems(status.vms), v in t.manifests, now))
  }

  ghost function PlainDelta(t: Plain, a: ActorId, update: StatusUpdate, now: nat): (u: Plain)
    requires t.Valid() && a in t.agents && update.Delta?
    ensures u.Valid()
  {
    var added, removed := Elems(update.added), Elems(update.removed);
    var seen := if a in t.index then t.index[a] else {};
    t.(agents := t.agents[a := CachedAgent(Applied(t.agents[a].data, update), update.revision)],
       index := t.index[a := (seen + added) - removed],
       placed := imap v: VmId :: DeltaEntries(t.placed[v], a, v in added && v in t.manifests, v in removed, now))
  }

  ghost function PlainStatus(t: Plain, a: ActorId, update: StatusUpdate, now: nat): (u: Plain)
    requires t.Valid()
    ensures u.Valid()
  {
    if a !in t.agents then
      (if update.Full? then PlainSnapshot(t, a, update.revision, update.status, now) else t)
    else if update.revision <= t.agents[a].revision then t
    else if update.Full? then PlainSnapshot(t, a, update.revision, update.status, now)
    else PlainDelta(t, a, update, now)
  }

  ghost function PlainExpired(t: Plain, now: nat): (u: Plain)
    requires t.Valid()
    ensures u.Valid()
  {
    t.(placed := imap v: VmId :: ExpiredEntries(t.placed[v], t.found[v] != {}, now))
  }

  ghost function PlainDispatched(t: Plain, d: Dispatch, now: nat): (u: Plain)
    requires t.Valid()
    ensures u.Valid()
  {
    if d.target.None? then t
    else if d.sent then PlainReserved(t, d.vmid, d.target.value, now)
    else t.(placed := t.placed[d.vmid := []], found := t.found[d.vmid := {}])
  }

  ghost function PlainDispatchedAll(t: Plain, ds: seq<Dispatch>, now: nat): (u: Plain)
    requires t.Valid()
    ensures u.Valid()
    decreases |ds|
  {
    if ds == [] then t else PlainDispatchedAll(PlainDispatched(t, ds[0], now), ds[1..], now)
  }

  ghost function PlainUnplaced(t: Plain): set<VmId>
    requires t.Valid()
  {
    set v | v in t.manifests && t.placed[v] == []
  }

  ghost predicate PlainDispatchable(parse: NumberParser, t: Plain, ds: seq<Dispatch>, now: nat)
    requires t.Valid()
    decreases |ds|
  {
    ds == [] ||
    (&& ds[0].vmid in PlainUnplaced(t)
     && Best(parse, Scheduling(t), t.manifests[ds[0].vmid], ds[0].target)
     && PlainDispatchable(parse, PlainDispatched(t, ds[0], now), ds[1..], now))
  }

  ghost predicate PlainEnabled(parse: NumberParser, t: Plain, step: Step)
    requires t.Valid()
  {
    match step
    case VmUpdated(_, vmid, config, order, _) =>
      config.Some? ==> NoDuplicates(order) && Elems(order) == AgentsSeeing(t.index, vmid)
    case AgentUpdated(_, update, _) => update.Full? ==> StrictlySorted(update.status.vms)
    case CreateVm(vmid, manifest, target, _, _) =>
      vmid !in t.manifests ==> Best(parse, Scheduling(t), manifest, target)
    case ReconcileVmPlacements(dispatches, now) =>
      && NoDuplicates(DispatchIds(dispatches))
      && Elems(DispatchIds(dispatches)) == PlainUnplaced(PlainExpired(t, now))
      && PlainDispatchable(parse, PlainExpired(t, now), dispatches, now)
    case _ => true
  }

  ghost function PlainNext(t: Plain, step: Step): (u: Plain)
    requires t.Valid()
    ensures u.Valid()
  {
    match step
    case AgentDiscovered(id) => t.(kinds := t.kinds[id := AgentKind])
    case VmDiscovered(id) => t.(kinds := t.kinds[id := VmKind])
    case VmUpdated(id, vmid, config, order, now) => PlainReported(t, id, vmid, config, order, now)
    case VmUpdaterStopped(id) => PlainVmCleaned(t.(kinds := t.kinds - {id}), id)
    case AgentUpdated(id, update, now) => PlainStatus(t, id, update, now)
    case AgentUpdaterStopped(id) => PlainAgentCleaned(t.(kinds := t.kinds - {id}), id)
    case LinkDied(id) => PlainLinkLost(t, id)
    case CreateVm(vmid, manifest, target, outcome, now) => PlainCreated(t, vmid, manifest, target, outcome, now)
    case StopVm(vmid, reached) => if reached then PlainStopped(t, vmid) else t
    case ReconcileVmPlacements(dispatches, now) => PlainDispatchedAll(PlainExpired(t, now), dispatches, now)
  }

  ghost predicate PlainRuns(parse: NumberParser, t: Plain, steps: seq<Step>)
    requires t.Valid()
    decreases |steps|
  {
    steps == [] || (PlainEnabled(parse, t, steps[0]) && PlainRuns(parse, PlainNext(t, steps[0]), steps[1..]))
  }

  ghost function PlainAfter(t: Plain, steps: seq<Step>): Plain
    requires t.Valid()
    decreases |steps|
  {
    if steps == [] then t else PlainAfter(PlainNext(t, steps[0]), steps[1..])
  }

  // ----- actors -----

  lemma DiscoveredIsFound(entries: seq<Option<ActorId>>)
    ensures SomeDiscovered(entries) <==> Found(entries) != {}
  {
    if SomeDiscovered(entries) {
      var i :| 0 <= i < |entries| && entries[i].Some?;
      assert entries[i] in entries;
      assert entries[i].value in Found(entries);
    }
  }

  lemma WithActorFound(entries: seq<Option<ActorId>>, actor: ActorId)
    ensures Found(WithActor(entries, actor)) == Found(entries) + {actor}
  {
    var after := WithActor(entries, actor);
    var i := FirstPlaceholder(entries);
    assert Some(actor) in after by {
      if Some(actor) !in entries {
        assert after[i] == Some(actor);
      }
    }
    forall e | e in entries && e.Some? ensures e in after {
      var k :| 0 <= k < |entries| && entries[k] == e;
      assert after[k] == e;
    }
    forall e | e in after ensures e in entries || e == Some(actor) {
      var k :| 0 <= k < |after| && after[k] == e;
    }
  }

  lemma {:induction false} WithoutActorMembers(entries: seq<Option<ActorId>>, actor: ActorId)
    ensures forall e :: e in WithoutActor(entries, actor) <==> e in entries && e != Some(actor)
  {
    if entries != [] {
      WithoutActorMembers(entries[1..], actor);
    }
  }

  lemma ForgottenFound(c: ActorCache, actor: ActorId, v: VmId)
    ensures Found(ActorsOf(ActorForgotten(c, actor), v)) == Found(ActorsOf(c, v)) - {actor}
  {
    WithoutActorMembers(ActorsOf(c, v), actor);
  }

  // ----- scheduling reads only what both machines share -----

  /** The same choices are possible before and after abstraction. */
  lemma SameChoices(parse: NumberParser, s: Sched, m: Manifest, target: Option<ActorId>)
    ensures Best(parse, s, m, target) <==> Best(parse, Scheduling(Abs(s)), m, target)
  {
    var t := Scheduling(Abs(s));
    if Best(parse, s, m, target) {
      ChoiceReadsListsOnly(parse, s, t, m, target);
    }
    if Best(parse, t, m, target) {
      ChoiceReadsListsOnly(parse, t, s, m, target);
    }
  }

  // ----- simulation, handler by handler -----

  lemma AbsIs(s: Sched, t: Plain)
    requires t.Valid()
    requires t.agents == s.agents && t.actorVms == s.actorVms && t.manifests == s.manifests
    requires t.index == s.index && t.kinds == s.kinds
    requires forall v: VmId :: t.placed[v] == Get(s.placements, v)
    requires forall v: VmId :: t.found[v] == Found(ActorsOf(s.vmActors, v))
    ensures Abs(s) == t
  {
    assert Abs(s).placed == t.placed;
    assert Abs(s).found == t.found;
  }

  lemma SimulateAgentCleanup(s: Sched, a: ActorId)
    ensures Abs(AgentCleaned(s, a)) == PlainAgentCleaned(Abs(s), a)
  {
    forall v: VmId ensures PlainAgentCleaned(Abs(s), a).placed[v] == Get(AgentCleaned(s, a).placements, v) {
      DiscoveredIsFound(ActorsOf(s.vmActors, v));
    }
    AbsIs(AgentCleaned(s, a), PlainAgentCleaned(Abs(s), a));
  }

  lemma SimulateDrop(s: Sched, actor: ActorId)
    ensures Abs(ActorDropped(s, actor)) == PlainActorDropped(Abs(s), actor)
  {
    forall v: VmId
      ensures PlainActorDropped(Abs(s), actor).found[v] == Found(ActorsOf(ActorDropped(s, actor).vmActors, v))
    {
      ForgottenFound(s.vmActors, actor, v);
    }
    AbsIs(ActorDropped(s, actor), PlainActorDropped(Abs(s), actor));
  }

  lemma SimulatePlacing(s: Sched, v: VmId, entries: seq<VmPlacement>)
    ensures Abs(s.(placements := s.placements[v := entries])) == Abs(s).(placed := Abs(s).placed[v := entries])
  {
    AbsIs(s.(placements := s.placements[v := entries]), Abs(s).(placed := Abs(s).placed[v := entries]));
  }

  lemma SimulateAbsence(s: Sched, v: VmId)
    requires v !in s.placements
    ensures Abs(s) == Abs(s).(placed := Abs(s).placed[v := []])
  {
    AbsIs(s, Abs(s).(placed := Abs(s).placed[v := []]));
  }

  lemma SimulateVmCleanup(s: Sched, actor: ActorId)
    ensures Abs(VmCleaned(s, actor)) == PlainVmCleaned(Abs(s), actor)
  {
    var t := ActorDropped(s, actor);
    SimulateDrop(s, actor);
    if actor in s.actorVms {
      var v := s.actorVms[actor];
      var entries := Retain(Get(t.placements, v), IfPendingOrOn(AgentsSeeing(s.index, v)));
      DiscoveredIsFound(ActorsOf(t.vmActors, v));
      if HasActor(t.vmActors, v) {
        assert VmCleaned(s, actor) == t;
      } else if v !in t.placements {
        SimulateAbsence(t, v);
        assert VmCleaned(s, actor) == t;
      } else {
        SimulatePlacing(t, v, entries);
        assert VmCleaned(s, actor) == t.(placements := t.placements[v := entries]);
      }
    }
  }

  lemma SimulateDeparture(s: Sched, id: ActorId)
    ensures var s', t' := s.(kinds := s.kinds - {id}), Abs(s).(kinds := s.kinds - {id});
      && t'.Valid()
      && Abs(AgentCleaned(s', id)) == PlainAgentCleaned(t', id)
      && Abs(VmCleaned(s', id)) == PlainVmCleaned(t', id)
  {
    var s', t' := s.(kinds := s.kinds - {id}), Abs(s).(kinds := s.kinds - {id});
    AbsIs(s', t');
    SimulateAgentCleanup(s', id);
    SimulateVmCleanup(s', id);
  }

  lemma ReportedVm(
    s: Sched, actor: ActorId, vmid: VmId, config: Option<Manifest>, order: seq<ActorId>, now: nat, v: VmId)
    ensures var t := VmReported(s, actor, vmid, config, order, now);
      && ActorsOf(t.vmActors, v) == (if v == vmid then WithActor(ActorsOf(s.vmActors, vmid), actor) else ActorsOf(s.vmActors, v))
      && Get(t.placements, v)
         == if v == vmid && config.Some? then ConfirmAcross(Get(s.placements, vmid), order, now) else Get(s.placements, v)
  {
  }

  lemma SimulateVmReport(s: Sched, actor: ActorId, vmid: VmId, config: Option<Manifest>, order: seq<ActorId>, now: nat)
    ensures Abs(VmReported(s, actor, vmid, config, order, now)) == PlainReported(Abs(s), actor, vmid, config, order, now)
  {
    var t, u := VmReported(s, actor, vmid, config, order, now), PlainReported(Abs(s), actor, vmid, config, order, now);
    WithActorFound(ActorsOf(s.vmActors, vmid), actor);
    forall v: VmId ensures u.found[v] == Found(ActorsOf(t.vmActors, v)) && u.placed[v] == Get(t.placements, v) {
      ReportedVm(s, actor, vmid, config, order, now, v);
    }
    AbsIs(t, u);
  }

  lemma SimulateSnapshot(s: Sched, a: ActorId, revision: U64, status: AgentStatus, now: nat)
    ensures Abs(SnapshotAccepted(s, a, revision, status, now)) == PlainSnapshot(Abs(s), a, revision, status, now)
  {
    var t, u := SnapshotAccepted(s, a, revision, status, now), PlainSnapshot(Abs(s), a, revision, status, now);
    forall v: VmId ensures u.placed[v] == Get(t.placements, v) {
      SnapshotList(s.manifests, s.placements, a, Elems(status.vms), now, v);
    }
    AbsIs(t, u);
  }

  lemma SimulateDelta(s: Sched, a: ActorId, update: StatusUpdate, now: nat)
    requires a in s.agents && update.Delta?
    ensures Abs(DeltaAccepted(s, a, update, now)) == PlainDelta(Abs(s), a, update, now)
  {
    var t, u := DeltaAccepted(s, a, update, now), PlainDelta(Abs(s), a, update, now);
    forall v: VmId ensures u.placed[v] == Get(t.placements, v) {
      DeltaList(s.manifests, s.placements, a, Elems(update.added), Elems(update.removed), now, v);
    }
    AbsIs(t, u);
  }

  lemma SimulateStatus(s: Sched, a: ActorId, update: StatusUpdate, now: nat)
    ensures Abs(StatusArrived(s, a, update, now)) == PlainStatus(Abs(s), a, update, now)
  {
    if update.Full? {
      SimulateSnapshot(s, a, update.revision, update.status, now);
    } else if a in s.agents {
      SimulateDelta(s, a, update, now);
    }
  }

  lemma FoundIgnoresPlaceholder(entries: seq<Option<ActorId>>)
    ensures Found(entries + [None]) == Found(entries)
  {
  }

  lemma SimulateReservation(s: Sched, vmid: VmId, target: ActorId, now: nat)
    ensures Abs(WithReservation(s, vmid, target, now)) == PlainReserved(Abs(s), vmid, target, now)
  {
    FoundIgnoresPlaceholder(ActorsOf(s.vmActors, vmid));
    AbsIs(WithReservation(s, vmid, target, now), PlainReserved(Abs(s), vmid, target, now));
  }

  lemma SimulateRemoval(s: Sched, vmid: VmId)
    ensures Abs(StateRemoved(s, vmid)) == PlainForgotten(Abs(s), vmid)
  {
    AbsIs(StateRemoved(s, vmid), PlainForgotten(Abs(s), vmid));
  }

  lemma CacheIsInvisible(s: Sched, cache: Option<map<ActorId, Reservation>>)
    ensures Abs(s.(pendingCache := cache)) == Abs(s)
  {
    AbsIs(s.(pendingCache := cache), Abs(s));
  }

  lemma SimulateFilling(s: Sched)
    ensures Abs(CacheFilled(s)) == Abs(s)
  {
    CacheIsInvisible(s, CacheFilled(s).pendingCache);
    assert CacheFilled(s) == s.(pendingCache := CacheFilled(s).pendingCache);
  }

  lemma SimulateSettling(s: Sched, vmid: VmId, outcome: CreateOutcome)
    ensures Abs(CreateSettled(s, vmid, outcome)) == PlainSettled(Abs(s), vmid, outcome)
  {
    if outcome == Failed(false) {
      SimulateRemoval(s, vmid);
    }
  }

  lemma SimulateCreate(s: Sched, vmid: VmId, config: Manifest, target: Option<ActorId>, outcome: CreateOutcome, now: nat)
    ensures Abs(Created(s, vmid, config, target, outcome, now))
         == PlainCreated(Abs(s), vmid, config, target, outcome, now)
  {
    if vmid !in s.manifests && target.Some? {
      var named := s.(manifests := s.manifests[vmid := config]);
      SimulateReservation(named, vmid, target.value, now);
      SimulateSettling(WithReservation(named, vmid, target.value, now), vmid, outcome);
      assert Abs(named) == Abs(s).(manifests := named.manifests);
    } else {
      SimulateFilling(s);
    }
  }

  lemma SimulateStop(s: Sched, vmid: VmId)
    ensures Abs(IntentRemoved(s, vmid)) == PlainStopped(Abs(s), vmid)
  {
    AbsIs(IntentRemoved(s, vmid), PlainStopped(Abs(s), vmid));
  }

  lemma SimulateExpiry(s: Sched, now: nat)
    ensures Abs(Expired(s, now)) == PlainExpired(Abs(s), now)
  {
    var s', t' := Expired(s, now), PlainExpired(Abs(s), now);
    forall v: VmId
      ensures t'.placed[v] == Get(s'.placements, v)
      ensures t'.found[v] == Found(ActorsOf(s'.vmActors, v))
    {
      DiscoveredIsFound(ActorsOf(s.vmActors, v));
    }
    AbsIs(s', t');
  }

  lemma SimulateClearing(s: Sched, t: Sched, vmid: VmId)
    requires t == s.(pendingCache := t.pendingCache, placements := s.placements[vmid := []], vmActors := s.vmActors - {vmid})
    ensures Abs(t) == Abs(s).(placed := Abs(s).placed[vmid := []], found := Abs(s).found[vmid := {}])
  {
    AbsIs(t, Abs(s).(placed := Abs(s).placed[vmid := []], found := Abs(s).found[vmid := {}]));
  }

  lemma SimulateDispatch(s: Sched, d: Dispatch, now: nat)
    ensures Abs(Dispatched(s, d, now)) == PlainDispatched(Abs(s), d, now)
  {
    if d.target.Some? && d.sent {
      SimulateReservation(s, d.vmid, d.target.value, now);
    } else if d.target.Some? {
      SimulateClearing(s, Dispatched(s, d, now), d.vmid);
    } else {
      SimulateFilling(s);
    }
  }

  lemma SameUnplaced(s: Sched)
    ensures PlainUnplaced(Abs(s)) == Unplaced(s)
  {
  }

  lemma {:induction false} SimulateDispatches(parse: NumberParser, s: Sched, ds: seq<Dispatch>, now: nat)
    ensures Dispatchable(parse, s, ds, now) <==> PlainDispatchable(parse, Abs(s), ds, now)
    ensures Abs(DispatchedAll(s, ds, now)) == PlainDispatchedAll(Abs(s), ds, now)
    decreases |ds|
  {
    if ds != [] {
      SameUnplaced(s);
      SimulateDispatch(s, ds[0], now);
      SimulateDispatches(parse, Dispatched(s, ds[0], now), ds[1..], now);
      if ds[0].vmid in Unplaced(s) {
        SameChoices(parse, s, s.manifests[ds[0].vmid], ds[0].target);
      }
    }
  }

  /** The same steps are possible in both machines. */
  lemma SameSteps(parse: NumberParser, s: Sched, step: Step)
    ensures Enabled(parse, s, step) <==> PlainEnabled(parse, Abs(s), step)
  {
    match step
    case CreateVm(_, manifest, target, _, _) => SameChoices(parse, s, manifest, target);
    case ReconcileVmPlacements(dispatches, now) =>
      SimulateExpiry(s, now);
      SameUnplaced(Expired(s, now));
      SimulateDispatches(parse, Expired(s, now), dispatches, now);
    case _ =>
  }

  lemma SimulateReconcile(parse: NumberParser, s: Sched, ds: seq<Dispatch>, now: nat)
    ensures Abs(DispatchedAll(Expired(s, now), ds, now)) == PlainDispatchedAll(PlainExpired(Abs(s), now), ds, now)
  {
    SimulateExpiry(s, now);
    SimulateDispatches(parse, Expired(s, now), ds, now);
  }

  lemma SimulateLinkLoss(s: Sched, id: ActorId)
    ensures Abs(LinkLost(s, id)) == PlainLinkLost(Abs(s), id)
  {
    SimulateDeparture(s, id);
  }

  lemma SimulateDiscovery(s: Sched, kinds: map<ActorId, ActorKind>)
    ensures Abs(s.(kinds := kinds)) == Abs(s).(kinds := kinds)
  {
    AbsIs(s.(kinds := kinds), Abs(s).(kinds := kinds));
  }

  lemma SimulateCreateStep(s: Sched, step: Step)
    requires step.CreateVm?
    ensures Abs(Next(s, step)) == PlainNext(Abs(s), step)
  {
    SimulateCreate(s, step.vmid, step.manifest, step.target, step.outcome, step.now);
  }

  lemma SimulateStopStep(s: Sched, step: Step)
    requires step.StopVm?
    ensures Abs(Next(s, step)) == PlainNext(Abs(s), step)
  {
    SimulateStop(s, step.vmid);
  }

  lemma SimulateReconcileStep(parse: NumberParser, s: Sched, step: Step)
    requires step.ReconcileVmPlacements?
    ensures Abs(Next(s, step)) == PlainNext(Abs(s), step)
  {
    SimulateReconcile(parse, s, step.dispatches, step.now);
  }

  lemma SimulateReport(s: Sched, step: Step)
    requires step.VmUpdated? || step.AgentUpdated? || step.AgentDiscovered? || step.VmDiscovered?
    ensures Abs(Next(s, step)) == PlainNext(Abs(s), step)
  {
    match step
    case AgentDiscovered(id) => SimulateDiscovery(s, s.kinds[id := AgentKind]);
    case VmDiscovered(id) => SimulateDiscovery(s, s.kinds[id := VmKind]);
    case VmUpdated(id, vmid, config, order, now) => SimulateVmReport(s, id, vmid, config, order, now);
    case AgentUpdated(id, update, now) => SimulateStatus(s, id, update, now);
  }

  lemma SimulateLoss(s: Sched, step: Step)
    requires step.VmUpdaterStopped? || step.AgentUpdaterStopped? || step.LinkDied?
    ensures Abs(Next(s, step)) == PlainNext(Abs(s), step)
  {
    SimulateDeparture(s, step.id);
    SimulateLinkLoss(s, step.id);
  }

  /** Every step of the scheduler is the same step of the simpler machine. */
  lemma Simulate(parse: NumberParser, s: Sched, step: Step)
    ensures Abs(Next(s, step)) == PlainNext(Abs(s), step)
  {
    if step.CreateVm? {
      SimulateCreateStep(s, step);
    } else if step.StopVm? {
      SimulateStopStep(s, step);
    } else if step.ReconcileVmPlacements? {
      SimulateReconcileStep(parse, s, step);
    } else if step.VmUpdaterStopped? || step.AgentUpdaterStopped? || step.LinkDied? {
      SimulateLoss(s, step);
    } else {
      SimulateReport(s, step);
    }
  }

  /** Both machines have the same runs, and abstraction commutes with running. */
  lemma {:induction false} RefinementOverRuns(parse: NumberParser, s: Sched, steps: seq<Step>)
    ensures Runs(parse, s, steps) <==> PlainRuns(parse, Abs(s), steps)
    ensures Abs(After(s, steps)) == PlainAfter(Abs(s), steps)
    decreases |steps|
  {
    if steps != [] {
      SameSteps(parse, s, steps[0]);
      Simulate(parse, s, steps[0]);
      RefinementOverRuns(parse, Next(s, steps[0]), steps[1..]);
    }
  }

  /**
   * States that differ only in empty lists, placeholders and the cache allow the same runs, and
   * after each of them re-dispatch the same VMs and choose among the same agents.
   */
  lemma RepresentationIsInvisible(parse: NumberParser, s: Sched, t: Sched, steps: seq<Step>, m: Manifest, target: Option<ActorId>)
    requires Abs(s) == Abs(t)
    ensures Runs(parse, s, steps) <==> Runs(parse, t, steps)
    ensures Unplaced(After(s, steps)) == Unplaced(After(t, steps))
    ensures PendingByAgent(After(s, steps).manifests, After(s, steps).placements)
         == PendingByAgent(After(t, steps).manifests, After(t, steps).placements)
    ensures Best(parse, After(s, steps), m, target) <==> Best(parse, After(t, steps), m, target)
  {
    RefinementOverRuns(parse, s, steps);
    RefinementOverRuns(parse, t, steps);
    SameUnplaced(After(s, steps));
    SameUnplaced(After(t, steps));
    SameChoices(parse, After(s, steps), m, target);
    SameChoices(parse, After(t, steps), m, target);
    SameReservations(After(s, steps), After(t, steps));
  }

  lemma SameReservations(s: Sched, t: Sched)
    requires Abs(s) == Abs(t)
    ensures PendingByAgent(s.manifests, s.placements) == PendingByAgent(t.manifests, t.placements)
  {
    assert s.manifests == Abs(s).manifests && t.manifests == Abs(t).manifests;
    forall v: VmId ensures Get(s.placements, v) == Get(t.placements, v) {
      assert Abs(s).placed[v] == Abs(t).placed[v];
    }
    PendingReadsListsOnly(s.manifests, s.placements, t.placements);
  }
}
