/**
 * The scheduler's correlated maps and its handlers as functions of the state
 * (`scheduler_actor.rs`, `cache.rs`, `discovery.rs`, `handlers.rs`).  They specify the methods
 * of `SchedulerActor`.  Whatever a handler does not decide by itself (clock reading, hash-map
 * order, outcome of a remote call, choice among equally good agents) is part of its step.
 */
module Scheduler {
  import opened Prelude
  import opened Membership
  import opened Policy
  import opened Placements

  datatype CachedAgent = CachedAgent(data: AgentStatus, revision: U64)

  datatype ActorKind = AgentKind | VmKind

  type Manifests = map<VmId, Manifest>
  type PlacementMap = map<VmId, seq<VmPlacement>>
  type ActorCache = map<VmId, seq<Option<ActorId>>>
  type VmIndex = map<ActorId, set<VmId>>

  datatype Sched = Sched(
    agents: map<ActorId, CachedAgent>,
    actorVms: map<ActorId, VmId>,
    manifests: Manifests,
    placements: PlacementMap,
    vmActors: ActorCache,
    pendingCache: Option<map<ActorId, Reservation>>,
    index: VmIndex,
    kinds: map<ActorId, ActorKind>)

  const EMPTY := Sched(map[], map[], map[], map[], map[], None, map[], map[])

  function Get(p: PlacementMap, v: VmId): seq<VmPlacement> {
    if v in p then p[v] else []
  }

  // ----- discovered actors -----

  function ActorsOf(c: ActorCache, v: VmId): seq<Option<ActorId>> {
    if v in c then c[v] else []
  }

  predicate SomeDiscovered(entries: seq<Option<ActorId>>) {
    exists i :: 0 <= i < |entries| && entries[i].Some?
  }

  predicate HasActor(c: ActorCache, v: VmId) {
    SomeDiscovered(ActorsOf(c, v))
  }

  function FirstPlaceholder(entries: seq<Option<ActorId>>): (i: nat)
    ensures i <= |entries|
    ensures i < |entries| ==> entries[i].None?
    ensures forall k :: 0 <= k < i ==> entries[k].Some?
  {
    if entries == [] || entries[0].None? then 0 else 1 + FirstPlaceholder(entries[1..])
  }

  /** A discovered actor keeps its entry, fulfils the first placeholder, or is appended. */
  function WithActor(entries: seq<Option<ActorId>>, actor: ActorId): seq<Option<ActorId>> {
    if Some(actor) in entries then entries else
      var i := FirstPlaceholder(entries);
      if i < |entries| then entries[i := Some(actor)] else entries + [Some(actor)]
  }

  function WithoutActor(entries: seq<Option<ActorId>>, actor: ActorId): seq<Option<ActorId>> {
    if entries == [] then []
    else if entries[0] == Some(actor) then WithoutActor(entries[1..], actor)
    else [entries[0]] + WithoutActor(entries[1..], actor)
  }

  function ActorForgotten(c: ActorCache, actor: ActorId): ActorCache {
    map v | v in c && WithoutActor(c[v], actor) != [] :: WithoutActor(c[v], actor)
  }

  // ----- pending resources -----

  ghost function VcpuReservations(m: Manifests, p: PlacementMap, a: ActorId): map<nat, nat> {
    map v | v in m :: ReservedOn(Get(p, v), a, m[v].vcpus)
  }

  ghost function RamReservations(m: Manifests, p: PlacementMap, a: ActorId): map<nat, nat> {
    map v | v in m :: ReservedOn(Get(p, v), a, m[v].memory)
  }

  /** The exact resources that pending placements reserve on an agent. */
  ghost function ExactReservation(m: Manifests, p: PlacementMap, a: ActorId): Reservation {
    Reservation(Total(VcpuReservations(m, p, a)), Total(RamReservations(m, p, a)))
  }

  ghost function AgentsWithPending(m: Manifests, p: PlacementMap): set<ActorId> {
    set v, e | v in m && e in Get(p, v) && e.lifecycle.Pending? :: e.agent
  }

  /** Saturated totals for every agent that holds a reservation. */
  ghost function PendingByAgent(m: Manifests, p: PlacementMap): map<ActorId, Reservation> {
    map a | a in AgentsWithPending(m, p) :: Saturated(ExactReservation(m, p, a))
  }

  /** The cached totals are absent or equal to a fresh computation. */
  ghost predicate Coherent(s: Sched) {
    s.pendingCache.Some? ==> s.pendingCache.value == PendingByAgent(s.manifests, s.placements)
  }

  ghost function FilledCache(s: Sched): Option<map<ActorId, Reservation>> {
    if s.pendingCache.Some? then s.pendingCache else Some(PendingByAgent(s.manifests, s.placements))
  }

  ghost function CacheFilled(s: Sched): Sched {
    s.(pendingCache := FilledCache(s))
  }

  // ----- choosing an agent -----

  predicate MayHost(s: Sched, a: ActorId, v: VmId)
    requires a in s.agents
  {
    || v in s.agents[a].data.vms
    || (a in s.index && v in s.index[a])
    || PlacedOn(Get(s.placements, v), a)
  }

  /** Metadata of the known VMs that could be on the agent. */
  function VmObjects(s: Sched, a: ActorId): set<Metadata>
    requires a in s.agents
  {
    set v | v in s.manifests && MayHost(s, a, v) :: s.manifests[v].metadata
  }

  ghost function ReservedFor(s: Sched, a: ActorId): Reservation {
    Saturated(ExactReservation(s.manifests, s.placements, a))
  }

  ghost predicate EligibleFor(parse: NumberParser, s: Sched, m: Manifest, a: ActorId) {
    a in s.agents && Eligible(parse, m, s.agents[a].data, ReservedFor(s, a), VmObjects(s, a))
  }

  ghost function ScoreFor(parse: NumberParser, s: Sched, m: Manifest, a: ActorId): AgentScore
    requires a in s.agents
  {
    ScoreOf(parse, m, s.agents[a].data, ReservedFor(s, a), VmObjects(s, a))
  }

  ghost predicate RankableFor(parse: NumberParser, s: Sched, m: Manifest, a: ActorId) {
    a in s.agents && Rankable(parse, m, s.agents[a].data, ReservedFor(s, a), VmObjects(s, a))
  }

  /**
   * An outcome that `schedule_agent` may have: a rankable agent that no cached agent beats, or
   * none when no agent is rankable.  For a proper request rankable means eligible.
   */
  ghost predicate Best(parse: NumberParser, s: Sched, m: Manifest, target: Option<ActorId>) {
    match target
    case None => forall b :: b in s.agents ==> !RankableFor(parse, s, m, b)
    case Some(a) =>
      && RankableFor(parse, s, m, a)
      && forall b :: b in s.agents ==> !Beats(ScoreFor(parse, s, m, b), ScoreFor(parse, s, m, a))
  }

  // ----- creating and removing VMs -----

  datatype CreateOutcome = Replied(actor: Option<ActorId>) | Failed(actorExists: bool)

  /** Reserves a placement with its unresolved actor placeholder. */
  function WithReservation(s: Sched, vmid: VmId, target: ActorId, now: nat): Sched {
    s.(placements := s.placements[vmid := Get(s.placements, vmid) + [Reserved(target, now)]],
       vmActors := s.vmActors[vmid := ActorsOf(s.vmActors, vmid) + [None]],
       pendingCache := None)
  }

  function StateRemoved(s: Sched, vmid: VmId): Sched {
    s.(manifests := s.manifests - {vmid}, placements := s.placements - {vmid}, vmActors := s.vmActors - {vmid})
  }

  function RolledBack(s: Sched, vmid: VmId, actorExists: bool, actor: Option<ActorId>): Sched {
    if actorExists then s else
      var mapped := actor.Some? && actor.value in s.actorVms && s.actorVms[actor.value] == vmid;
      StateRemoved(s, vmid).(actorVms := if mapped then s.actorVms - {actor.value} else s.actorVms)
  }

  function CreateSettled(s: Sched, vmid: VmId, outcome: CreateOutcome): Sched {
    match outcome
    case Replied(None) => s
    case Replied(Some(actor)) => s.(actorVms := s.actorVms[actor := vmid])
    case Failed(actorExists) => RolledBack(s, vmid, actorExists, None)
  }

  ghost function Created(
    s: Sched, vmid: VmId, config: Manifest, target: Option<ActorId>, outcome: CreateOutcome, now: nat): Sched
  {
    if vmid in s.manifests then s
    else if target.None? then CacheFilled(s)
    else
      CreateSettled(
        WithReservation(s.(manifests := s.manifests[vmid := config]), vmid, target.value, now), vmid, outcome)
  }

  function WithoutVm(actorVms: map<ActorId, VmId>, vmid: VmId): map<ActorId, VmId> {
    map a | a in actorVms && actorVms[a] != vmid :: actorVms[a]
  }

  /** A delete or shutdown that reached the VM removes every trace of intent. */
  function IntentRemoved(s: Sched, vmid: VmId): Sched {
    StateRemoved(s, vmid).(
      actorVms := WithoutVm(s.actorVms, vmid),
      index := map a | a in s.index :: s.index[a] - {vmid},
      pendingCache := None)
  }

  // ----- cleanup of departed actors -----

  /** Observed VMs that are still reachable through a discovered actor. */
  function StillReachable(seen: set<VmId>, c: ActorCache): set<VmId> {
    set v | v in seen && HasActor(c, v)
  }

  function AgentCleaned(s: Sched, a: ActorId): Sched {
    var seen := if a in s.index then s.index[a] else {};
    s.(agents := s.agents - {a},
       index := s.index - {a},
       pendingCache := None,
       placements := map v | v in s.placements ::
         DepartedEntries(s.placements[v], a, v in StillReachable(seen, s.vmActors)))
  }

  function AgentsSeeing(index: VmIndex, v: VmId): set<ActorId> {
    set a | a in index && v in index[a]
  }

  function ActorDropped(s: Sched, actor: ActorId): Sched {
    s.(actorVms := s.actorVms - {actor}, pendingCache := None, vmActors := ActorForgotten(s.vmActors, actor))
  }

  function VmCleaned(s: Sched, actor: ActorId): Sched {
    var t := ActorDropped(s, actor);
    if actor !in s.actorVms then t else
      var v := s.actorVms[actor];
      if HasActor(t.vmActors, v) || v !in t.placements then t
      else t.(placements := t.placements[v := Retain(t.placements[v], IfPendingOrOn(AgentsSeeing(s.index, v)))])
  }

  function LinkLost(s: Sched, id: ActorId): Sched {
    if id !in s.kinds then s else
      var t := s.(kinds := s.kinds - {id});
      if s.kinds[id].AgentKind? then AgentCleaned(t, id) else VmCleaned(t, id)
  }

  // ----- status and discovery -----

  function DeltaReconciled(
    m: Manifests, p: PlacementMap, a: ActorId, added: set<VmId>, removed: set<VmId>, now: nat): PlacementMap
  {
    map v | v in p.Keys + added * m.Keys :: DeltaEntries(Get(p, v), a, v in added && v in m, v in removed, now)
  }

  function SnapshotReconciled(
    m: Manifests, p: PlacementMap, a: ActorId, reported: set<VmId>, now: nat): PlacementMap
  {
    map v | v in p.Keys + reported * m.Keys && SnapshotEntries(Get(p, v), a, v in reported, v in m, now) != []
      :: SnapshotEntries(Get(p, v), a, v in reported, v in m, now)
  }

  function SnapshotAccepted(s: Sched, a: ActorId, revision: U64, status: AgentStatus, now: nat): Sched {
    s.(agents := s.agents[a := CachedAgent(status, revision)],
       index := s.index[a := Elems(status.vms)],
       placements := SnapshotReconciled(s.manifests, s.placements, a, Elems(status.vms), now),
       pendingCache := None)
  }

  function DeltaAccepted(s: Sched, a: ActorId, update: StatusUpdate, now: nat): Sched
    requires a in s.agents && update.Delta?
  {
    var added, removed := Elems(update.added), Elems(update.removed);
    var seen := if a in s.index then s.index[a] else {};
    s.(agents := s.agents[a := CachedAgent(Applied(s.agents[a].data, update), update.revision)],
       index := s.index[a := (seen + added) - removed],
       placements := DeltaReconciled(s.manifests, s.placements, a, added, removed, now),
       pendingCache := None)
  }

  /** The first accepted update is a snapshot; later ones must be newer. */
  function StatusArrived(s: Sched, a: ActorId, update: StatusUpdate, now: nat): Sched {
    if a !in s.agents then
      (if update.Full? then SnapshotAccepted(s, a, update.revision, update.status, now) else s)
    else if update.revision <= s.agents[a].revision then s
    else if update.Full? then SnapshotAccepted(s, a, update.revision, update.status, now)
    else DeltaAccepted(s, a, update, now)
  }

  /** A VM actor reported its identity; `order` lists the agents whose index names the VM. */
  function VmReported(
    s: Sched, actor: ActorId, vmid: VmId, config: Option<Manifest>, order: seq<ActorId>, now: nat): Sched
  {
    var t := s.(
      actorVms := s.actorVms[actor := vmid],
      vmActors := s.vmActors[vmid := WithActor(ActorsOf(s.vmActors, vmid), actor)]);
    if config.None? then t else
      t.(manifests := s.manifests[vmid := config.value],
         placements := if order == [] then s.placements
                       else s.placements[vmid := ConfirmAcross(Get(s.placements, vmid), order, now)],
         pendingCache := None)
  }

  // ----- periodic reconciliation -----

  function Expired(s: Sched, now: nat): Sched {
    s.(placements := map v | v in s.placements :: ExpiredEntries(Get(s.placements, v), HasActor(s.vmActors, v), now),
       vmActors := map v | v in s.vmActors
         && !(v in s.placements && ExpiredEntries(Get(s.placements, v), HasActor(s.vmActors, v), now) == [] && !HasActor(s.vmActors, v)) :: s.vmActors[v],
       pendingCache := None)
  }

  function Unplaced(s: Sched): set<VmId> {
    set v | v in s.manifests && Get(s.placements, v) == []
  }

  datatype Dispatch = Dispatch(vmid: VmId, target: Option<ActorId>, sent: bool)

  /** One re-create attempt: reserve, send, and undo the reservation when sending fails. */
  ghost function Dispatched(s: Sched, d: Dispatch, now: nat): Sched {
    DispatchedWith(s, d, FilledCache(s), now)
  }

  /** The attempt with `cache` for the totals that choosing the target left behind. */
  function DispatchedWith(s: Sched, d: Dispatch, cache: Option<map<ActorId, Reservation>>, now: nat): Sched {
    if d.target.None? then s.(pendingCache := cache)
    else if d.sent then WithReservation(s, d.vmid, d.target.value, now)
    else s.(pendingCache := cache, placements := s.placements[d.vmid := []], vmActors := s.vmActors - {d.vmid})
  }

  ghost function DispatchedAll(s: Sched, ds: seq<Dispatch>, now: nat): Sched
    decreases |ds|
  {
    if ds == [] then s else DispatchedAll(Dispatched(s, ds[0], now), ds[1..], now)
  }

  /** Every listed VM is unplaced when its turn comes, and its target is a possible choice. */
  ghost predicate Dispatchable(parse: NumberParser, s: Sched, ds: seq<Dispatch>, now: nat)
    decreases |ds|
  {
    ds == [] ||
    (&& ds[0].vmid in Unplaced(s)
     && Best(parse, s, s.manifests[ds[0].vmid], ds[0].target)
     && Dispatchable(parse, Dispatched(s, ds[0], now), ds[1..], now))
  }

  function DispatchIds(ds: seq<Dispatch>): seq<VmId> {
    seq(|ds|, i requires 0 <= i < |ds| => ds[i].vmid)
  }

  // ----- steps and runs -----

  datatype Step =
    | AgentDiscovered(id: ActorId)
    | VmDiscovered(id: ActorId)
    | VmUpdated(id: ActorId, vmid: VmId, config: Option<Manifest>, order: seq<ActorId>, now: nat)
    | VmUpdaterStopped(id: ActorId)
    | AgentUpdated(id: ActorId, update: StatusUpdate, now: nat)
    | AgentUpdaterStopped(id: ActorId)
    | LinkDied(id: ActorId)
    | CreateVm(vmid: VmId, manifest: Manifest, target: Option<ActorId>, outcome: CreateOutcome, now: nat)
    | StopVm(vmid: VmId, reached: bool)
    | ReconcileVmPlacements(dispatches: seq<Dispatch>, now: nat)

  /** Which steps the environment and the handler's own choices allow in a state. */
  ghost predicate Enabled(parse: NumberParser, s: Sched, step: Step) {
    match step
    case VmUpdated(_, vmid, config, order, _) =>
      config.Some? ==> NoDuplicates(order) && Elems(order) == AgentsSeeing(s.index, vmid)
    case AgentUpdated(_, update, _) => update.Full? ==> StrictlySorted(update.status.vms)
    case CreateVm(vmid, manifest, target, _, _) =>
      vmid !in s.manifests ==> Best(parse, s, manifest, target)
    case ReconcileVmPlacements(dispatches, now) =>
      && NoDuplicates(DispatchIds(dispatches))
      && Elems(DispatchIds(dispatches)) == Unplaced(Expired(s, now))
      && Dispatchable(parse, Expired(s, now), dispatches, now)
    case _ => true
  }

  ghost function Next(s: Sched, step: Step): Sched {
    match step
    case AgentDiscovered(id) => s.(kinds := s.kinds[id := AgentKind])
    case VmDiscovered(id) => s.(kinds := s.kinds[id := VmKind])
    case VmUpdated(id, vmid, config, order, now) => VmReported(s, id, vmid, config, order, now)
    case VmUpdaterStopped(id) => VmCleaned(s.(kinds := s.kinds - {id}), id)
    case AgentUpdated(id, update, now) => StatusArrived(s, id, update, now)
    case AgentUpdaterStopped(id) => AgentCleaned(s.(kinds := s.kinds - {id}), id)
    case LinkDied(id) => LinkLost(s, id)
    case CreateVm(vmid, manifest, target, outcome, now) => Created(s, vmid, manifest, target, outcome, now)
    case StopVm(vmid, reached) => if reached then IntentRemoved(s, vmid) else s
    case ReconcileVmPlacements(dispatches, now) => DispatchedAll(Expired(s, now), dispatches, now)
  }

  ghost predicate Runs(parse: NumberParser, s: Sched, steps: seq<Step>)
    decreases |steps|
  {
    steps == [] || (Enabled(parse, s, steps[0]) && Runs(parse, Next(s, steps[0]), steps[1..]))
  }

  ghost function After(s: Sched, steps: seq<Step>): Sched
    decreases |steps|
  {
    if steps == [] then s else After(Next(s, steps[0]), steps[1..])
  }
}
