/** What every scheduler step keeps, and what therefore holds over whole runs. */
module SchedulerInvariants {
  import opened Prelude
  import opened Membership
  import opened Policy
  import opened Placements
  import opened Scheduler

  /** Every placement list belongs to a known VM and is well formed. */
  ghost predicate PlacementsSound(s: Sched) {
    && s.placements.Keys <= s.manifests.Keys
    && forall v :: v in s.placements ==> WellPlaced(s.placements[v])
  }

  /** The index covers the cached agents and never claims more than their listings. */
  ghost predicate IndexSound(s: Sched) {
    && s.index.Keys == s.agents.Keys
    && forall a :: a in s.agents ==>
         StrictlySorted(s.agents[a].data.vms) && s.index[a] <= Elems(s.agents[a].data.vms)
  }

  ghost predicate Inv(s: Sched) {
    PlacementsSound(s) && IndexSound(s) && Coherent(s)
  }

  // ----- each handler -----

  lemma ReservationKeepsInv(s: Sched, vmid: VmId, target: ActorId, now: nat)
    requires Inv(s.(pendingCache := None)) && vmid in s.manifests && Get(s.placements, vmid) == []
    ensures Inv(WithReservation(s, vmid, target, now))
  {
  }

  lemma SettlingKeepsInv(s: Sched, vmid: VmId, outcome: CreateOutcome)
    requires Inv(s) && s.pendingCache.None?
    ensures Inv(CreateSettled(s, vmid, outcome))
  {
  }

  lemma CreateKeepsInv(s: Sched, vmid: VmId, config: Manifest, target: Option<ActorId>, outcome: CreateOutcome, now: nat)
    requires Inv(s)
    ensures Inv(Created(s, vmid, config, target, outcome, now))
  {
    if vmid !in s.manifests && target.Some? {
      var named := s.(manifests := s.manifests[vmid := config]);
      ReservationKeepsInv(named, vmid, target.value, now);
      SettlingKeepsInv(WithReservation(named, vmid, target.value, now), vmid, outcome);
    }
  }

  lemma IntentRemovalKeepsInv(s: Sched, vmid: VmId)
    requires Inv(s)
    ensures Inv(IntentRemoved(s, vmid))
  {
  }

  lemma AgentCleanupKeepsInv(s: Sched, a: ActorId)
    requires Inv(s)
    ensures Inv(AgentCleaned(s, a))
  {
    var t := AgentCleaned(s, a);
    forall v | v in t.placements ensures WellPlaced(t.placements[v]) {
      RetainWellPlaced(s.placements[v], UnlessOn(a));
    }
  }

  lemma VmCleanupKeepsInv(s: Sched, actor: ActorId)
    requires Inv(s)
    ensures Inv(VmCleaned(s, actor))
  {
    if actor in s.actorVms && s.actorVms[actor] in s.placements {
      var v := s.actorVms[actor];
      RetainWellPlaced(s.placements[v], IfPendingOrOn(AgentsSeeing(s.index, v)));
    }
  }

  /** The maps of a snapshot and of a delta, list by list. */
  lemma SnapshotList(m: Manifests, p: PlacementMap, a: ActorId, reported: set<VmId>, now: nat, v: VmId)
    ensures Get(SnapshotReconciled(m, p, a, reported, now), v) == SnapshotEntries(Get(p, v), a, v in reported, v in m, now)
  {
  }

  lemma DeltaList(m: Manifests, p: PlacementMap, a: ActorId, added: set<VmId>, removed: set<VmId>, now: nat, v: VmId)
    ensures Get(DeltaReconciled(m, p, a, added, removed, now), v)
         == DeltaEntries(Get(p, v), a, v in added && v in m, v in removed, now)
  {
  }

  lemma SnapshotKeepsInv(s: Sched, a: ActorId, revision: U64, status: AgentStatus, now: nat)
    requires Inv(s) && StrictlySorted(status.vms)
    ensures Inv(SnapshotAccepted(s, a, revision, status, now))
  {
    var t := SnapshotAccepted(s, a, revision, status, now);
    forall v | v in t.placements ensures v in s.manifests && WellPlaced(t.placements[v]) {
      RetainWellPlaced(Get(s.placements, v), UnlessStaleOn(a, now));
      SnapshotWellPlaced(Get(s.placements, v), a, now);
    }
  }

  lemma DeltaKeepsInv(s: Sched, a: ActorId, update: StatusUpdate, now: nat)
    requires Inv(s) && a in s.agents && update.Delta?
    ensures Inv(DeltaAccepted(s, a, update, now))
  {
    var t := DeltaAccepted(s, a, update, now);
    forall v | v in t.placements ensures v in s.manifests && WellPlaced(t.placements[v]) {
      var entries := Get(s.placements, v);
      ConfirmFirstWellPlaced(entries, a, now);
      RetainWellPlaced(entries, UnlessRunningOn(a));
      RetainWellPlaced(ConfirmFirst(entries, a, now), UnlessRunningOn(a));
    }
  }

  lemma StatusKeepsInv(s: Sched, a: ActorId, update: StatusUpdate, now: nat)
    requires Inv(s) && (update.Full? ==> StrictlySorted(update.status.vms))
    ensures Inv(StatusArrived(s, a, update, now))
  {
    if update.Full? {
      SnapshotKeepsInv(s, a, update.revision, update.status, now);
    } else if a in s.agents {
      DeltaKeepsInv(s, a, update, now);
    }
  }

  lemma LinkLossKeepsInv(s: Sched, id: ActorId)
    requires Inv(s)
    ensures Inv(LinkLost(s, id))
  {
    AgentCleanupKeepsInv(s.(kinds := s.kinds - {id}), id);
    VmCleanupKeepsInv(s.(kinds := s.kinds - {id}), id);
  }

  lemma VmReportKeepsInv(s: Sched, actor: ActorId, vmid: VmId, config: Option<Manifest>, order: seq<ActorId>, now: nat)
    requires Inv(s)
    ensures Inv(VmReported(s, actor, vmid, config, order, now))
  {
    ConfirmAcrossWellPlaced(Get(s.placements, vmid), order, now);
  }

  lemma ExpiryKeepsInv(s: Sched, now: nat)
    requires Inv(s)
    ensures Inv(Expired(s, now))
  {
    forall v | v in s.placements ensures WellPlaced(ExpiredEntries(Get(s.placements, v), HasActor(s.vmActors, v), now)) {
      RetainWellPlaced(s.placements[v], UnlessPendingExpired(now));
    }
  }

  lemma ReservationReadsListsOnly(m: Manifests, p: PlacementMap, q: PlacementMap, a: ActorId)
    requires forall v :: v in m ==> Get(p, v) == Get(q, v)
    ensures ExactReservation(m, p, a) == ExactReservation(m, q, a)
  {
    assert VcpuReservations(m, p, a) == VcpuReservations(m, q, a);
    assert RamReservations(m, p, a) == RamReservations(m, q, a);
  }

  lemma PendingAgentsReadListsOnly(m: Manifests, p: PlacementMap, q: PlacementMap)
    requires forall v :: v in m ==> Get(p, v) == Get(q, v)
    ensures AgentsWithPending(m, p) <= AgentsWithPending(m, q)
  {
    forall a | a in AgentsWithPending(m, p) ensures a in AgentsWithPending(m, q) {
      var v, e :| v in m && e in Get(p, v) && e.lifecycle.Pending? && e.agent == a;
      assert e in Get(q, v);
    }
  }

  /** An empty placement list reserves as much as no list: nothing. */
  lemma PendingReadsListsOnly(m: Manifests, p: PlacementMap, q: PlacementMap)
    requires forall v :: v in m ==> Get(p, v) == Get(q, v)
    ensures PendingByAgent(m, p) == PendingByAgent(m, q)
  {
    PendingAgentsReadListsOnly(m, p, q);
    PendingAgentsReadListsOnly(m, q, p);
    forall a ensures ExactReservation(m, p, a) == ExactReservation(m, q, a) {
      ReservationReadsListsOnly(m, p, q, a);
    }
  }

  /** States that agree on what scheduling reads. */
  ghost predicate SchedulesAlike(s: Sched, t: Sched) {
    && s.agents == t.agents && s.manifests == t.manifests && s.index == t.index
    && forall v :: v in s.manifests ==> Get(s.placements, v) == Get(t.placements, v)
  }

  lemma EligibilityReadsListsOnly(parse: NumberParser, s: Sched, t: Sched, m: Manifest, a: ActorId)
    requires SchedulesAlike(s, t) && a in s.agents
    ensures ReservedFor(s, a) == ReservedFor(t, a) && VmObjects(s, a) == VmObjects(t, a)
    ensures EligibleFor(parse, s, m, a) <==> EligibleFor(parse, t, m, a)
    ensures RankableFor(parse, s, m, a) <==> RankableFor(parse, t, m, a)
    ensures ScoreFor(parse, s, m, a) == ScoreFor(parse, t, m, a)
  {
    ReservationReadsListsOnly(s.manifests, s.placements, t.placements, a);
    assert forall v :: v in s.manifests ==> (MayHost(s, a, v) <==> MayHost(t, a, v));
    assert VmObjects(s, a) == VmObjects(t, a);
  }

  lemma ChoiceReadsListsOnly(parse: NumberParser, s: Sched, t: Sched, m: Manifest, target: Option<ActorId>)
    requires SchedulesAlike(s, t) && Best(parse, s, m, target)
    ensures Best(parse, t, m, target)
  {
    forall b | b in s.agents
      ensures RankableFor(parse, s, m, b) <==> RankableFor(parse, t, m, b)
      ensures ScoreFor(parse, s, m, b) == ScoreFor(parse, t, m, b)
    {
      EligibilityReadsListsOnly(parse, s, t, m, b);
    }
  }

  /** The failed re-dispatch rewrites placements under a filled cache, which stays exact. */
  lemma DispatchKeepsInv(s: Sched, d: Dispatch, now: nat)
    requires Inv(s) && d.vmid in Unplaced(s)
    ensures Inv(Dispatched(s, d, now))
  {
    if d.target.Some? && d.sent {
      ReservationKeepsInv(s, d.vmid, d.target.value, now);
    } else if d.target.Some? {
      PendingReadsListsOnly(s.manifests, s.placements, s.placements[d.vmid := []]);
    }
  }

  lemma {:induction false} DispatchAllKeepsInv(parse: NumberParser, s: Sched, ds: seq<Dispatch>, now: nat)
    requires Inv(s) && Dispatchable(parse, s, ds, now)
    ensures Inv(DispatchedAll(s, ds, now))
    decreases |ds|
  {
    if ds != [] {
      DispatchKeepsInv(s, ds[0], now);
      DispatchAllKeepsInv(parse, Dispatched(s, ds[0], now), ds[1..], now);
    }
  }

  lemma StepKeepsInv(parse: NumberParser, s: Sched, step: Step)
    requires Inv(s) && Enabled(parse, s, step)
    ensures Inv(Next(s, step))
  {
    match step
    case AgentDiscovered(_) =>
    case VmDiscovered(_) =>
    case VmUpdated(id, vmid, config, order, now) => VmReportKeepsInv(s, id, vmid, config, order, now);
    case VmUpdaterStopped(id) => VmCleanupKeepsInv(s.(kinds := s.kinds - {id}), id);
    case AgentUpdated(id, update, now) => StatusKeepsInv(s, id, update, now);
    case AgentUpdaterStopped(id) => AgentCleanupKeepsInv(s.(kinds := s.kinds - {id}), id);
    case LinkDied(id) => LinkLossKeepsInv(s, id);
    case CreateVm(vmid, manifest, target, outcome, now) => CreateKeepsInv(s, vmid, manifest, target, outcome, now);
    case StopVm(vmid, _) => IntentRemovalKeepsInv(s, vmid);
    case ReconcileVmPlacements(dispatches, now) =>
      ExpiryKeepsInv(s, now);
      DispatchAllKeepsInv(parse, Expired(s, now), dispatches, now);
  }

  /** The invariant holds in every reachable state of the scheduler. */
  lemma {:induction false} InvOverRuns(parse: NumberParser, s: Sched, steps: seq<Step>)
    requires Inv(s) && Runs(parse, s, steps)
    ensures Inv(After(s, steps))
    decreases |steps|
  {
    if steps != [] {
      StepKeepsInv(parse, s, steps[0]);
      InvOverRuns(parse, Next(s, steps[0]), steps[1..]);
    }
  }
}
