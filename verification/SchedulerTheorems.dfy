/** Reservation, observation, no-resurrection and rollback theorems over scheduler runs. */
module SchedulerTheorems {
  import opened Prelude
  import opened Membership
  import opened Policy
  import opened Placements
  import opened Scheduler
  import opened SchedulerInvariants

  // ----- unique reservation -----

  lemma {:induction false} WellPlacedReservesOnce(entries: seq<VmPlacement>, a: ActorId, b: ActorId, amount: nat)
    requires WellPlaced(entries)
    ensures ReservedOn(entries, a, amount) == 0 || ReservedOn(entries, a, amount) == amount
    ensures a != b ==> ReservedOn(entries, a, amount) == 0 || ReservedOn(entries, b, amount) == 0
  {
    if entries != [] {
      WellPlacedReservesOnce(entries[1..], a, b, amount);
      if entries[0].lifecycle.Pending? {
        assert forall e :: e in entries[1..] ==> !e.lifecycle.Pending?;
        NoPendingNoReservation(entries[1..], a, amount);
        NoPendingNoReservation(entries[1..], b, amount);
      }
    }
  }

  /**
   * In every reachable state a VM has at most one entry per agent and at most one reservation,
   * so its resources are reserved at most once and on at most one agent of the cluster.
   */
  lemma UniqueReservation(parse: NumberParser, steps: seq<Step>, v: VmId, a: ActorId, b: ActorId, amount: nat)
    requires Runs(parse, EMPTY, steps)
    ensures var entries := Get(After(EMPTY, steps).placements, v);
      && WellPlaced(entries)
      && (ReservedOn(entries, a, amount) == 0 || ReservedOn(entries, a, amount) == amount)
      && (a != b ==> ReservedOn(entries, a, amount) == 0 || ReservedOn(entries, b, amount) == 0)
  {
    InvOverRuns(parse, EMPTY, steps);
    WellPlacedReservesOnce(Get(After(EMPTY, steps).placements, v), a, b, amount);
  }

  // ----- observation implies placement -----

  /** Every known VM that an agent's index names runs on that agent. */
  ghost predicate ObservedIsPlaced(s: Sched) {
    forall a, v :: a in s.index && v in s.index[a] && v in s.manifests ==> RunsOn(Get(s.placements, v), a)
  }

  lemma DeltaKeepsRunning(entries: seq<VmPlacement>, a: ActorId, confirm: bool, remove: bool, now: nat, b: ActorId)
    requires if b == a then !remove && (confirm || RunsOn(entries, a)) else RunsOn(entries, b)
    ensures RunsOn(DeltaEntries(entries, a, confirm, remove, now), b)
  {
    ConfirmFirstMembers(entries, a, now);
    var confirmed := if confirm then ConfirmFirst(entries, a, now) else entries;
    if b != a {
      var e :| e in entries && e.agent == b && e.lifecycle.Running?;
      assert e in confirmed;
    }
    if remove {
      RetainKeepsRunning(confirmed, UnlessRunningOn(a), b);
    }
  }

  lemma DeltaKeepsObservation(s: Sched, a: ActorId, update: StatusUpdate, now: nat)
    requires Inv(s) && ObservedIsPlaced(s) && a in s.agents && update.Delta?
    ensures ObservedIsPlaced(DeltaAccepted(s, a, update, now))
  {
    var t := DeltaAccepted(s, a, update, now);
    var added, removed := Elems(update.added), Elems(update.removed);
    forall b, v | b in t.index && v in t.index[b] && v in t.manifests ensures RunsOn(Get(t.placements, v), b) {
      assert b == a ==> v !in removed && (v in added || v in s.index[a]);
      DeltaKeepsRunning(Get(s.placements, v), a, v in added && v in s.manifests, v in removed, now, b);
      DeltaList(s.manifests, s.placements, a, added, removed, now, v);
    }
  }

  lemma SnapshotKeepsOtherRunning(entries: seq<VmPlacement>, a: ActorId, reported: bool, known: bool, now: nat, b: ActorId)
    requires RunsOn(entries, b) && b != a
    ensures RunsOn(SnapshotEntries(entries, a, reported, known, now), b)
  {
    if reported {
      var after := SnapshotEntries(entries, a, reported, known, now);
      var e :| e in entries && e.agent == b && e.lifecycle.Running?;
      var i :| 0 <= i < |entries| && entries[i] == e;
      assert WithPlacement(entries, a, now)[i] == e;
      assert after[i] == e;
    } else {
      RetainKeepsRunning(entries, UnlessStaleOn(a, now), b);
    }
  }

  lemma SnapshotKeepsObservation(s: Sched, a: ActorId, revision: U64, status: AgentStatus, now: nat)
    requires Inv(s) && ObservedIsPlaced(s)
    ensures ObservedIsPlaced(SnapshotAccepted(s, a, revision, status, now))
  {
    var t := SnapshotAccepted(s, a, revision, status, now);
    var reported := Elems(status.vms);
    forall b, v | b in t.index && v in t.index[b] && v in t.manifests ensures RunsOn(Get(t.placements, v), b) {
      var entries := Get(s.placements, v);
      if b == a {
        SnapshotRuns(entries, a, now);
      } else {
        SnapshotKeepsOtherRunning(entries, a, v in reported, v in s.manifests, now, b);
      }
      assert RunsOn(SnapshotEntries(entries, a, v in reported, v in s.manifests, now), b);
    }
  }

  lemma ExpiryKeepsObservation(s: Sched, now: nat)
    requires ObservedIsPlaced(s)
    ensures ObservedIsPlaced(Expired(s, now))
  {
    var t := Expired(s, now);
    forall a, v | a in t.index && v in t.index[a] && v in t.manifests ensures RunsOn(Get(t.placements, v), a) {
      RetainKeepsRunning(Get(s.placements, v), UnlessPendingExpired(now), a);
    }
  }

  lemma AgentCleanupKeepsObservation(s: Sched, a: ActorId)
    requires ObservedIsPlaced(s)
    ensures ObservedIsPlaced(AgentCleaned(s, a))
  {
    var t := AgentCleaned(s, a);
    forall b, v | b in t.index && v in t.index[b] && v in t.manifests ensures RunsOn(Get(t.placements, v), b) {
      assert RunsOn(Get(s.placements, v), b);
      RetainKeepsRunning(Get(s.placements, v), UnlessOn(a), b);
    }
  }

  lemma VmCleanupKeepsObservation(s: Sched, actor: ActorId)
    requires ObservedIsPlaced(s)
    ensures ObservedIsPlaced(VmCleaned(s, actor))
  {
    var t := VmCleaned(s, actor);
    forall a, v | a in t.index && v in t.index[a] && v in t.manifests ensures RunsOn(Get(t.placements, v), a) {
      assert RunsOn(Get(s.placements, v), a);
      assert a in AgentsSeeing(s.index, v);
      RetainKeepsRunning(Get(s.placements, v), IfPendingOrOn(AgentsSeeing(s.index, v)), a);
    }
  }

  lemma VmReportKeepsObservation(
    s: Sched, actor: ActorId, vmid: VmId, config: Option<Manifest>, order: seq<ActorId>, now: nat)
    requires ObservedIsPlaced(s)
    requires config.Some? ==> Elems(order) == AgentsSeeing(s.index, vmid)
    ensures ObservedIsPlaced(VmReported(s, actor, vmid, config, order, now))
  {
    var t := VmReported(s, actor, vmid, config, order, now);
    ConfirmAcrossMembers(Get(s.placements, vmid), order, now);
    forall a, v | a in t.index && v in t.index[a] && v in t.manifests ensures RunsOn(Get(t.placements, v), a) {
      if v == vmid && config.Some? {
        assert a in Elems(order);
      }
    }
  }

  /** An attempt leaves the other VMs alone, and its own list empty unless it is sent. */
  ghost predicate OneListChanged(p: PlacementMap, q: PlacementMap, d: Dispatch) {
    && (forall v :: v != d.vmid ==> Get(q, v) == Get(p, v))
    && (d.target.None? || !d.sent ==> Get(q, d.vmid) == [])
  }

  lemma PutChangesOneList(p: PlacementMap, d: Dispatch, entries: seq<VmPlacement>)
    requires Get(p, d.vmid) == [] && (d.target.None? || !d.sent ==> entries == [])
    ensures OneListChanged(p, p[d.vmid := entries], d)
    ensures d.target.None? || !d.sent ==> OneListChanged(p, p, d)
  {
  }

  lemma DispatchWithTouchesOneList(s: Sched, d: Dispatch, cache: Option<map<ActorId, Reservation>>, now: nat)
    requires Get(s.placements, d.vmid) == []
    ensures var t := DispatchedWith(s, d, cache, now);
      && t.agents == s.agents && t.index == s.index && t.manifests == s.manifests
      && OneListChanged(s.placements, t.placements, d)
  {
    PutChangesOneList(s.placements, d, if d.target.Some? && d.sent then [] + [Reserved(d.target.value, now)] else []);
  }

  lemma DispatchTouchesOneList(s: Sched, d: Dispatch, now: nat)
    requires Get(s.placements, d.vmid) == []
    ensures var t := Dispatched(s, d, now);
      && t.agents == s.agents && t.index == s.index && t.manifests == s.manifests
      && OneListChanged(s.placements, t.placements, d)
  {
    DispatchWithTouchesOneList(s, d, FilledCache(s), now);
  }

  lemma UnplacedIsUnobserved(s: Sched, t: Sched, vmid: VmId)
    requires ObservedIsPlaced(s) && vmid in Unplaced(s)
    requires t.index == s.index && t.manifests == s.manifests
    requires forall v :: v != vmid ==> Get(t.placements, v) == Get(s.placements, v)
    ensures ObservedIsPlaced(t)
  {
    forall a, v | a in t.index && v in t.index[a] && v in t.manifests ensures RunsOn(Get(t.placements, v), a) {
      assert RunsOn(Get(s.placements, v), a);
      assert v != vmid;
    }
  }

  lemma OneDispatchKeepsObservation(s: Sched, d: Dispatch, now: nat)
    requires ObservedIsPlaced(s) && d.vmid in Unplaced(s)
    ensures ObservedIsPlaced(Dispatched(s, d, now))
  {
    DispatchTouchesOneList(s, d, now);
    UnplacedIsUnobserved(s, Dispatched(s, d, now), d.vmid);
  }

  lemma {:induction false} DispatchKeepsObservation(parse: NumberParser, s: Sched, ds: seq<Dispatch>, now: nat)
    requires ObservedIsPlaced(s) && Dispatchable(parse, s, ds, now)
    ensures ObservedIsPlaced(DispatchedAll(s, ds, now))
    decreases |ds|
  {
    if ds != [] {
      OneDispatchKeepsObservation(s, ds[0], now);
      DispatchKeepsObservation(parse, Dispatched(s, ds[0], now), ds[1..], now);
    }
  }

  /** A step other than a create that stays in force for an id which some agent already reports. */
  ghost predicate KeepsObservation(s: Sched, step: Step) {
    step.CreateVm? ==>
      || step.vmid in s.manifests
      || step.target.None?
      || step.outcome == Failed(false)
      || AgentsSeeing(s.index, step.vmid) == {}
  }

  lemma NewReservationObservation(s: Sched, t: Sched, vmid: VmId, target: ActorId, now: nat)
    requires ObservedIsPlaced(s) && vmid !in s.manifests
    requires t.index == s.index && t.manifests.Keys == s.manifests.Keys + {vmid}
    requires t.placements == s.placements[vmid := [Reserved(target, now)]]
    ensures ObservedIsPlaced(t) <==> AgentsSeeing(s.index, vmid) == {}
  {
    assert forall a :: !RunsOn(Get(t.placements, vmid), a);
    if AgentsSeeing(s.index, vmid) != {} {
      var a :| a in AgentsSeeing(s.index, vmid);
      assert a in t.index && vmid in t.index[a] && vmid in t.manifests;
    } else {
      forall a, v | a in t.index && v in t.index[a] && v in t.manifests ensures RunsOn(Get(t.placements, v), a) {
        assert a !in AgentsSeeing(s.index, vmid);
        assert Get(t.placements, v) == Get(s.placements, v);
      }
    }
  }

  /**
   * The exact condition on creates: a create that stays in force keeps observations placed if
   * and only if no agent's index already names the id.
   */
  lemma CreateKeepsObservation(
    s: Sched, vmid: VmId, config: Manifest, target: Option<ActorId>, outcome: CreateOutcome, now: nat)
    requires PlacementsSound(s) && ObservedIsPlaced(s) && vmid !in s.manifests
    ensures target.None? || outcome == Failed(false) ==>
      ObservedIsPlaced(Created(s, vmid, config, target, outcome, now))
    ensures target.Some? && outcome != Failed(false) ==>
      (ObservedIsPlaced(Created(s, vmid, config, target, outcome, now)) <==> AgentsSeeing(s.index, vmid) == {})
  {
    if target.Some? && outcome != Failed(false) {
      assert [] + [Reserved(target.value, now)] == [Reserved(target.value, now)];
      NewReservationObservation(s, Created(s, vmid, config, target, outcome, now), vmid, target.value, now);
    }
  }

  /** Only such a create breaks the observation property, and it always does. */
  lemma StepKeepsObservation(parse: NumberParser, s: Sched, step: Step)
    requires Inv(s) && ObservedIsPlaced(s) && Enabled(parse, s, step)
    ensures ObservedIsPlaced(Next(s, step)) <==> KeepsObservation(s, step)
  {
    match step
    case VmUpdated(id, vmid, config, order, now) => VmReportKeepsObservation(s, id, vmid, config, order, now);
    case VmUpdaterStopped(id) => VmCleanupKeepsObservation(s.(kinds := s.kinds - {id}), id);
    case AgentUpdated(id, update, now) =>
      if update.Full? {
        SnapshotKeepsObservation(s, id, update.revision, update.status, now);
      } else if id in s.agents {
        DeltaKeepsObservation(s, id, update, now);
      }
    case AgentUpdaterStopped(id) => AgentCleanupKeepsObservation(s.(kinds := s.kinds - {id}), id);
    case LinkDied(id) =>
      AgentCleanupKeepsObservation(s.(kinds := s.kinds - {id}), id);
      VmCleanupKeepsObservation(s.(kinds := s.kinds - {id}), id);
    case CreateVm(vmid, manifest, target, outcome, now) =>
      if vmid !in s.manifests {
        CreateKeepsObservation(s, vmid, manifest, target, outcome, now);
      }
    case ReconcileVmPlacements(dispatches, now) =>
      ExpiryKeepsObservation(s, now);
      DispatchKeepsObservation(parse, Expired(s, now), dispatches, now);
    case _ =>
  }

  ghost predicate AllKeepObservation(s: Sched, steps: seq<Step>)
    decreases |steps|
  {
    steps == [] || (KeepsObservation(s, steps[0]) && AllKeepObservation(Next(s, steps[0]), steps[1..]))
  }

  ghost predicate ObservedThroughout(s: Sched, steps: seq<Step>)
    decreases |steps|
  {
    ObservedIsPlaced(s) && (steps != [] ==> ObservedThroughout(Next(s, steps[0]), steps[1..]))
  }

  /** Observed VMs are placed in every state of a run if and only if no create of the run breaks it. */
  lemma {:induction false} ObservationOverRuns(parse: NumberParser, s: Sched, steps: seq<Step>)
    requires Inv(s) && ObservedIsPlaced(s) && Runs(parse, s, steps)
    ensures ObservedThroughout(s, steps) <==> AllKeepObservation(s, steps)
    ensures AllKeepObservation(s, steps) ==> ObservedIsPlaced(After(s, steps))
    decreases |steps|
  {
    if steps != [] {
      var t := Next(s, steps[0]);
      StepKeepsInv(parse, s, steps[0]);
      StepKeepsObservation(parse, s, steps[0]);
      if ObservedIsPlaced(t) {
        ObservationOverRuns(parse, t, steps[1..]);
      } else {
        assert !ObservedThroughout(t, steps[1..]);
      }
    }
  }

  /**
   * In every state reached by such a run, a known VM that an agent reports is not counted as
   * pending on that agent and is not re-dispatched, at whatever time reconciliation runs.
   */
  lemma ObservedIsNeitherPendingNorRedispatched(
    parse: NumberParser, steps: seq<Step>, a: ActorId, v: VmId, amount: nat, now: nat)
    requires Runs(parse, EMPTY, steps) && AllKeepObservation(EMPTY, steps)
    requires var s := After(EMPTY, steps); a in s.index && v in s.index[a] && v in s.manifests
    ensures ReservedOn(Get(After(EMPTY, steps).placements, v), a, amount) == 0
    ensures v !in Unplaced(Expired(After(EMPTY, steps), now))
  {
    InvOverRuns(parse, EMPTY, steps);
    ObservationOverRuns(parse, EMPTY, steps);
    var s := After(EMPTY, steps);
    var entries := Get(s.placements, v);
    assert RunsOn(entries, a);
    var e :| e in entries && e.agent == a && e.lifecycle.Running?;
    assert forall f :: f in entries && f.lifecycle.Pending? ==> f.agent != a;
    NoPendingNoReservation(entries, a, amount);
    ExpiryKeepsObservation(s, now);
    assert RunsOn(Get(Expired(s, now).placements, v), a);
  }

  // ----- no resurrection -----

  /** Steps that state intent for `v` again: a create, or a VM report that carries a manifest. */
  ghost predicate StatesIntent(step: Step, v: VmId) {
    || (step.CreateVm? && step.vmid == v)
    || (step.VmUpdated? && step.vmid == v && step.config.Some?)
  }

  lemma DispatchIdsHead(ds: seq<Dispatch>)
    requires ds != []
    ensures Elems(DispatchIds(ds)) == {ds[0].vmid} + Elems(DispatchIds(ds[1..]))
  {
    assert DispatchIds(ds) == [ds[0].vmid] + DispatchIds(ds[1..]);
  }

  lemma {:induction false} DispatchKeepsManifests(parse: NumberParser, s: Sched, ds: seq<Dispatch>, now: nat)
    requires Dispatchable(parse, s, ds, now)
    ensures DispatchedAll(s, ds, now).manifests == s.manifests
    ensures Elems(DispatchIds(ds)) <= s.manifests.Keys
    decreases |ds|
  {
    if ds != [] {
      DispatchTouchesOneList(s, ds[0], now);
      DispatchKeepsManifests(parse, Dispatched(s, ds[0], now), ds[1..], now);
      DispatchIdsHead(ds);
    }
  }

  lemma ReconcileCannotInventIntent(parse: NumberParser, s: Sched, ds: seq<Dispatch>, now: nat, v: VmId)
    requires v !in s.manifests && Dispatchable(parse, Expired(s, now), ds, now)
    ensures v !in DispatchedAll(Expired(s, now), ds, now).manifests
    ensures v !in DispatchIds(ds)
  {
    DispatchKeepsManifests(parse, Expired(s, now), ds, now);
    assert v !in Elems(DispatchIds(ds));
  }

  lemma CreateNamesOnlyItsVm(
    s: Sched, vmid: VmId, config: Manifest, target: Option<ActorId>, outcome: CreateOutcome, now: nat)
    ensures Created(s, vmid, config, target, outcome, now).manifests.Keys <= s.manifests.Keys + {vmid}
  {
  }

  lemma LossKeepsManifests(s: Sched, id: ActorId)
    ensures LinkLost(s, id).manifests == s.manifests
    ensures AgentCleaned(s.(kinds := s.kinds - {id}), id).manifests == s.manifests
    ensures VmCleaned(s.(kinds := s.kinds - {id}), id).manifests == s.manifests
  {
  }

  lemma StepCannotInventIntent(parse: NumberParser, s: Sched, step: Step, v: VmId)
    requires v !in s.manifests && !StatesIntent(step, v)
    requires step.ReconcileVmPlacements? ==> Dispatchable(parse, Expired(s, step.now), step.dispatches, step.now)
    ensures v !in Next(s, step).manifests
    ensures step.ReconcileVmPlacements? ==> v !in DispatchIds(step.dispatches)
  {
    match step
    case ReconcileVmPlacements(dispatches, now) => ReconcileCannotInventIntent(parse, s, dispatches, now, v);
    case CreateVm(vmid, manifest, target, outcome, now) => CreateNamesOnlyItsVm(s, vmid, manifest, target, outcome, now);
    case LinkDied(id) => LossKeepsManifests(s, id);
    case AgentUpdaterStopped(id) => LossKeepsManifests(s, id);
    case VmUpdaterStopped(id) => LossKeepsManifests(s, id);
    case _ =>
  }

  /**
   * Once a VM has no intent, no run without a new statement of intent gives it a manifest or a
   * placement again or dispatches it, whatever agents and VM actors report.
   */
  lemma {:induction false} NoResurrection(parse: NumberParser, s: Sched, steps: seq<Step>, v: VmId)
    requires Inv(s) && Runs(parse, s, steps) && v !in s.manifests
    requires forall i :: 0 <= i < |steps| ==> !StatesIntent(steps[i], v)
    ensures v !in After(s, steps).manifests && v !in After(s, steps).placements
    ensures forall i :: 0 <= i < |steps| && steps[i].ReconcileVmPlacements? ==> v !in DispatchIds(steps[i].dispatches)
    decreases |steps|
  {
    if steps != [] {
      assert !StatesIntent(steps[0], v);
      StepKeepsInv(parse, s, steps[0]);
      StepCannotInventIntent(parse, s, steps[0], v);
      NoResurrection(parse, Next(s, steps[0]), steps[1..], v);
      forall i | 0 <= i < |steps| && steps[i].ReconcileVmPlacements? ensures v !in DispatchIds(steps[i].dispatches) {
        assert i > 0 ==> steps[i] == steps[1..][i - 1];
      }
    }
  }

  /** A delete or shutdown that reached the VM puts it in that situation, from any reachable state. */
  lemma StoppedVmStaysGone(parse: NumberParser, before: seq<Step>, v: VmId, later: seq<Step>)
    requires Runs(parse, EMPTY, before)
    requires Runs(parse, IntentRemoved(After(EMPTY, before), v), later)
    requires forall i :: 0 <= i < |later| ==> !StatesIntent(later[i], v)
    ensures var s := After(IntentRemoved(After(EMPTY, before), v), later);
      v !in s.manifests && v !in s.placements
    ensures forall i :: 0 <= i < |later| && later[i].ReconcileVmPlacements? ==> v !in DispatchIds(later[i].dispatches)
  {
    InvOverRuns(parse, EMPTY, before);
    IntentRemovalKeepsInv(After(EMPTY, before), v);
    NoResurrection(parse, IntentRemoved(After(EMPTY, before), v), later, v);
  }

  // ----- rollback -----

  /**
   * A create that fails without leaving an actor is undone: the state is as before, apart from
   * the discarded totals and actor entries that a VM without intent might still have had.
   */
  lemma RollbackUndoesCreate(s: Sched, vmid: VmId, config: Manifest, target: ActorId, now: nat)
    requires Inv(s) && vmid !in s.manifests
    ensures Created(s, vmid, config, Some(target), Failed(false), now)
         == s.(vmActors := s.vmActors - {vmid}, pendingCache := None)
  {
    assert s.manifests[vmid := config] - {vmid} == s.manifests;
    assert s.placements[vmid := Get(s.placements, vmid) + [Reserved(target, now)]] - {vmid} == s.placements;
    assert s.vmActors[vmid := ActorsOf(s.vmActors, vmid) + [None]] - {vmid} == s.vmActors - {vmid};
  }
}
