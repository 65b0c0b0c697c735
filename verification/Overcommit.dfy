/** Exact used plus reserved totals against the limits of an agent, over scheduler runs. */
module Overcommit {
  import opened Prelude
  import opened Membership
  import opened Policy
  import opened Placements
  import opened Scheduler
  import opened SchedulerInvariants
  import opened SchedulerTheorems

  ghost predicate NotOvercommitted(s: Sched, a: ActorId) {
    a in s.agents ==> WithinLimits(s.agents[a].data, ExactReservation(s.manifests, s.placements, a))
  }

  ghost predicate NoMore(r: Reservation, q: Reservation) {
    r.vcpus <= q.vcpus && r.ram <= q.ram
  }

  /** Shorter or confirmed lists and dropped VMs never increase a reservation. */
  lemma ReservationShrinks(m: Manifests, p: PlacementMap, m': Manifests, p': PlacementMap, a: ActorId)
    requires forall v :: v in m' ==>
      if v in m
      then && ReservedOn(Get(p', v), a, m'[v].vcpus) <= ReservedOn(Get(p, v), a, m[v].vcpus)
           && ReservedOn(Get(p', v), a, m'[v].memory) <= ReservedOn(Get(p, v), a, m[v].memory)
      else ReservedOn(Get(p', v), a, m'[v].vcpus) == ReservedOn(Get(p', v), a, m'[v].memory) == 0
    ensures NoMore(ExactReservation(m', p', a), ExactReservation(m, p, a))
  {
    TotalMonotone(VcpuReservations(m', p', a), VcpuReservations(m, p, a));
    TotalMonotone(RamReservations(m', p', a), RamReservations(m, p, a));
  }

  lemma OneReservationReserves(target: ActorId, now: nat, a: ActorId, amount: nat)
    ensures ReservedOn([Reserved(target, now)], a, amount) == if a == target then amount else 0
  {
    assert [Reserved(target, now)][1..] == [];
  }

  lemma VcpuReservationsGrow(
    m: Manifests, p: PlacementMap, vmid: VmId, config: Manifest, target: ActorId, now: nat, a: ActorId)
    ensures VcpuReservations(m[vmid := config], p[vmid := [Reserved(target, now)]], a)
         == VcpuReservations(m, p, a)[vmid := if a == target then config.vcpus else 0]
  {
    OneReservationReserves(target, now, a, config.vcpus);
  }

  lemma RamReservationsGrow(
    m: Manifests, p: PlacementMap, vmid: VmId, config: Manifest, target: ActorId, now: nat, a: ActorId)
    ensures RamReservations(m[vmid := config], p[vmid := [Reserved(target, now)]], a)
         == RamReservations(m, p, a)[vmid := if a == target then config.memory else 0]
  {
    OneReservationReserves(target, now, a, config.memory);
  }

  /** A reservation for a VM that had none adds exactly its request, on its target only. */
  lemma ReservationGrowsByRequest(
    m: Manifests, p: PlacementMap, vmid: VmId, config: Manifest, target: ActorId, now: nat, a: ActorId)
    requires vmid in m ==> m[vmid] == config
    requires Get(p, vmid) == []
    ensures var before, after := ExactReservation(m, p, a),
                ExactReservation(m[vmid := config], p[vmid := [Reserved(target, now)]], a);
      after == if a == target then Reservation(before.vcpus + config.vcpus, before.ram + config.memory) else before
  {
    VcpuReservationsGrow(m, p, vmid, config, target, now, a);
    RamReservationsGrow(m, p, vmid, config, target, now, a);
    TotalUpdate(VcpuReservations(m, p, a), vmid, if a == target then config.vcpus else 0);
    TotalUpdate(RamReservations(m, p, a), vmid, if a == target then config.memory else 0);
  }

  /** The part of a scheduling choice that the limits depend on. */
  ghost predicate RoomFor(s: Sched, m: Manifest, target: Option<ActorId>) {
    target.Some? ==> target.value in s.agents && Fits(m, s.agents[target.value].data, ReservedFor(s, target.value))
  }

  lemma ReservationStaysWithinLimits(s: Sched, vmid: VmId, config: Manifest, target: ActorId, now: nat, a: ActorId)
    requires Get(s.placements, vmid) == [] && (vmid in s.manifests ==> s.manifests[vmid] == config)
    requires RoomFor(s, config, Some(target))
    requires a in s.agents ==> Measurable(s.agents[a].data)
    requires NotOvercommitted(s, a)
    ensures NotOvercommitted(WithReservation(s.(manifests := s.manifests[vmid := config]), vmid, target, now), a)
  {
    ReservationGrowsByRequest(s.manifests, s.placements, vmid, config, target, now, a);
    assert [] + [Reserved(target, now)] == [Reserved(target, now)];
    if a == target {
      CapacityCheckIsExact(config, s.agents[a].data, ExactReservation(s.manifests, s.placements, a));
    }
  }

  lemma AgentCleanupReservesNoMore(s: Sched, cleaned: ActorId, a: ActorId)
    ensures NoMore(ExactReservation(s.manifests, AgentCleaned(s, cleaned).placements, a),
                   ExactReservation(s.manifests, s.placements, a))
  {
    var p' := AgentCleaned(s, cleaned).placements;
    forall v | v in s.manifests
      ensures ReservedOn(Get(p', v), a, s.manifests[v].vcpus) <= ReservedOn(Get(s.placements, v), a, s.manifests[v].vcpus)
      ensures ReservedOn(Get(p', v), a, s.manifests[v].memory) <= ReservedOn(Get(s.placements, v), a, s.manifests[v].memory)
    {
      RetainReservesNoMore(Get(s.placements, v), UnlessOn(cleaned), a, s.manifests[v].vcpus);
      RetainReservesNoMore(Get(s.placements, v), UnlessOn(cleaned), a, s.manifests[v].memory);
    }
    ReservationShrinks(s.manifests, s.placements, s.manifests, p', a);
  }

  lemma VmCleanupReservesNoMore(s: Sched, actor: ActorId, a: ActorId)
    ensures NoMore(ExactReservation(s.manifests, VmCleaned(s, actor).placements, a),
                   ExactReservation(s.manifests, s.placements, a))
  {
    var p' := VmCleaned(s, actor).placements;
    forall v | v in s.manifests
      ensures ReservedOn(Get(p', v), a, s.manifests[v].vcpus) <= ReservedOn(Get(s.placements, v), a, s.manifests[v].vcpus)
      ensures ReservedOn(Get(p', v), a, s.manifests[v].memory) <= ReservedOn(Get(s.placements, v), a, s.manifests[v].memory)
    {
      var rule := IfPendingOrOn(AgentsSeeing(s.index, v));
      RetainReservesNoMore(Get(s.placements, v), rule, a, s.manifests[v].vcpus);
      RetainReservesNoMore(Get(s.placements, v), rule, a, s.manifests[v].memory);
    }
    ReservationShrinks(s.manifests, s.placements, s.manifests, p', a);
  }

  lemma ExpiryReservesNoMore(s: Sched, now: nat, a: ActorId)
    ensures NoMore(ExactReservation(s.manifests, Expired(s, now).placements, a),
                   ExactReservation(s.manifests, s.placements, a))
  {
    var p' := Expired(s, now).placements;
    forall v | v in s.manifests
      ensures ReservedOn(Get(p', v), a, s.manifests[v].vcpus) <= ReservedOn(Get(s.placements, v), a, s.manifests[v].vcpus)
      ensures ReservedOn(Get(p', v), a, s.manifests[v].memory) <= ReservedOn(Get(s.placements, v), a, s.manifests[v].memory)
    {
      RetainReservesNoMore(Get(s.placements, v), UnlessPendingExpired(now), a, s.manifests[v].vcpus);
      RetainReservesNoMore(Get(s.placements, v), UnlessPendingExpired(now), a, s.manifests[v].memory);
    }
    ReservationShrinks(s.manifests, s.placements, s.manifests, p', a);
  }

  lemma DeltaEntriesReserveNoMore(
    entries: seq<VmPlacement>, b: ActorId, confirm: bool, remove: bool, now: nat, a: ActorId, amount: nat)
    ensures ReservedOn(DeltaEntries(entries, b, confirm, remove, now), a, amount) <= ReservedOn(entries, a, amount)
  {
    ConfirmFirstReservesNoMore(entries, b, now, a, amount);
    RetainReservesNoMore(entries, UnlessRunningOn(b), a, amount);
    RetainReservesNoMore(ConfirmFirst(entries, b, now), UnlessRunningOn(b), a, amount);
  }

  lemma SnapshotEntriesReserveNoMore(
    entries: seq<VmPlacement>, b: ActorId, reported: bool, known: bool, now: nat, a: ActorId, amount: nat)
    ensures ReservedOn(SnapshotEntries(entries, b, reported, known, now), a, amount) <= ReservedOn(entries, a, amount)
  {
    RetainReservesNoMore(entries, UnlessStaleOn(b, now), a, amount);
    WithPlacementReservesNoMore(entries, b, now, a, amount);
    ConfirmEveryReservesNoMore(entries, b, now, a, amount);
    ConfirmEveryReservesNoMore(WithPlacement(entries, b, now), b, now, a, amount);
  }

  lemma StatusReservesNoMore(s: Sched, b: ActorId, update: StatusUpdate, now: nat, a: ActorId)
    ensures NoMore(ExactReservation(s.manifests, StatusArrived(s, b, update, now).placements, a),
                   ExactReservation(s.manifests, s.placements, a))
  {
    var p' := StatusArrived(s, b, update, now).placements;
    forall v | v in s.manifests
      ensures ReservedOn(Get(p', v), a, s.manifests[v].vcpus) <= ReservedOn(Get(s.placements, v), a, s.manifests[v].vcpus)
      ensures ReservedOn(Get(p', v), a, s.manifests[v].memory) <= ReservedOn(Get(s.placements, v), a, s.manifests[v].memory)
    {
      var entries := Get(s.placements, v);
      if update.Full? {
        SnapshotEntriesReserveNoMore(entries, b, v in Elems(update.status.vms), true, now, a, s.manifests[v].vcpus);
        SnapshotEntriesReserveNoMore(entries, b, v in Elems(update.status.vms), true, now, a, s.manifests[v].memory);
      } else {
        var added, removed := v in Elems(update.added), v in Elems(update.removed);
        DeltaEntriesReserveNoMore(entries, b, added, removed, now, a, s.manifests[v].vcpus);
        DeltaEntriesReserveNoMore(entries, b, added, removed, now, a, s.manifests[v].memory);
      }
    }
    ReservationShrinks(s.manifests, s.placements, s.manifests, p', a);
  }

  // ----- manifest reports -----

  ghost predicate HeldOn(entries: seq<VmPlacement>, a: ActorId) {
    exists e :: e in entries && e.agent == a && e.lifecycle.Pending?
  }

  lemma HeldIsReserved(entries: seq<VmPlacement>, a: ActorId, amount: nat)
    requires WellPlaced(entries)
    ensures ReservedOn(entries, a, amount) == if HeldOn(entries, a) then amount else 0
  {
    if HeldOn(entries, a) {
      var e :| e in entries && e.agent == a && e.lifecycle.Pending?;
      PendingReserves(entries, e, amount);
      WellPlacedReservesOnce(entries, a, a, amount);
    } else {
      NoPendingNoReservation(entries, a, amount);
    }
  }

  lemma RunningIsNotHeld(entries: seq<VmPlacement>, a: ActorId)
    requires WellPlaced(entries) && RunsOn(entries, a)
    ensures !HeldOn(entries, a)
  {
    var e :| e in entries && e.agent == a && e.lifecycle.Running?;
    var i :| 0 <= i < |entries| && entries[i] == e;
    assert forall f :: f in entries && f.agent == a ==> f == e;
  }

  /** Confirmation releases the reservation on the confirming agents and keeps the others. */
  lemma ConfirmAcrossHeld(entries: seq<VmPlacement>, order: seq<ActorId>, now: nat, a: ActorId)
    requires WellPlaced(entries)
    ensures HeldOn(ConfirmAcross(entries, order, now), a) <==> HeldOn(entries, a) && a !in order
  {
    ConfirmAcrossMembers(entries, order, now);
    if a in order {
      ConfirmAcrossWellPlaced(entries, order, now);
      RunningIsNotHeld(ConfirmAcross(entries, order, now), a);
    }
  }

  /** The request that a report releases on `a`, and the one it reserves there instead. */
  ghost predicate Released(s: Sched, vmid: VmId, a: ActorId) {
    vmid in s.manifests && HeldOn(Get(s.placements, vmid), a)
  }

  ghost predicate Renewed(s: Sched, vmid: VmId, a: ActorId) {
    Released(s, vmid, a) && a !in AgentsSeeing(s.index, vmid)
  }

  /** The exact totals on `a` with the old request taken off and the renewed one added. */
  ghost function VcpusAfterReport(s: Sched, vmid: VmId, config: Manifest, a: ActorId): int {
    ExactReservation(s.manifests, s.placements, a).vcpus
    - (if Released(s, vmid, a) then s.manifests[vmid].vcpus else 0) + (if Renewed(s, vmid, a) then config.vcpus else 0)
  }

  ghost function RamAfterReport(s: Sched, vmid: VmId, config: Manifest, a: ActorId): int {
    ExactReservation(s.manifests, s.placements, a).ram
    - (if Released(s, vmid, a) then s.manifests[vmid].memory else 0) + (if Renewed(s, vmid, a) then config.memory else 0)
  }

  lemma ReportedList(s: Sched, actor: ActorId, vmid: VmId, config: Manifest, order: seq<ActorId>, now: nat, a: ActorId, amount: nat)
    requires PlacementsSound(s) && Elems(order) == AgentsSeeing(s.index, vmid)
    ensures var t := VmReported(s, actor, vmid, Some(config), order, now);
      ReservedOn(Get(t.placements, vmid), a, amount) == if Renewed(s, vmid, a) then amount else 0
  {
    var entries := Get(s.placements, vmid);
    assert a in order <==> a in Elems(order);
    ConfirmAcrossHeld(entries, order, now, a);
    ConfirmAcrossWellPlaced(entries, order, now);
    HeldIsReserved(ConfirmAcross(entries, order, now), a, amount);
  }

  ghost predicate OneVmChanged(m: Manifests, p: PlacementMap, m': Manifests, p': PlacementMap, vmid: VmId) {
    && m'.Keys == m.Keys + {vmid}
    && forall v :: v in m && v != vmid ==> m'[v] == m[v] && Get(p', v) == Get(p, v)
  }

  lemma ReportChangesOneVm(s: Sched, actor: ActorId, vmid: VmId, config: Manifest, order: seq<ActorId>, now: nat)
    ensures var t := VmReported(s, actor, vmid, Some(config), order, now);
      t.agents == s.agents && OneVmChanged(s.manifests, s.placements, t.manifests, t.placements, vmid)
  {
  }

  lemma VcpuReservationsChange(m: Manifests, p: PlacementMap, m': Manifests, p': PlacementMap, vmid: VmId, a: ActorId)
    requires OneVmChanged(m, p, m', p', vmid)
    ensures VcpuReservations(m', p', a) == VcpuReservations(m, p, a)[vmid := ReservedOn(Get(p', vmid), a, m'[vmid].vcpus)]
  {
  }

  lemma VcpuTotalChange(m: Manifests, p: PlacementMap, m': Manifests, p': PlacementMap, vmid: VmId, a: ActorId)
    requires OneVmChanged(m, p, m', p', vmid)
    ensures Total(VcpuReservations(m', p', a))
         == Total(VcpuReservations(m, p, a)) - (if vmid in m then ReservedOn(Get(p, vmid), a, m[vmid].vcpus) else 0)
            + ReservedOn(Get(p', vmid), a, m'[vmid].vcpus)
  {
    VcpuReservationsChange(m, p, m', p', vmid, a);
    TotalUpdate(VcpuReservations(m, p, a), vmid, ReservedOn(Get(p', vmid), a, m'[vmid].vcpus));
  }

  lemma ReportedVcpus(s: Sched, actor: ActorId, vmid: VmId, config: Manifest, order: seq<ActorId>, now: nat, a: ActorId)
    requires PlacementsSound(s) && Elems(order) == AgentsSeeing(s.index, vmid)
    ensures var t := VmReported(s, actor, vmid, Some(config), order, now);
      Total(VcpuReservations(t.manifests, t.placements, a))
      == VcpusAfterReport(s, vmid, config, a)
  {
    var t := VmReported(s, actor, vmid, Some(config), order, now);
    ReportChangesOneVm(s, actor, vmid, config, order, now);
    ReportedList(s, actor, vmid, config, order, now, a, config.vcpus);
    if vmid in s.manifests {
      HeldIsReserved(Get(s.placements, vmid), a, s.manifests[vmid].vcpus);
    }
    VcpuTotalChange(s.manifests, s.placements, t.manifests, t.placements, vmid, a);
  }

  lemma RamReservationsChange(m: Manifests, p: PlacementMap, m': Manifests, p': PlacementMap, vmid: VmId, a: ActorId)
    requires OneVmChanged(m, p, m', p', vmid)
    ensures RamReservations(m', p', a) == RamReservations(m, p, a)[vmid := ReservedOn(Get(p', vmid), a, m'[vmid].memory)]
  {
  }

  lemma RamTotalChange(m: Manifests, p: PlacementMap, m': Manifests, p': PlacementMap, vmid: VmId, a: ActorId)
    requires OneVmChanged(m, p, m', p', vmid)
    ensures Total(RamReservations(m', p', a))
         == Total(RamReservations(m, p, a)) - (if vmid in m then ReservedOn(Get(p, vmid), a, m[vmid].memory) else 0)
            + ReservedOn(Get(p', vmid), a, m'[vmid].memory)
  {
    RamReservationsChange(m, p, m', p', vmid, a);
    TotalUpdate(RamReservations(m, p, a), vmid, ReservedOn(Get(p', vmid), a, m'[vmid].memory));
  }

  lemma ReportedRam(s: Sched, actor: ActorId, vmid: VmId, config: Manifest, order: seq<ActorId>, now: nat, a: ActorId)
    requires PlacementsSound(s) && Elems(order) == AgentsSeeing(s.index, vmid)
    ensures var t := VmReported(s, actor, vmid, Some(config), order, now);
      Total(RamReservations(t.manifests, t.placements, a))
      == RamAfterReport(s, vmid, config, a)
  {
    var t := VmReported(s, actor, vmid, Some(config), order, now);
    ReportChangesOneVm(s, actor, vmid, config, order, now);
    ReportedList(s, actor, vmid, config, order, now, a, config.memory);
    if vmid in s.manifests {
      HeldIsReserved(Get(s.placements, vmid), a, s.manifests[vmid].memory);
    }
    RamTotalChange(s.manifests, s.placements, t.manifests, t.placements, vmid, a);
  }

  /** Checked before the report: the totals that it will leave are within the limits. */
  ghost predicate ReportFits(s: Sched, vmid: VmId, config: Manifest, a: ActorId) {
    a in s.agents ==>
      var status := s.agents[a].data;
      && status.usedVcpus + VcpusAfterReport(s, vmid, config, a) <= 2 * status.vcpus
      && status.usedRam + RamAfterReport(s, vmid, config, a) <= status.ram
  }

  /** A manifest report leaves an agent within its limits if and only if the report fits. */
  lemma ReportKeepsLimits(s: Sched, actor: ActorId, vmid: VmId, config: Manifest, order: seq<ActorId>, now: nat, a: ActorId)
    requires PlacementsSound(s) && Elems(order) == AgentsSeeing(s.index, vmid)
    ensures NotOvercommitted(VmReported(s, actor, vmid, Some(config), order, now), a) <==> ReportFits(s, vmid, config, a)
  {
    ReportChangesOneVm(s, actor, vmid, config, order, now);
    ReportedVcpus(s, actor, vmid, config, order, now, a);
    ReportedRam(s, actor, vmid, config, order, now, a);
  }

  /**
   * Reports that always fit: of a VM that is not reserved on the agent, of one that the agent
   * reports as well, and any that does not enlarge the request.
   */
  lemma HarmlessReportFits(s: Sched, vmid: VmId, config: Manifest, a: ActorId)
    requires NotOvercommitted(s, a)
    requires Renewed(s, vmid, a) ==>
      config.vcpus <= s.manifests[vmid].vcpus && config.memory <= s.manifests[vmid].memory
    ensures ReportFits(s, vmid, config, a)
  {
  }

  /** Reports that never fit: of a reserved VM, asking for more than the agent has left unused. */
  lemma LargerReportOvercommits(
    s: Sched, actor: ActorId, vmid: VmId, config: Manifest, order: seq<ActorId>, now: nat, a: ActorId)
    requires PlacementsSound(s) && Elems(order) == AgentsSeeing(s.index, vmid)
    requires a in s.agents && Renewed(s, vmid, a)
    requires var status := s.agents[a].data;
      status.usedVcpus + config.vcpus > 2 * status.vcpus || status.usedRam + config.memory > status.ram
    ensures !NotOvercommitted(VmReported(s, actor, vmid, Some(config), order, now), a)
  {
    ReportKeepsLimits(s, actor, vmid, config, order, now, a);
    HeldIsReserved(Get(s.placements, vmid), a, s.manifests[vmid].vcpus);
    HeldIsReserved(Get(s.placements, vmid), a, s.manifests[vmid].memory);
    TotalRemove(VcpuReservations(s.manifests, s.placements, a), vmid);
    TotalRemove(RamReservations(s.manifests, s.placements, a), vmid);
  }

  // ----- the other handlers -----

  lemma StateRemovalReservesNoMore(s: Sched, vmid: VmId, a: ActorId)
    ensures var t := StateRemoved(s, vmid);
      NoMore(ExactReservation(t.manifests, t.placements, a), ExactReservation(s.manifests, s.placements, a))
  {
    var t := StateRemoved(s, vmid);
    ReservationShrinks(s.manifests, s.placements, t.manifests, t.placements, a);
  }

  /** The cached status of `a` is unchanged, or `a` is no longer cached. */
  ghost predicate KeepsStatus(s: Sched, t: Sched, a: ActorId) {
    a in t.agents ==> a in s.agents && t.agents[a] == s.agents[a]
  }

  lemma ShrinkingKeepsLimits(s: Sched, t: Sched, a: ActorId)
    requires KeepsStatus(s, t, a) && NotOvercommitted(s, a)
    requires NoMore(ExactReservation(t.manifests, t.placements, a), ExactReservation(s.manifests, s.placements, a))
    ensures NotOvercommitted(t, a)
  {
  }

  lemma UnchangedListsKeepLimits(s: Sched, t: Sched, a: ActorId)
    requires t.agents == s.agents && t.manifests == s.manifests
    requires forall v :: v in s.manifests ==> Get(t.placements, v) == Get(s.placements, v)
    requires NotOvercommitted(s, a)
    ensures NotOvercommitted(t, a)
  {
    ReservationReadsListsOnly(s.manifests, s.placements, t.placements, a);
  }

  lemma SettlingKeepsLimits(s: Sched, vmid: VmId, outcome: CreateOutcome, a: ActorId)
    requires NotOvercommitted(s, a)
    ensures NotOvercommitted(CreateSettled(s, vmid, outcome), a)
    ensures CreateSettled(s, vmid, outcome).agents == s.agents
  {
    var t := CreateSettled(s, vmid, outcome);
    if outcome == Failed(false) {
      StateRemovalReservesNoMore(s, vmid, a);
    } else {
      assert t.manifests == s.manifests && t.placements == s.placements;
    }
    ShrinkingKeepsLimits(s, t, a);
  }

  lemma CreateKeepsLimits(
    s: Sched, vmid: VmId, config: Manifest, target: Option<ActorId>, outcome: CreateOutcome, now: nat, a: ActorId)
    requires PlacementsSound(s) && (vmid !in s.manifests ==> RoomFor(s, config, target))
    requires a in s.agents ==> Measurable(s.agents[a].data)
    requires NotOvercommitted(s, a)
    ensures NotOvercommitted(Created(s, vmid, config, target, outcome, now), a)
    ensures Created(s, vmid, config, target, outcome, now).agents == s.agents
  {
    if vmid !in s.manifests && target.Some? {
      var reserved := WithReservation(s.(manifests := s.manifests[vmid := config]), vmid, target.value, now);
      ReservationStaysWithinLimits(s, vmid, config, target.value, now, a);
      SettlingKeepsLimits(reserved, vmid, outcome, a);
    } else {
      UnchangedListsKeepLimits(s, Created(s, vmid, config, target, outcome, now), a);
    }
  }

  ghost predicate RoomForAll(s: Sched, ds: seq<Dispatch>, now: nat)
    decreases |ds|
  {
    ds == [] ||
    (&& ds[0].vmid in Unplaced(s)
     && RoomFor(s, s.manifests[ds[0].vmid], ds[0].target)
     && RoomForAll(Dispatched(s, ds[0], now), ds[1..], now))
  }

  lemma {:induction false} DispatchableHasRoom(parse: NumberParser, s: Sched, ds: seq<Dispatch>, now: nat)
    requires Dispatchable(parse, s, ds, now)
    ensures RoomForAll(s, ds, now)
    decreases |ds|
  {
    if ds != [] {
      DispatchableHasRoom(parse, Dispatched(s, ds[0], now), ds[1..], now);
    }
  }

  lemma DispatchKeepsLimits(s: Sched, d: Dispatch, now: nat, a: ActorId)
    requires d.vmid in Unplaced(s) && RoomFor(s, s.manifests[d.vmid], d.target)
    requires a in s.agents ==> Measurable(s.agents[a].data)
    requires NotOvercommitted(s, a)
    ensures NotOvercommitted(Dispatched(s, d, now), a)
    ensures Dispatched(s, d, now).agents == s.agents
  {
    DispatchTouchesOneList(s, d, now);
    if d.target.Some? && d.sent {
      assert s.(manifests := s.manifests[d.vmid := s.manifests[d.vmid]]) == s;
      ReservationStaysWithinLimits(s, d.vmid, s.manifests[d.vmid], d.target.value, now, a);
    } else {
      UnchangedListsKeepLimits(s, Dispatched(s, d, now), a);
    }
  }

  lemma {:induction false} DispatchAllKeepsLimits(s: Sched, ds: seq<Dispatch>, now: nat, a: ActorId)
    requires RoomForAll(s, ds, now)
    requires a in s.agents ==> Measurable(s.agents[a].data)
    requires NotOvercommitted(s, a)
    ensures NotOvercommitted(DispatchedAll(s, ds, now), a)
    ensures DispatchedAll(s, ds, now).agents == s.agents
    decreases |ds|
  {
    if ds != [] {
      DispatchKeepsLimits(s, ds[0], now, a);
      DispatchAllKeepsLimits(Dispatched(s, ds[0], now), ds[1..], now, a);
    }
  }

  lemma ReconcileKeepsLimits(parse: NumberParser, s: Sched, ds: seq<Dispatch>, now: nat, a: ActorId)
    requires Dispatchable(parse, Expired(s, now), ds, now)
    requires a in s.agents ==> Measurable(s.agents[a].data)
    requires NotOvercommitted(s, a)
    ensures NotOvercommitted(DispatchedAll(Expired(s, now), ds, now), a)
    ensures DispatchedAll(Expired(s, now), ds, now).agents == s.agents
  {
    DispatchableHasRoom(parse, Expired(s, now), ds, now);
    ExpiryReservesNoMore(s, now, a);
    ShrinkingKeepsLimits(s, Expired(s, now), a);
    DispatchAllKeepsLimits(Expired(s, now), ds, now, a);
  }

  lemma AgentCleanupKeepsLimits(s: Sched, id: ActorId, a: ActorId)
    requires NotOvercommitted(s, a)
    ensures KeepsStatus(s, AgentCleaned(s, id), a) && NotOvercommitted(AgentCleaned(s, id), a)
  {
    AgentCleanupReservesNoMore(s, id, a);
    ShrinkingKeepsLimits(s, AgentCleaned(s, id), a);
  }

  lemma VmCleanupKeepsLimits(s: Sched, id: ActorId, a: ActorId)
    requires NotOvercommitted(s, a)
    ensures KeepsStatus(s, VmCleaned(s, id), a) && NotOvercommitted(VmCleaned(s, id), a)
  {
    VmCleanupReservesNoMore(s, id, a);
    ShrinkingKeepsLimits(s, VmCleaned(s, id), a);
  }

  lemma StatusStepKeepsLimits(s: Sched, id: ActorId, update: StatusUpdate, now: nat, a: ActorId)
    requires NotOvercommitted(s, a) && id != a
    ensures KeepsStatus(s, StatusArrived(s, id, update, now), a)
    ensures NotOvercommitted(StatusArrived(s, id, update, now), a)
  {
    var t := StatusArrived(s, id, update, now);
    assert t.manifests == s.manifests;
    assert KeepsStatus(s, t, a);
    StatusReservesNoMore(s, id, update, now, a);
    ShrinkingKeepsLimits(s, t, a);
  }

  lemma StopStepKeepsLimits(s: Sched, vmid: VmId, a: ActorId)
    requires NotOvercommitted(s, a)
    ensures KeepsStatus(s, IntentRemoved(s, vmid), a) && NotOvercommitted(IntentRemoved(s, vmid), a)
  {
    StateRemovalReservesNoMore(s, vmid, a);
    ShrinkingKeepsLimits(s, IntentRemoved(s, vmid), a);
  }

  lemma DepartureKeepsLimits(s: Sched, id: ActorId, a: ActorId)
    requires NotOvercommitted(s, a)
    ensures KeepsStatus(s, LinkLost(s, id), a) && NotOvercommitted(LinkLost(s, id), a)
  {
    AgentCleanupKeepsLimits(s.(kinds := s.kinds - {id}), id, a);
    VmCleanupKeepsLimits(s.(kinds := s.kinds - {id}), id, a);
  }

  /** A step other than a manifest report that does not fit. */
  ghost predicate KeepsLimits(s: Sched, step: Step, a: ActorId) {
    step.VmUpdated? && step.config.Some? ==> ReportFits(s, step.vmid, step.config.value, a)
  }

  lemma ReportStepKeepsLimits(parse: NumberParser, s: Sched, step: Step, a: ActorId)
    requires step.VmUpdated? && Inv(s) && Enabled(parse, s, step) && NotOvercommitted(s, a)
    ensures KeepsStatus(s, Next(s, step), a)
    ensures NotOvercommitted(Next(s, step), a) <==> KeepsLimits(s, step, a)
  {
    if step.config.Some? {
      ReportKeepsLimits(s, step.id, step.vmid, step.config.value, step.order, step.now, a);
    }
  }

  /** Apart from the agent's own status, only a report that does not fit exceeds its limits. */
  lemma StepKeepsLimits(parse: NumberParser, s: Sched, step: Step, a: ActorId)
    requires Inv(s) && Enabled(parse, s, step) && !(step.AgentUpdated? && step.id == a)
    requires a in s.agents ==> Measurable(s.agents[a].data)
    requires NotOvercommitted(s, a)
    ensures NotOvercommitted(Next(s, step), a) <==> KeepsLimits(s, step, a)
    ensures KeepsStatus(s, Next(s, step), a)
  {
    match step
    case AgentDiscovered(_) =>
    case VmDiscovered(_) =>
    case VmUpdated(_, _, _, _, _) => ReportStepKeepsLimits(parse, s, step, a);
    case VmUpdaterStopped(id) => VmCleanupKeepsLimits(s.(kinds := s.kinds - {id}), id, a);
    case AgentUpdated(id, update, now) => StatusStepKeepsLimits(s, id, update, now, a);
    case AgentUpdaterStopped(id) => AgentCleanupKeepsLimits(s.(kinds := s.kinds - {id}), id, a);
    case LinkDied(id) => DepartureKeepsLimits(s, id, a);
    case CreateVm(vmid, manifest, target, outcome, now) =>
      CreateKeepsLimits(s, vmid, manifest, target, outcome, now, a);
    case StopVm(vmid, _) => StopStepKeepsLimits(s, vmid, a);
    case ReconcileVmPlacements(dispatches, now) => ReconcileKeepsLimits(parse, s, dispatches, now, a);
  }

  ghost predicate AllKeepLimits(s: Sched, steps: seq<Step>, a: ActorId)
    decreases |steps|
  {
    steps == [] || (KeepsLimits(s, steps[0], a) && AllKeepLimits(Next(s, steps[0]), steps[1..], a))
  }

  ghost predicate WithinLimitsThroughout(s: Sched, steps: seq<Step>, a: ActorId)
    decreases |steps|
  {
    NotOvercommitted(s, a) && (steps != [] ==> WithinLimitsThroughout(Next(s, steps[0]), steps[1..], a))
  }

  /**
   * Between two status updates of an agent, a run of creates, re-dispatches, reports,
   * confirmations, expiries, deletes and cleanups keeps its exact used + reserved total within
   * its limits in every state if and only if every manifest report of the run fits.
   */
  lemma {:induction false} NoOvercommit(parse: NumberParser, s: Sched, steps: seq<Step>, a: ActorId)
    requires Inv(s) && Runs(parse, s, steps)
    requires forall i :: 0 <= i < |steps| ==> !(steps[i].AgentUpdated? && steps[i].id == a)
    requires a in s.agents ==> Measurable(s.agents[a].data)
    requires NotOvercommitted(s, a)
    ensures WithinLimitsThroughout(s, steps, a) <==> AllKeepLimits(s, steps, a)
    ensures AllKeepLimits(s, steps, a) ==> NotOvercommitted(After(s, steps), a)
    decreases |steps|
  {
    if steps != [] {
      var t := Next(s, steps[0]);
      StepKeepsInv(parse, s, steps[0]);
      StepKeepsLimits(parse, s, steps[0], a);
      if NotOvercommitted(t, a) {
        NoOvercommit(parse, t, steps[1..], a);
      } else {
        assert !WithinLimitsThroughout(t, steps[1..], a);
      }
    }
  }
}
