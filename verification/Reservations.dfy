/**
 * The life of a reservation: when a create or a re-dispatch makes it, which steps end it, and
 * that its VM is not dispatched again before.
 */
module Reservations {
  import opened Prelude
  import opened Membership
  import opened Policy
  import opened Placements
  import opened Scheduler
  import opened SchedulerInvariants
  import opened SchedulerTheorems
  import opened ArrivalOrder

  /** 120 seconds in the clock's nanoseconds. */
  const RESERVATION_LIFETIME: nat := 120_000_000_000

  ghost predicate Holds(s: Sched, v: VmId, e: VmPlacement) {
    EntryOn(Get(s.placements, v), e.agent) == Some(e)
  }

  /** Unplaced VMs are the known ones without an entry on any agent. */
  lemma UnplacedMeans(s: Sched, v: VmId)
    ensures v in Unplaced(s) <==> v in s.manifests && forall b :: EntryOn(Get(s.placements, v), b).None?
  {
    var entries := Get(s.placements, v);
    if entries != [] {
      PositionIs(entries, entries[0].agent, 0);
      assert EntryOn(entries, entries[0].agent).Some?;
    }
  }

  lemma HolderIsPlaced(s: Sched, v: VmId, e: VmPlacement)
    requires Holds(s, v, e)
    ensures v in s.placements && v !in Unplaced(s)
    ensures PlacementsSound(s) ==> v in s.manifests
  {
  }

  // ----- how reservations come about -----

  lemma SingleEntry(e: VmPlacement, b: ActorId)
    ensures EntryOn([e], b) == if b == e.agent then Some(e) else None
  {
  }

  /** A create that stays in force leaves exactly one entry: pending on its target, created now. */
  lemma CreateReserves(s: Sched, vmid: VmId, config: Manifest, target: ActorId, outcome: CreateOutcome, now: nat)
    requires Inv(s) && vmid !in s.manifests && outcome != Failed(false)
    ensures var t := Created(s, vmid, config, Some(target), outcome, now);
      && Get(t.placements, vmid) == [VmPlacement(target, Pending, now, None)]
      && Holds(t, vmid, VmPlacement(target, Pending, now, None))
      && vmid in t.manifests && t.manifests[vmid] == config
  {
    assert [] + [Placements.Reserved(target, now)] == [VmPlacement(target, Pending, now, None)];
    SingleEntry(VmPlacement(target, Pending, now, None), target);
  }

  /** What one re-dispatch attempt leaves of its VM's list. */
  function AttemptedEntries(d: Dispatch, now: nat): seq<VmPlacement> {
    if d.target.Some? && d.sent then [VmPlacement(d.target.value, Pending, now, None)] else []
  }

  lemma DispatchReserves(s: Sched, d: Dispatch, now: nat)
    requires Get(s.placements, d.vmid) == []
    ensures Get(Dispatched(s, d, now).placements, d.vmid) == AttemptedEntries(d, now)
  {
    assert d.target.Some? ==> [] + [Placements.Reserved(d.target.value, now)] == [VmPlacement(d.target.value, Pending, now, None)];
    DispatchTouchesOneList(s, d, now);
  }

  /** A pass leaves the lists of other VMs alone. */
  lemma {:induction false} PassTouchesListedVms(parse: NumberParser, s: Sched, ds: seq<Dispatch>, now: nat, v: VmId)
    requires Dispatchable(parse, s, ds, now) && forall i :: 0 <= i < |ds| ==> ds[i].vmid != v
    ensures Get(DispatchedAll(s, ds, now).placements, v) == Get(s.placements, v)
    decreases |ds|
  {
    if ds != [] {
      DispatchTouchesOneList(s, ds[0], now);
      PassTouchesListedVms(parse, Dispatched(s, ds[0], now), ds[1..], now, v);
    }
  }

  /** A pass gives each VM it lists the outcome of its own attempt: a fresh reservation or nothing. */
  lemma {:induction false} PassReserves(parse: NumberParser, s: Sched, ds: seq<Dispatch>, now: nat, i: nat)
    requires Dispatchable(parse, s, ds, now) && NoDuplicates(DispatchIds(ds)) && i < |ds|
    ensures Get(DispatchedAll(s, ds, now).placements, ds[i].vmid) == AttemptedEntries(ds[i], now)
    decreases |ds|
  {
    var t, rest := Dispatched(s, ds[0], now), ds[1..];
    assert DispatchIds(rest) == DispatchIds(ds)[1..];
    assert forall k :: 0 <= k < |ds| ==> DispatchIds(ds)[k] == ds[k].vmid;
    if i == 0 {
      DispatchReserves(s, ds[0], now);
      PassTouchesListedVms(parse, t, rest, now, ds[0].vmid);
    } else {
      PassReserves(parse, t, rest, now, i - 1);
    }
  }

  lemma PassHolds(parse: NumberParser, s: Sched, ds: seq<Dispatch>, now: nat, i: nat)
    requires Dispatchable(parse, s, ds, now) && NoDuplicates(DispatchIds(ds)) && i < |ds|
    requires ds[i].target.Some? && ds[i].sent
    ensures Holds(DispatchedAll(s, ds, now), ds[i].vmid, VmPlacement(ds[i].target.value, Pending, now, None))
  {
    PassReserves(parse, s, ds, now, i);
    SingleEntry(VmPlacement(ds[i].target.value, Pending, now, None), ds[i].target.value);
  }

  /** A reservation is up for another dispatch after exactly 120 s without a discovered actor. */
  lemma ReservationLasts(s: Sched, v: VmId, target: ActorId, made: nat, now: nat)
    requires v in s.manifests && Get(s.placements, v) == [VmPlacement(target, Pending, made, None)]
    ensures v in Unplaced(Expired(s, now)) <==> !HasActor(s.vmActors, v) && now >= made + RESERVATION_LIFETIME
  {
    var entries := Get(s.placements, v);
    assert entries[1..] == [];
    assert Retain(entries[1..], UnlessPendingExpired(now)) == [];
  }

  // ----- how they end -----

  ghost predicate Overdue(e: VmPlacement, now: nat) {
    now >= e.createdAt + RESERVATION_LIFETIME
  }

  /** The update is applied: a first snapshot, or a newer revision. */
  ghost predicate Accepted(s: Sched, a: ActorId, update: StatusUpdate) {
    if a in s.agents then update.revision > s.agents[a].revision else update.Full?
  }

  ghost predicate SparedByCleanup(s: Sched, a: ActorId, v: VmId) {
    a in s.index && v in s.index[a] && HasActor(s.vmActors, v)
  }

  /** The steps that end the reservation `e` of `v`. */
  ghost predicate Ends(s: Sched, step: Step, v: VmId, e: VmPlacement) {
    match step
    case VmUpdated(_, vmid, config, _, _) => vmid == v && config.Some? && e.agent in AgentsSeeing(s.index, v)
    case AgentUpdated(id, update, now) =>
      && id == e.agent && Accepted(s, id, update)
      && (match update
          case Full(_, status) => v in status.vms || Overdue(e, now)
          case Delta(_, added, _, _, _) => v in added)
    case AgentUpdaterStopped(id) => id == e.agent && !SparedByCleanup(s, id, v)
    case LinkDied(id) => id == e.agent && id in s.kinds && s.kinds[id] == AgentKind && !SparedByCleanup(s, id, v)
    case StopVm(vmid, reached) => vmid == v && reached
    case ReconcileVmPlacements(_, now) => Overdue(e, now) && !HasActor(s.vmActors, v)
    case _ => false
  }

  lemma ReportEnds(s: Sched, step: Step, v: VmId, e: VmPlacement)
    requires step.VmUpdated? && Holds(s, v, e) && e.lifecycle.Pending?
    requires step.config.Some? ==> Elems(step.order) == AgentsSeeing(s.index, step.vmid)
    ensures Holds(Next(s, step), v, e) <==> !Ends(s, step, v, e)
  {
    if step.vmid == v && step.config.Some? {
      ConfirmAcrossEntry(Get(s.placements, v), step.order, step.now, e.agent);
      assert e.agent in step.order <==> e.agent in Elems(step.order);
    }
  }

  lemma SnapshotEnds(s: Sched, a: ActorId, revision: U64, status: AgentStatus, now: nat, v: VmId, e: VmPlacement)
    requires Inv(s) && Holds(s, v, e) && e.lifecycle.Pending? && StrictlySorted(status.vms)
    ensures Holds(SnapshotAccepted(s, a, revision, status, now), v, e)
       <==> !(a == e.agent && (v in status.vms || Overdue(e, now)))
  {
    HolderIsPlaced(s, v, e);
    SnapshotIsExact(s, a, revision, status, now, v, e.agent);
  }

  lemma DeltaEnds(s: Sched, a: ActorId, update: StatusUpdate, now: nat, v: VmId, e: VmPlacement)
    requires Inv(s) && Holds(s, v, e) && e.lifecycle.Pending? && a in s.agents && update.Delta?
    ensures Holds(DeltaAccepted(s, a, update, now), v, e) <==> !(a == e.agent && v in update.added)
  {
    HolderIsPlaced(s, v, e);
    DeltaIsExact(s, a, update, now, v, e.agent);
  }

  lemma StatusEnds(s: Sched, step: Step, v: VmId, e: VmPlacement)
    requires step.AgentUpdated? && (step.update.Full? ==> StrictlySorted(step.update.status.vms))
    requires Inv(s) && Holds(s, v, e) && e.lifecycle.Pending?
    ensures Holds(Next(s, step), v, e) <==> !Ends(s, step, v, e)
  {
    if Accepted(s, step.id, step.update) {
      if step.update.Full? {
        SnapshotEnds(s, step.id, step.update.revision, step.update.status, step.now, v, e);
      } else {
        DeltaEnds(s, step.id, step.update, step.now, v, e);
      }
    }
  }

  lemma CleanupEnds(s: Sched, id: ActorId, v: VmId, e: VmPlacement)
    requires Inv(s) && Holds(s, v, e) && e.lifecycle.Pending?
    ensures Holds(AgentCleaned(s, id), v, e) <==> !(id == e.agent && !SparedByCleanup(s, id, v))
    ensures Holds(VmCleaned(s, id), v, e)
  {
    AgentCleanupIsExact(s, id, v, e.agent);
    VmCleanupIsExact(s, id, v, e.agent);
  }

  lemma DepartureEnds(s: Sched, step: Step, v: VmId, e: VmPlacement)
    requires step.AgentUpdaterStopped? || step.VmUpdaterStopped? || step.LinkDied?
    requires Inv(s) && Holds(s, v, e) && e.lifecycle.Pending?
    ensures Holds(Next(s, step), v, e) <==> !Ends(s, step, v, e)
  {
    CleanupEnds(s.(kinds := s.kinds - {step.id}), step.id, v, e);
  }

  lemma CreateTouchesItsVm(
    s: Sched, vmid: VmId, config: Manifest, target: Option<ActorId>, outcome: CreateOutcome, now: nat, v: VmId)
    requires v != vmid || vmid in s.manifests
    ensures Get(Created(s, vmid, config, target, outcome, now).placements, v) == Get(s.placements, v)
  {
  }

  lemma CreateEndsNone(s: Sched, step: Step, v: VmId, e: VmPlacement)
    requires step.CreateVm? && Inv(s) && Holds(s, v, e)
    ensures Holds(Next(s, step), v, e)
  {
    HolderIsPlaced(s, v, e);
    CreateTouchesItsVm(s, step.vmid, step.manifest, step.target, step.outcome, step.now, v);
  }

  lemma PassEnds(parse: NumberParser, s: Sched, ds: seq<Dispatch>, now: nat, v: VmId, e: VmPlacement)
    requires Inv(s) && Holds(s, v, e) && e.lifecycle.Pending?
    requires Enabled(parse, s, ReconcileVmPlacements(ds, now))
    ensures var ended := Overdue(e, now) && !HasActor(s.vmActors, v);
      && (Holds(DispatchedAll(Expired(s, now), ds, now), v, e) <==> !ended)
      && (!ended ==> v !in DispatchIds(ds))
  {
    var t := Expired(s, now);
    ExpiryIsExact(s, now, v, e.agent);
    assert forall k :: 0 <= k < |ds| ==> DispatchIds(ds)[k] == ds[k].vmid;
    if Holds(t, v, e) {
      HolderIsPlaced(t, v, e);
      assert v !in Elems(DispatchIds(ds));
    }
    if i :| 0 <= i < |ds| && ds[i].vmid == v {
      PassReserves(parse, t, ds, now, i);
    } else {
      PassTouchesListedVms(parse, t, ds, now, v);
    }
  }

  /**
   * A reservation survives a step if and only if the step does not end it, and a pass that it
   * survives does not dispatch its VM.
   */
  lemma StepEndsReservation(parse: NumberParser, s: Sched, step: Step, v: VmId, e: VmPlacement)
    requires Inv(s) && Enabled(parse, s, step) && Holds(s, v, e) && e.lifecycle.Pending?
    ensures Holds(Next(s, step), v, e) <==> !Ends(s, step, v, e)
    ensures step.ReconcileVmPlacements? && !Ends(s, step, v, e) ==> v !in DispatchIds(step.dispatches)
  {
    if step.ReconcileVmPlacements? {
      PassEnds(parse, s, step.dispatches, step.now, v, e);
    } else if step.VmUpdated? {
      ReportEnds(s, step, v, e);
    } else if step.AgentUpdated? {
      StatusEnds(s, step, v, e);
    } else if step.CreateVm? {
      CreateEndsNone(s, step, v, e);
    } else if step.AgentUpdaterStopped? || step.VmUpdaterStopped? || step.LinkDied? {
      DepartureEnds(s, step, v, e);
    }
  }

  ghost predicate NoneEnds(s: Sched, steps: seq<Step>, v: VmId, e: VmPlacement)
    decreases |steps|
  {
    steps == [] || (!Ends(s, steps[0], v, e) && NoneEnds(Next(s, steps[0]), steps[1..], v, e))
  }

  ghost predicate HoldsThroughout(s: Sched, steps: seq<Step>, v: VmId, e: VmPlacement)
    decreases |steps|
  {
    Holds(s, v, e) && (steps != [] ==> HoldsThroughout(Next(s, steps[0]), steps[1..], v, e))
  }

  /** The same over runs. */
  lemma {:induction false} ReservationOverRuns(parse: NumberParser, s: Sched, steps: seq<Step>, v: VmId, e: VmPlacement)
    requires Inv(s) && Runs(parse, s, steps) && Holds(s, v, e) && e.lifecycle.Pending?
    ensures HoldsThroughout(s, steps, v, e) <==> NoneEnds(s, steps, v, e)
    ensures NoneEnds(s, steps, v, e) ==>
      forall i :: 0 <= i < |steps| && steps[i].ReconcileVmPlacements? ==> v !in DispatchIds(steps[i].dispatches)
    decreases |steps|
  {
    if steps != [] {
      var t := Next(s, steps[0]);
      StepKeepsInv(parse, s, steps[0]);
      StepEndsReservation(parse, s, steps[0], v, e);
      if Holds(t, v, e) {
        ReservationOverRuns(parse, t, steps[1..], v, e);
        assert forall i :: 0 < i < |steps| ==> steps[i] == steps[1..][i - 1];
      } else {
        assert !HoldsThroughout(t, steps[1..], v, e);
      }
    }
  }

  /**
   * After a create at time `made` that stays in force, no pass dispatches the VM again along a
   * run on which nothing ends the reservation; in particular no pass before `made` + 120 s does.
   */
  lemma NoSecondDispatch(
    parse: NumberParser, s: Sched, vmid: VmId, config: Manifest, target: ActorId, outcome: CreateOutcome, made: nat,
    later: seq<Step>)
    requires Inv(s) && vmid !in s.manifests && outcome != Failed(false)
    requires Runs(parse, Created(s, vmid, config, Some(target), outcome, made), later)
    requires NoneEnds(Created(s, vmid, config, Some(target), outcome, made), later, vmid, VmPlacement(target, Pending, made, None))
    ensures forall i :: 0 <= i < |later| && later[i].ReconcileVmPlacements? ==> vmid !in DispatchIds(later[i].dispatches)
    ensures Holds(After(Created(s, vmid, config, Some(target), outcome, made), later), vmid, VmPlacement(target, Pending, made, None))
  {
    var t, e := Created(s, vmid, config, Some(target), outcome, made), VmPlacement(target, Pending, made, None);
    CreateKeepsInv(s, vmid, config, Some(target), outcome, made);
    CreateReserves(s, vmid, config, target, outcome, made);
    ReservationOverRuns(parse, t, later, vmid, e);
    ThroughoutReachesEnd(t, later, vmid, e);
  }

  lemma {:induction false} ThroughoutReachesEnd(s: Sched, steps: seq<Step>, v: VmId, e: VmPlacement)
    requires HoldsThroughout(s, steps, v, e)
    ensures Holds(After(s, steps), v, e)
    decreases |steps|
  {
    if steps != [] {
      ThroughoutReachesEnd(Next(s, steps[0]), steps[1..], v, e);
    }
  }
}
