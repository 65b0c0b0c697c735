/**
 * Snapshots and discoveries seen agent by agent: what a full snapshot does to every entry, and
 * when a snapshot and a VM's discovery may arrive in either order.
 */
module ArrivalOrder {
  import opened Prelude
  import opened Membership
  import opened Policy
  import opened Placements
  import opened Scheduler
  import opened SchedulerInvariants

  /** The entry of a VM on one agent. */
  function EntryOn(entries: seq<VmPlacement>, b: ActorId): Option<VmPlacement> {
    var i := PositionOf(entries, b);
    if i < |entries| then Some(entries[i]) else None
  }

  function LifecycleOf(e: Option<VmPlacement>): Option<VmLifecycle> {
    if e.Some? then Some(e.value.lifecycle) else None
  }

  function LifecycleOn(entries: seq<VmPlacement>, b: ActorId): Option<VmLifecycle> {
    LifecycleOf(EntryOn(entries, b))
  }

  /** The entry after confirmation: the old one refreshed, or a new observation. */
  function ConfirmedOn(e: Option<VmPlacement>, b: ActorId, now: nat): VmPlacement {
    VmPlacement(b, Running, if e.Some? then e.value.createdAt else now, Some(now))
  }

  lemma ConfirmFirstEntry(entries: seq<VmPlacement>, a: ActorId, now: nat, b: ActorId)
    ensures EntryOn(ConfirmFirst(entries, a, now), b)
         == if b == a then Some(ConfirmedOn(EntryOn(entries, a), a, now)) else EntryOn(entries, b)
  {
    var after := ConfirmFirst(entries, a, now);
    var i := PositionOf(entries, b);
    if b == a || i < |entries| {
      PositionIs(after, b, i);
    } else {
      PositionIs(after, b, |after|);
    }
  }

  lemma {:induction false} ConfirmAcrossEntry(entries: seq<VmPlacement>, agents: seq<ActorId>, now: nat, b: ActorId)
    ensures EntryOn(ConfirmAcross(entries, agents, now), b)
         == if b in agents then Some(ConfirmedOn(EntryOn(entries, b), b, now)) else EntryOn(entries, b)
    decreases |agents|
  {
    if agents != [] {
      ConfirmFirstEntry(entries, agents[0], now, b);
      ConfirmAcrossEntry(ConfirmFirst(entries, agents[0], now), agents[1..], now, b);
      assert b in agents <==> b == agents[0] || b in agents[1..];
    }
  }

  lemma ConfirmEveryEntry(entries: seq<VmPlacement>, a: ActorId, now: nat, b: ActorId)
    ensures EntryOn(ConfirmEvery(entries, a, now), b)
         == if b == a && EntryOn(entries, a).Some? then Some(ConfirmedOn(EntryOn(entries, a), a, now)) else EntryOn(entries, b)
  {
    PositionIs(ConfirmEvery(entries, a, now), b, PositionOf(entries, b));
  }

  lemma WithPlacementEntry(entries: seq<VmPlacement>, a: ActorId, now: nat, b: ActorId)
    ensures EntryOn(WithPlacement(entries, a, now), b)
         == if b == a && EntryOn(entries, a).None? then Some(Observed(a, now)) else EntryOn(entries, b)
  {
    var after := WithPlacement(entries, a, now);
    var i := PositionOf(entries, b);
    if i < |entries| || b == a {
      PositionIs(after, b, i);
    } else {
      PositionIs(after, b, |after|);
    }
  }

  lemma EntryOnTail(entries: seq<VmPlacement>, b: ActorId)
    requires entries != []
    ensures EntryOn(entries, b) == if entries[0].agent == b then Some(entries[0]) else EntryOn(entries[1..], b)
  {
  }

  lemma NoEntry(entries: seq<VmPlacement>, b: ActorId)
    requires forall e :: e in entries ==> e.agent != b
    ensures EntryOn(entries, b) == None
  {
  }

  lemma {:induction false} RetainEntry(entries: seq<VmPlacement>, rule: Keep, b: ActorId)
    requires WellPlaced(entries)
    ensures EntryOn(Retain(entries, rule), b)
         == if EntryOn(entries, b).Some? && Keeps(rule, EntryOn(entries, b).value) then EntryOn(entries, b) else None
  {
    if entries != [] {
      var rest := Retain(entries[1..], rule);
      EntryOnTail(entries, b);
      if Keeps(rule, entries[0]) {
        assert ([entries[0]] + rest)[1..] == rest;
        EntryOnTail([entries[0]] + rest, b);
      }
      if entries[0].agent == b {
        RetainKeepsMembers(entries[1..], rule);
        NoEntry(rest, b);
      } else {
        RetainEntry(entries[1..], rule, b);
      }
    }
  }

  // ----- exact snapshot reconciliation -----

  /** What a snapshot leaves of an entry on the reporting agent. */
  ghost function AfterSnapshot(e: Option<VmPlacement>, a: ActorId, reported: bool, now: nat): Option<VmPlacement> {
    if reported then Some(ConfirmedOn(e, a, now))
    else if e.None? then None
    else if e.value.lifecycle.Pending? then (if Age(now, e.value.createdAt) < 120_000_000_000 then e else None)
    else if e.value.lastConfirmedAt.Some? && Age(now, e.value.lastConfirmedAt.value) < 30_000_000_000 then e
    else None
  }

  lemma SnapshotEntry(entries: seq<VmPlacement>, a: ActorId, reported: bool, known: bool, now: nat, b: ActorId)
    requires WellPlaced(entries) && (known || entries == [])
    ensures EntryOn(SnapshotEntries(entries, a, reported, known, now), b)
         == if b != a then EntryOn(entries, b)
            else if reported && !known then None
            else AfterSnapshot(EntryOn(entries, a), a, reported, now)
  {
    if !reported {
      RetainEntry(entries, UnlessStaleOn(a, now), b);
    } else {
      ConfirmEveryEntry(entries, a, now, b);
      WithPlacementEntry(entries, a, now, b);
      WithPlacementEntry(entries, a, now, a);
      ConfirmEveryEntry(WithPlacement(entries, a, now), a, now, b);
    }
  }

  /**
   * Exactly what an accepted snapshot of `a` does: other agents' entries are untouched; each
   * reported known VM runs on `a`, confirmed now; an unreported entry on `a` survives if and
   * only if it is pending and under 120 s old, or running and confirmed under 30 s ago; and
   * every list keeps at most one entry per agent.
   */
  lemma SnapshotIsExact(s: Sched, a: ActorId, revision: U64, status: AgentStatus, now: nat, v: VmId, b: ActorId)
    requires Inv(s) && StrictlySorted(status.vms)
    ensures var after := Get(SnapshotAccepted(s, a, revision, status, now).placements, v);
      var before := Get(s.placements, v);
      && WellPlaced(after)
      && (b != a ==> EntryOn(after, b) == EntryOn(before, b))
      && (v in s.manifests ==> EntryOn(after, a) == AfterSnapshot(EntryOn(before, a), a, v in status.vms, now))
      && (v !in s.manifests ==> after == [])
  {
    SnapshotKeepsInv(s, a, revision, status, now);
    SnapshotEntry(Get(s.placements, v), a, v in Elems(status.vms), v in s.manifests, now, b);
    SnapshotEntry(Get(s.placements, v), a, v in Elems(status.vms), v in s.manifests, now, a);
  }

  // ----- the other reconciliations, entry by entry -----

  /**
   * Exactly what an accepted delta of `a` does, even if its lists overlap: an added known VM is
   * confirmed on `a`, a removed one then loses its running entry on `a` but keeps a reservation
   * there, and nothing else changes.
   */
  lemma DeltaIsExact(s: Sched, a: ActorId, update: StatusUpdate, now: nat, v: VmId, b: ActorId)
    requires Inv(s) && a in s.agents && update.Delta?
    ensures var before := EntryOn(Get(s.placements, v), b);
      var confirmed := if v in update.added && v in s.manifests then Some(ConfirmedOn(before, a, now)) else before;
      EntryOn(Get(DeltaAccepted(s, a, update, now).placements, v), b)
      == if b != a then before
         else if v in update.removed && confirmed.Some? && confirmed.value.lifecycle.Running? then None
         else confirmed
  {
    var entries := Get(s.placements, v);
    assert v in update.added <==> v in Elems(update.added);
    assert v in update.removed <==> v in Elems(update.removed);
    DeltaEntry(entries, a, v in update.added && v in s.manifests, v in update.removed, now, b);
  }

  lemma DeltaEntry(entries: seq<VmPlacement>, a: ActorId, confirm: bool, remove: bool, now: nat, b: ActorId)
    requires WellPlaced(entries)
    ensures var before := EntryOn(entries, b);
      var confirmed := if confirm then Some(ConfirmedOn(before, a, now)) else before;
      EntryOn(DeltaEntries(entries, a, confirm, remove, now), b)
      == if b != a then before
         else if remove && confirmed.Some? && confirmed.value.lifecycle.Running? then None
         else confirmed
  {
    ConfirmFirstEntry(entries, a, now, b);
    ConfirmFirstWellPlaced(entries, a, now);
    RetainEntry(if confirm then ConfirmFirst(entries, a, now) else entries, UnlessRunningOn(a), b);
  }

  /** A departed agent loses its entries, except of VMs it reported that are still reachable. */
  lemma AgentCleanupIsExact(s: Sched, a: ActorId, v: VmId, b: ActorId)
    requires Inv(s)
    ensures var before := EntryOn(Get(s.placements, v), b);
      var kept := a in s.index && v in s.index[a] && HasActor(s.vmActors, v);
      EntryOn(Get(AgentCleaned(s, a).placements, v), b) == if b == a && !kept then None else before
  {
    RetainEntry(Get(s.placements, v), UnlessOn(a), b);
  }

  /**
   * A departed VM actor costs its VM exactly the running entries that no agent confirms, and
   * only when it was the last discovered actor of that VM.
   */
  lemma VmCleanupIsExact(s: Sched, actor: ActorId, v: VmId, b: ActorId)
    requires Inv(s)
    ensures var before := EntryOn(Get(s.placements, v), b);
      var last := actor in s.actorVms && s.actorVms[actor] == v && !HasActor(ActorForgotten(s.vmActors, actor), v);
      var lost := before.Some? && before.value.lifecycle.Running? && b !in AgentsSeeing(s.index, v);
      EntryOn(Get(VmCleaned(s, actor).placements, v), b) == if last && lost then None else before
  {
    RetainEntry(Get(s.placements, v), IfPendingOrOn(AgentsSeeing(s.index, v)), b);
  }

  /** Expiry drops exactly the reservations of at least 120 s whose VM has no discovered actor. */
  lemma ExpiryIsExact(s: Sched, now: nat, v: VmId, b: ActorId)
    requires Inv(s)
    ensures var before := EntryOn(Get(s.placements, v), b);
      var overdue := before.Some? && before.value.lifecycle.Pending? && Age(now, before.value.createdAt) >= 120_000_000_000;
      EntryOn(Get(Expired(s, now).placements, v), b) == if overdue && !HasActor(s.vmActors, v) then None else before
  {
    RetainEntry(Get(s.placements, v), UnlessPendingExpired(now), b);
  }

  // ----- snapshot and discovery in either order -----

  datatype Arrivals = Arrivals(
    a: ActorId, revision: U64, status: AgentStatus, actor: ActorId, vmid: VmId, manifest: Manifest, now: nat)

  /** The snapshot first, then the discovery; `order` lists the agents indexed in between. */
  function SnapshotFirst(s: Sched, x: Arrivals, order: seq<ActorId>): Sched {
    VmReported(SnapshotAccepted(s, x.a, x.revision, x.status, x.now), x.actor, x.vmid, Some(x.manifest), order, x.now)
  }

  /** The discovery first, then the snapshot. */
  function DiscoveryFirst(s: Sched, x: Arrivals, order: seq<ActorId>): Sched {
    SnapshotAccepted(VmReported(s, x.actor, x.vmid, Some(x.manifest), order, x.now), x.a, x.revision, x.status, x.now)
  }

  /** The discovered VM's entry on agent `b` at the end, when the snapshot came first. */
  lemma IndexedInBetween(s: Sched, x: Arrivals, order: seq<ActorId>, b: ActorId)
    requires Elems(order) == AgentsSeeing(s.index[x.a := Elems(x.status.vms)], x.vmid)
    ensures b in order <==> if b == x.a then x.vmid in x.status.vms else b in AgentsSeeing(s.index, x.vmid)
  {
    assert b in order <==> b in Elems(order);
    assert x.vmid in x.status.vms <==> x.vmid in Elems(x.status.vms);
  }

  lemma SnapshotFirstList(s: Sched, x: Arrivals, order: seq<ActorId>)
    ensures Get(SnapshotFirst(s, x, order).placements, x.vmid)
         == ConfirmAcross(Get(SnapshotAccepted(s, x.a, x.revision, x.status, x.now).placements, x.vmid), order, x.now)
  {
  }

  /** An entry on the reporting agent that the discovery confirms once more stays as it is. */
  lemma ConfirmedAgain(e: Option<VmPlacement>, a: ActorId, now: nat)
    ensures Some(ConfirmedOn(AfterSnapshot(e, a, true, now), a, now)) == AfterSnapshot(e, a, true, now)
  {
  }

  lemma SnapshotFirstEntry(s: Sched, x: Arrivals, order: seq<ActorId>, b: ActorId)
    requires Inv(s) && StrictlySorted(x.status.vms)
    requires Elems(order) == AgentsSeeing(s.index[x.a := Elems(x.status.vms)], x.vmid)
    ensures var e := EntryOn(Get(s.placements, x.vmid), b);
      EntryOn(Get(SnapshotFirst(s, x, order).placements, x.vmid), b)
      == if b == x.a then AfterSnapshot(e, b, x.vmid in x.status.vms, x.now)
         else if b in AgentsSeeing(s.index, x.vmid) then Some(ConfirmedOn(e, b, x.now))
         else e
  {
    var t := SnapshotAccepted(s, x.a, x.revision, x.status, x.now);
    SnapshotIsExact(s, x.a, x.revision, x.status, x.now, x.vmid, b);
    SnapshotFirstList(s, x, order);
    ConfirmAcrossEntry(Get(t.placements, x.vmid), order, x.now, b);
    ConfirmedAgain(EntryOn(Get(s.placements, x.vmid), b), b, x.now);
    IndexedInBetween(s, x, order, b);
  }

  /** The same when the discovery came first: it refreshes what the old index of `a` names. */
  lemma DiscoveryFirstEntry(s: Sched, x: Arrivals, order: seq<ActorId>, b: ActorId)
    requires Inv(s) && StrictlySorted(x.status.vms)
    requires Elems(order) == AgentsSeeing(s.index, x.vmid)
    ensures var e := EntryOn(Get(s.placements, x.vmid), b);
      var seen := b in AgentsSeeing(s.index, x.vmid);
      EntryOn(Get(DiscoveryFirst(s, x, order).placements, x.vmid), b)
      == if b == x.a then AfterSnapshot(if seen then Some(ConfirmedOn(e, b, x.now)) else e, b, x.vmid in x.status.vms, x.now)
         else if seen then Some(ConfirmedOn(e, b, x.now))
         else e
  {
    var t := VmReported(s, x.actor, x.vmid, Some(x.manifest), order, x.now);
    VmReportKeepsInv(s, x.actor, x.vmid, Some(x.manifest), order, x.now);
    SnapshotIsExact(t, x.a, x.revision, x.status, x.now, x.vmid, b);
    ConfirmAcrossEntry(Get(s.placements, x.vmid), order, x.now, b);
    assert b in order <==> b in Elems(order);
  }

  /** Other VMs end with the very same lists. */
  lemma ReportTouchesOneVm(s: Sched, x: Arrivals, order: seq<ActorId>, v: VmId)
    requires v != x.vmid
    ensures var t := VmReported(s, x.actor, x.vmid, Some(x.manifest), order, x.now);
      Get(t.placements, v) == Get(s.placements, v) && (v in t.manifests <==> v in s.manifests)
  {
  }

  lemma OrderOnlyTouchesTheVm(s: Sched, x: Arrivals, after: seq<ActorId>, before: seq<ActorId>, v: VmId)
    requires v != x.vmid
    ensures Get(SnapshotFirst(s, x, after).placements, v) == Get(DiscoveryFirst(s, x, before).placements, v)
  {
    var t := VmReported(s, x.actor, x.vmid, Some(x.manifest), before, x.now);
    SnapshotList(s.manifests, s.placements, x.a, Elems(x.status.vms), x.now, v);
    ReportTouchesOneVm(SnapshotAccepted(s, x.a, x.revision, x.status, x.now), x, after, v);
    ReportTouchesOneVm(s, x, before, v);
    SnapshotList(t.manifests, t.placements, x.a, Elems(x.status.vms), x.now, v);
  }

  /** All other maps agree whatever the order. */
  lemma OrderLeavesOtherMapsAlike(s: Sched, x: Arrivals, after: seq<ActorId>, before: seq<ActorId>)
    ensures var t, u := SnapshotFirst(s, x, after), DiscoveryFirst(s, x, before);
      u == t.(placements := u.placements)
  {
  }

  lemma NewerSnapshotIsAccepted(s: Sched, x: Arrivals)
    requires x.a in s.agents ==> s.agents[x.a].revision < x.revision
    ensures Next(s, AgentUpdated(x.a, Full(x.revision, x.status), x.now))
         == SnapshotAccepted(s, x.a, x.revision, x.status, x.now)
  {
  }

  /** For an agent not cached yet, or cached at an older revision, these are the two runs. */
  lemma ArrivalsAreRuns(s: Sched, x: Arrivals, after: seq<ActorId>, before: seq<ActorId>)
    requires x.a in s.agents ==> s.agents[x.a].revision < x.revision
    ensures var full := AgentUpdated(x.a, Full(x.revision, x.status), x.now);
      && Next(Next(s, full), VmUpdated(x.actor, x.vmid, Some(x.manifest), after, x.now)) == SnapshotFirst(s, x, after)
      && Next(Next(s, VmUpdated(x.actor, x.vmid, Some(x.manifest), before, x.now)), full) == DiscoveryFirst(s, x, before)
  {
    NewerSnapshotIsAccepted(s, x);
    NewerSnapshotIsAccepted(VmReported(s, x.actor, x.vmid, Some(x.manifest), before, x.now), x);
  }

  /** When the VM's entry on the reporting agent comes out the same either way. */
  ghost predicate OrderIndifferent(s: Sched, x: Arrivals) {
    || x.vmid in x.status.vms
    || x.a !in AgentsSeeing(s.index, x.vmid)
    || (var e := EntryOn(Get(s.placements, x.vmid), x.a);
        e.Some? && e.value.lifecycle.Running? && RunningIsFresh(e.value, x.now))
  }

  ghost predicate SameLifecycles(t: Sched, u: Sched) {
    forall v: VmId, b: ActorId :: LifecycleOn(Get(t.placements, v), b) == LifecycleOn(Get(u.placements, v), b)
  }

  /** The same for one entry: `seen` if the old index named the VM on the reporting agent. */
  lemma EntryDecides(e: Option<VmPlacement>, a: ActorId, reported: bool, seen: bool, now: nat)
    ensures var refreshed := if seen then Some(ConfirmedOn(e, a, now)) else e;
      LifecycleOf(AfterSnapshot(e, a, reported, now)) == LifecycleOf(AfterSnapshot(refreshed, a, reported, now))
      <==> reported || !seen || (e.Some? && e.value.lifecycle.Running? && RunningIsFresh(e.value, now))
  {
  }

  lemma ReportingAgentDecides(s: Sched, x: Arrivals, after: seq<ActorId>, before: seq<ActorId>)
    requires Inv(s) && StrictlySorted(x.status.vms)
    requires Elems(after) == AgentsSeeing(s.index[x.a := Elems(x.status.vms)], x.vmid)
    requires Elems(before) == AgentsSeeing(s.index, x.vmid)
    ensures LifecycleOn(Get(SnapshotFirst(s, x, after).placements, x.vmid), x.a)
         == LifecycleOn(Get(DiscoveryFirst(s, x, before).placements, x.vmid), x.a)
       <==> OrderIndifferent(s, x)
  {
    SnapshotFirstEntry(s, x, after, x.a);
    DiscoveryFirstEntry(s, x, before, x.a);
    var e := EntryOn(Get(s.placements, x.vmid), x.a);
    EntryDecides(e, x.a, x.vmid in x.status.vms, x.a in AgentsSeeing(s.index, x.vmid), x.now);
  }

  /**
   * Arrival order does not matter for the (agent, lifecycle) placements of any VM if and only
   * if the snapshot reports the VM, or the agent's old index did not name it, or its running
   * entry on the agent is still fresh.
   */
  lemma ArrivalOrderIndependence(s: Sched, x: Arrivals, after: seq<ActorId>, before: seq<ActorId>)
    requires Inv(s) && StrictlySorted(x.status.vms)
    requires Elems(after) == AgentsSeeing(s.index[x.a := Elems(x.status.vms)], x.vmid)
    requires Elems(before) == AgentsSeeing(s.index, x.vmid)
    ensures SameLifecycles(SnapshotFirst(s, x, after), DiscoveryFirst(s, x, before)) <==> OrderIndifferent(s, x)
  {
    var t, u := SnapshotFirst(s, x, after), DiscoveryFirst(s, x, before);
    ReportingAgentDecides(s, x, after, before);
    if OrderIndifferent(s, x) {
      forall v: VmId, b: ActorId ensures LifecycleOn(Get(t.placements, v), b) == LifecycleOn(Get(u.placements, v), b) {
        if v != x.vmid {
          OrderOnlyTouchesTheVm(s, x, after, before, v);
        } else if b != x.a {
          SnapshotFirstEntry(s, x, after, b);
          DiscoveryFirstEntry(s, x, before, b);
        }
      }
    }
  }

  /** For a snapshot that reports the VM, even time stamps agree. */
  lemma ReportedVmEntriesAgree(s: Sched, x: Arrivals, after: seq<ActorId>, before: seq<ActorId>, v: VmId, b: ActorId)
    requires Inv(s) && StrictlySorted(x.status.vms) && x.vmid in x.status.vms
    requires Elems(after) == AgentsSeeing(s.index[x.a := Elems(x.status.vms)], x.vmid)
    requires Elems(before) == AgentsSeeing(s.index, x.vmid)
    ensures EntryOn(Get(SnapshotFirst(s, x, after).placements, v), b)
         == EntryOn(Get(DiscoveryFirst(s, x, before).placements, v), b)
  {
    if v != x.vmid {
      OrderOnlyTouchesTheVm(s, x, after, before, v);
    } else {
      SnapshotFirstEntry(s, x, after, b);
      DiscoveryFirstEntry(s, x, before, b);
    }
  }
}
