/** Placement entries of one VM: expiry, confirmation and reservation (`scheduler_actor/cache.rs`). */
module Placements {
  import opened Prelude

  const TICKS_PER_SECOND: nat := 1_000_000_000
  const UNRESOLVED_VM_CACHE_TIMEOUT: nat := 120 * TICKS_PER_SECOND
  const UNCONFIRMED_RUNNING_PLACEMENT_TIMEOUT: nat := 30 * TICKS_PER_SECOND

  datatype VmLifecycle = Pending | Running

  datatype VmPlacement = VmPlacement(
    agent: ActorId, lifecycle: VmLifecycle, createdAt: nat, lastConfirmedAt: Option<nat>)

  /** `Instant::duration_since`, which saturates at zero. */
  function Age(now: nat, then_: nat): nat {
    SatSub(now, then_)
  }

  function Reserved(agent: ActorId, now: nat): VmPlacement {
    VmPlacement(agent, Pending, now, None)
  }

  function Observed(agent: ActorId, now: nat): VmPlacement {
    VmPlacement(agent, Running, now, Some(now))
  }

  predicate PendingIsFresh(e: VmPlacement, now: nat) {
    Age(now, e.createdAt) < UNRESOLVED_VM_CACHE_TIMEOUT
  }

  predicate RunningIsFresh(e: VmPlacement, now: nat) {
    e.lastConfirmedAt.Some? && Age(now, e.lastConfirmedAt.value) < UNCONFIRMED_RUNNING_PLACEMENT_TIMEOUT
  }

  // ----- `retain` with the conditions used by the scheduler -----

  datatype Keep =
    | UnlessPendingExpired(now: nat)
    | UnlessOn(agent: ActorId)
    | UnlessRunningOn(agent: ActorId)
    | IfPendingOrOn(agents: set<ActorId>)
    | UnlessStaleOn(agent: ActorId, now: nat)

  predicate Keeps(rule: Keep, e: VmPlacement) {
    match rule
    case UnlessPendingExpired(now) => !e.lifecycle.Pending? || PendingIsFresh(e, now)
    case UnlessOn(agent) => e.agent != agent
    case UnlessRunningOn(agent) => e.agent != agent || e.lifecycle.Pending?
    case IfPendingOrOn(agents) => e.lifecycle.Pending? || e.agent in agents
    case UnlessStaleOn(agent, now) =>
      || e.agent != agent
      || (if e.lifecycle.Pending? then PendingIsFresh(e, now) else RunningIsFresh(e, now))
  }

  function Retain(entries: seq<VmPlacement>, rule: Keep): seq<VmPlacement> {
    if entries == [] then []
    else if Keeps(rule, entries[0]) then [entries[0]] + Retain(entries[1..], rule)
    else Retain(entries[1..], rule)
  }

  // ----- confirmation by agent status -----

  function PositionOf(entries: seq<VmPlacement>, agent: ActorId): (i: nat)
    ensures i <= |entries|
    ensures i < |entries| ==> entries[i].agent == agent
    ensures forall k :: 0 <= k < i ==> entries[k].agent != agent
  {
    if entries == [] || entries[0].agent == agent then 0 else 1 + PositionOf(entries[1..], agent)
  }

  predicate PlacedOn(entries: seq<VmPlacement>, agent: ActorId) {
    exists i :: 0 <= i < |entries| && entries[i].agent == agent
  }

  function Confirmed(e: VmPlacement, now: nat): VmPlacement {
    e.(lifecycle := Running, lastConfirmedAt := Some(now))
  }

  /** A delta or discovery confirms the first entry on the agent, or records a new one. */
  function ConfirmFirst(entries: seq<VmPlacement>, agent: ActorId, now: nat): seq<VmPlacement> {
    var i := PositionOf(entries, agent);
    if i < |entries| then entries[i := Confirmed(entries[i], now)] else entries + [Observed(agent, now)]
  }

  /** A snapshot confirms every entry on the agent. */
  function ConfirmEvery(entries: seq<VmPlacement>, agent: ActorId, now: nat): (confirmed: seq<VmPlacement>)
    ensures |confirmed| == |entries|
    ensures forall i :: 0 <= i < |entries| ==>
      confirmed[i] == if entries[i].agent == agent then Confirmed(entries[i], now) else entries[i]
  {
    if entries == [] then []
    else [if entries[0].agent == agent then Confirmed(entries[0], now) else entries[0]]
         + ConfirmEvery(entries[1..], agent, now)
  }

  function WithPlacement(entries: seq<VmPlacement>, agent: ActorId, now: nat): seq<VmPlacement> {
    if PlacedOn(entries, agent) then entries else entries + [Observed(agent, now)]
  }

  function ConfirmAcross(entries: seq<VmPlacement>, agents: seq<ActorId>, now: nat): seq<VmPlacement>
    decreases |agents|
  {
    if agents == [] then entries else ConfirmAcross(ConfirmFirst(entries, agents[0], now), agents[1..], now)
  }

  /** The list of a VM after a delta that confirms it, removes it, or leaves it alone. */
  function DeltaEntries(entries: seq<VmPlacement>, a: ActorId, confirm: bool, remove: bool, now: nat): seq<VmPlacement> {
    var confirmed := if confirm then ConfirmFirst(entries, a, now) else entries;
    if remove then Retain(confirmed, UnlessRunningOn(a)) else confirmed
  }

  /** The list of a VM after a snapshot of the agent: `reported` in it or not, `known` or not. */
  function SnapshotEntries(entries: seq<VmPlacement>, a: ActorId, reported: bool, known: bool, now: nat): seq<VmPlacement> {
    if !reported then Retain(entries, UnlessStaleOn(a, now))
    else if known then ConfirmEvery(WithPlacement(entries, a, now), a, now)
    else ConfirmEvery(entries, a, now)
  }

  /** The list of a VM after its agent departed, unless the VM itself is still reachable. */
  function DepartedEntries(entries: seq<VmPlacement>, a: ActorId, reachable: bool): seq<VmPlacement> {
    if reachable then entries else Retain(entries, UnlessOn(a))
  }

  /** The list of a VM after periodic expiry, which spares VMs with a discovered actor. */
  function ExpiredEntries(entries: seq<VmPlacement>, discovered: bool, now: nat): seq<VmPlacement> {
    if discovered then entries else Retain(entries, UnlessPendingExpired(now))
  }

  // ----- reservations -----

  /** `amount` for every pending entry on the agent. */
  function ReservedOn(entries: seq<VmPlacement>, agent: ActorId, amount: nat): nat {
    if entries == [] then 0 else
      (if entries[0].lifecycle.Pending? && entries[0].agent == agent then amount else 0)
      + ReservedOn(entries[1..], agent, amount)
  }

  // ----- well-formed placement lists -----

  /** Distinct agents, at most one reservation, and confirmation exactly on running entries. */
  ghost predicate WellPlaced(entries: seq<VmPlacement>) {
    && (forall i, j :: 0 <= i < j < |entries| ==> entries[i].agent != entries[j].agent)
    && (forall i, j :: 0 <= i < j < |entries| ==> !(entries[i].lifecycle.Pending? && entries[j].lifecycle.Pending?))
    && (forall i :: 0 <= i < |entries| ==> (entries[i].lifecycle.Running? <==> entries[i].lastConfirmedAt.Some?))
  }

  lemma {:induction false} RetainKeepsMembers(entries: seq<VmPlacement>, rule: Keep)
    ensures forall e :: e in Retain(entries, rule) <==> e in entries && Keeps(rule, e)
  {
    if entries != [] {
      RetainKeepsMembers(entries[1..], rule);
    }
  }

  lemma {:induction false} RetainWellPlaced(entries: seq<VmPlacement>, rule: Keep)
    requires WellPlaced(entries)
    ensures WellPlaced(Retain(entries, rule))
  {
    if entries != [] {
      var rest := Retain(entries[1..], rule);
      RetainWellPlaced(entries[1..], rule);
      RetainKeepsMembers(entries[1..], rule);
      forall i | 0 <= i < |rest|
        ensures rest[i].agent != entries[0].agent
        ensures !(entries[0].lifecycle.Pending? && rest[i].lifecycle.Pending?)
      {
        assert rest[i] in rest;
        var k :| 0 <= k < |entries[1..]| && entries[1..][k] == rest[i];
        assert entries[k + 1] == rest[i];
      }
    }
  }

  lemma ConfirmFirstWellPlaced(entries: seq<VmPlacement>, agent: ActorId, now: nat)
    requires WellPlaced(entries)
    ensures WellPlaced(ConfirmFirst(entries, agent, now))
  {
  }

  lemma {:induction false} ConfirmAcrossWellPlaced(entries: seq<VmPlacement>, agents: seq<ActorId>, now: nat)
    requires WellPlaced(entries)
    ensures WellPlaced(ConfirmAcross(entries, agents, now))
    decreases |agents|
  {
    if agents != [] {
      ConfirmFirstWellPlaced(entries, agents[0], now);
      ConfirmAcrossWellPlaced(ConfirmFirst(entries, agents[0], now), agents[1..], now);
    }
  }

  lemma WithPlacementWellPlaced(entries: seq<VmPlacement>, agent: ActorId, now: nat)
    requires WellPlaced(entries)
    ensures WellPlaced(WithPlacement(entries, agent, now))
  {
  }

  lemma ConfirmEveryWellPlaced(entries: seq<VmPlacement>, agent: ActorId, now: nat)
    requires WellPlaced(entries)
    ensures WellPlaced(ConfirmEvery(entries, agent, now))
  {
  }

  lemma SnapshotWellPlaced(entries: seq<VmPlacement>, agent: ActorId, now: nat)
    requires WellPlaced(entries)
    ensures WellPlaced(ConfirmEvery(WithPlacement(entries, agent, now), agent, now))
  {
    WithPlacementWellPlaced(entries, agent, now);
    ConfirmEveryWellPlaced(WithPlacement(entries, agent, now), agent, now);
  }

  lemma PositionIs(entries: seq<VmPlacement>, b: ActorId, i: nat)
    requires i <= |entries| && (i < |entries| ==> entries[i].agent == b)
    requires forall k :: 0 <= k < i ==> entries[k].agent != b
    ensures PositionOf(entries, b) == i
  {
  }

  // ----- membership facts about single agents -----

  ghost predicate RunsOn(entries: seq<VmPlacement>, agent: ActorId) {
    exists e :: e in entries && e.agent == agent && e.lifecycle.Running?
  }

  lemma RetainKeepsRunning(entries: seq<VmPlacement>, rule: Keep, agent: ActorId)
    requires RunsOn(entries, agent)
    requires forall e :: e in entries && e.agent == agent && e.lifecycle.Running? ==> Keeps(rule, e)
    ensures RunsOn(Retain(entries, rule), agent)
  {
    RetainKeepsMembers(entries, rule);
    var e :| e in entries && e.agent == agent && e.lifecycle.Running?;
    assert e in Retain(entries, rule);
  }

  /** Confirmation makes the VM run on the agent and leaves the other agents' entries alone. */
  lemma ConfirmFirstMembers(entries: seq<VmPlacement>, agent: ActorId, now: nat)
    ensures RunsOn(ConfirmFirst(entries, agent, now), agent)
    ensures forall e: VmPlacement :: e.agent != agent ==> (e in ConfirmFirst(entries, agent, now) <==> e in entries)
  {
    var i := PositionOf(entries, agent);
    var after := ConfirmFirst(entries, agent, now);
    assert after[i] in after;
    forall e: VmPlacement | e.agent != agent ensures e in after <==> e in entries {
      if e in entries {
        var k :| 0 <= k < |entries| && entries[k] == e;
        assert after[k] == e;
      }
    }
  }

  lemma {:induction false} ConfirmAcrossMembers(entries: seq<VmPlacement>, agents: seq<ActorId>, now: nat)
    ensures forall a :: a in agents ==> RunsOn(ConfirmAcross(entries, agents, now), a)
    ensures forall e: VmPlacement :: e.agent !in agents ==> (e in ConfirmAcross(entries, agents, now) <==> e in entries)
    ensures forall a :: RunsOn(entries, a) ==> RunsOn(ConfirmAcross(entries, agents, now), a)
    decreases |agents|
  {
    if agents != [] {
      var first := ConfirmFirst(entries, agents[0], now);
      ConfirmFirstMembers(entries, agents[0], now);
      forall a | RunsOn(entries, a) ensures RunsOn(first, a) {
        var e :| e in entries && e.agent == a && e.lifecycle.Running?;
        if a != agents[0] {
          assert e in first;
        }
      }
      ConfirmAcrossMembers(first, agents[1..], now);
      assert forall a :: a in agents <==> a == agents[0] || a in agents[1..];
    }
  }

  lemma SnapshotRuns(entries: seq<VmPlacement>, agent: ActorId, now: nat)
    ensures RunsOn(ConfirmEvery(WithPlacement(entries, agent, now), agent, now), agent)
  {
    var before := WithPlacement(entries, agent, now);
    assert PlacedOn(before, agent) by {
      if !PlacedOn(entries, agent) {
        assert before[|entries|].agent == agent;
      }
    }
    var i :| 0 <= i < |before| && before[i].agent == agent;
    assert ConfirmEvery(before, agent, now)[i] in ConfirmEvery(before, agent, now);
  }

  // ----- reservation facts -----

  lemma {:induction false} NoPendingNoReservation(entries: seq<VmPlacement>, agent: ActorId, amount: nat)
    requires forall e :: e in entries && e.lifecycle.Pending? ==> e.agent != agent
    ensures ReservedOn(entries, agent, amount) == 0
  {
    if entries != [] {
      assert entries[0] in entries;
      NoPendingNoReservation(entries[1..], agent, amount);
    }
  }

  lemma {:induction false} PendingReserves(entries: seq<VmPlacement>, e: VmPlacement, amount: nat)
    requires e in entries && e.lifecycle.Pending?
    ensures ReservedOn(entries, e.agent, amount) >= amount
  {
    if entries[0] != e {
      PendingReserves(entries[1..], e, amount);
    }
  }

  lemma {:induction false} ReservedOnAppend(entries: seq<VmPlacement>, e: VmPlacement, agent: ActorId, amount: nat)
    ensures ReservedOn(entries + [e], agent, amount)
         == ReservedOn(entries, agent, amount) + if e.lifecycle.Pending? && e.agent == agent then amount else 0
  {
    if entries == [] {
      assert [] + [e] == [e];
      assert [e][1..] == [];
    } else {
      assert (entries + [e])[1..] == entries[1..] + [e];
      ReservedOnAppend(entries[1..], e, agent, amount);
    }
  }

  lemma {:induction false} RetainReservesNoMore(entries: seq<VmPlacement>, rule: Keep, agent: ActorId, amount: nat)
    ensures ReservedOn(Retain(entries, rule), agent, amount) <= ReservedOn(entries, agent, amount)
  {
    if entries != [] {
      RetainReservesNoMore(entries[1..], rule, agent, amount);
      if Keeps(rule, entries[0]) {
        assert Retain(entries, rule)[1..] == Retain(entries[1..], rule);
      }
    }
  }

  lemma {:induction false} ConfirmEveryReservesNoMore(
    entries: seq<VmPlacement>, confirming: ActorId, now: nat, agent: ActorId, amount: nat)
    ensures ReservedOn(ConfirmEvery(entries, confirming, now), agent, amount) <= ReservedOn(entries, agent, amount)
  {
    if entries != [] {
      ConfirmEveryReservesNoMore(entries[1..], confirming, now, agent, amount);
      assert ConfirmEvery(entries, confirming, now)[1..] == ConfirmEvery(entries[1..], confirming, now);
    }
  }

  lemma {:induction false} ConfirmFirstReservesNoMore(
    entries: seq<VmPlacement>, confirming: ActorId, now: nat, agent: ActorId, amount: nat)
    ensures ReservedOn(ConfirmFirst(entries, confirming, now), agent, amount) <= ReservedOn(entries, agent, amount)
  {
    if entries == [] {
      assert ConfirmFirst(entries, confirming, now) == [Observed(confirming, now)];
      assert [Observed(confirming, now)][1..] == [];
    } else {
      var after := ConfirmFirst(entries, confirming, now);
      if entries[0].agent == confirming {
        assert after[1..] == entries[1..];
      } else {
        assert after[0] == entries[0] && after[1..] == ConfirmFirst(entries[1..], confirming, now);
        ConfirmFirstReservesNoMore(entries[1..], confirming, now, agent, amount);
      }
    }
  }

  lemma WithPlacementReservesNoMore(entries: seq<VmPlacement>, placing: ActorId, now: nat, agent: ActorId, amount: nat)
    ensures ReservedOn(WithPlacement(entries, placing, now), agent, amount) == ReservedOn(entries, agent, amount)
  {
    ReservedOnAppend(entries, Observed(placing, now), agent, amount);
  }
}
