/**
 * The agent's VM table, usage counters, membership revision and bounded change history
 * (`actors/agent_actor.rs`).  `AgentState` and its functions are the specification of the
 * class `AgentActor`.
 */
module Agent {
  import opened Prelude
  import opened Membership

  datatype VmCacheData = VmCacheData(actor: ActorId, vcpus: U32, memory: U64)

  datatype AgentState = AgentState(
    hostname: string,
    vcpus: U32,
    memory: U64,
    reservedVcpus: U32,
    metadata: Metadata,
    usedVcpus: U32,
    usedMemory: U64,
    revision: U64,
    history: seq<MembershipChange>,
    vms: map<VmId, VmCacheData>)

  // ----- specification of the operations -----

  function LatestEntries(history: seq<MembershipChange>): seq<MembershipChange> {
    if |history| > STATUS_CHANGE_HISTORY_LIMIT
    then history[|history| - STATUS_CHANGE_HISTORY_LIMIT..]
    else history
  }

  function Recorded(s: AgentState, vmid: VmId, added: bool): AgentState {
    var revision := SatAdd(U64_MAX, s.revision, 1);
    s.(revision := revision,
       history := LatestEntries(s.history + [MembershipChange(revision, vmid, added)]))
  }

  function Inserted(s: AgentState, vmid: VmId, data: VmCacheData): AgentState {
    var released := if vmid in s.vms then s.vms[vmid] else VmCacheData(0, 0, 0);
    var recorded := if vmid in s.vms then s else Recorded(s, vmid, true);
    recorded.(
      vms := s.vms[vmid := data],
      usedVcpus := SatAdd(U32_MAX, SatSub(s.usedVcpus, released.vcpus), data.vcpus),
      usedMemory := SatAdd(U64_MAX, SatSub(s.usedMemory, released.memory), data.memory))
  }

  function Removed(s: AgentState, vmid: VmId): AgentState {
    if vmid !in s.vms then s else
      Recorded(s, vmid, false).(
        vms := s.vms - {vmid},
        usedVcpus := SatSub(s.usedVcpus, s.vms[vmid].vcpus),
        usedMemory := SatSub(s.usedMemory, s.vms[vmid].memory))
  }

  function RemovedAll(s: AgentState, order: seq<VmId>): AgentState
    decreases |order|
  {
    if order == [] then s else RemovedAll(Removed(s, order[0]), order[1..])
  }

  function HostedBy(s: AgentState, actor: ActorId): set<VmId> {
    set v | v in s.vms && s.vms[v].actor == actor
  }

  function LatestChanges(history: seq<MembershipChange>, since: nat): map<VmId, bool> {
    if history == [] then map[] else
      var last := history[|history| - 1];
      var earlier := LatestChanges(history[..|history| - 1], since);
      if last.revision > since then earlier[last.vmid := last.added] else earlier
  }

  function With(latest: map<VmId, bool>, added: bool): set<VmId> {
    set v | v in latest && latest[v] == added
  }

  predicate NeedsSnapshot(s: AgentState, since: U64, initial: bool) {
    || initial
    || since > s.revision
    || (s.history != [] && SatAdd(U64_MAX, since, 1) < s.history[0].revision)
  }

  /** The reply to a status poll: a snapshot, or the compacted changes after `since`. */
  function Status(s: AgentState, since: U64, initial: bool): StatusUpdate {
    var usedVcpus := SatAdd(U32_MAX, s.usedVcpus, s.reservedVcpus);
    if NeedsSnapshot(s, since, initial) then
      Full(s.revision,
           AgentStatus(s.hostname, s.vcpus, s.memory, usedVcpus, s.usedMemory, SortedIds(s.vms.Keys), s.metadata))
    else
      var latest := LatestChanges(s.history, since);
      Delta(s.revision,
            SortedIds(With(latest, true)),
            SortedIds(With(latest, false)),
            usedVcpus,
            s.usedMemory)
  }

  /** The usage and the identity that a poll reply reports, whether snapshot or delta. */
  lemma StatusReportsUsage(s: AgentState, since: U64, initial: bool)
    ensures match Status(s, since, initial)
      case Full(_, status) =>
        && status.usedVcpus == Min(U32_MAX, s.usedVcpus + s.reservedVcpus) && status.usedRam == s.usedMemory
        && status.hostname == s.hostname && status.vcpus == s.vcpus
        && status.ram == s.memory && status.metadata == s.metadata
      case Delta(_, _, _, usedVcpus, usedRam) =>
        usedVcpus == Min(U32_MAX, s.usedVcpus + s.reservedVcpus) && usedRam == s.usedMemory
  {
  }

  /** Removing VMs one by one leaves the others with their data and numbers every removal. */
  lemma {:induction false} RemovedAllIsExact(s: AgentState, order: seq<VmId>)
    requires NoDuplicates(order) && Elems(order) <= s.vms.Keys
    ensures RemovedAll(s, order).vms == s.vms - Elems(order)
    ensures RemovedAll(s, order).revision == Min(U64_MAX, s.revision + |order|)
    decreases |order|
  {
    if order != [] {
      var rest := order[1..];
      assert order == [order[0]] + rest;
      assert Elems(order) == {order[0]} + Elems(rest);
      assert order[0] !in Elems(rest);
      RemovedAllIsExact(Removed(s, order[0]), rest);
      assert s.vms - {order[0]} - Elems(rest) == s.vms - Elems(order);
    }
  }

  /** Exactly the VMs of another actor survive an actor's death, each with its data. */
  lemma LinkDeathIsExact(s: AgentState, id: ActorId, order: seq<VmId>)
    requires NoDuplicates(order) && Elems(order) == HostedBy(s, id)
    ensures var t := RemovedAll(s, order);
      && (forall v :: v in t.vms <==> v in s.vms && s.vms[v].actor != id)
      && (forall v :: v in t.vms ==> t.vms[v] == s.vms[v])
      && |order| + |t.vms| == |s.vms|
      && t.revision == Min(U64_MAX, s.revision + |order|)
  {
    RemovedAllIsExact(s, order);
    RemovalCount(s.vms.Keys, order);
    assert (s.vms - Elems(order)).Keys == s.vms.Keys - Elems(order);
  }

  lemma {:induction false} RemovalCount(ids: set<VmId>, order: seq<VmId>)
    requires NoDuplicates(order) && Elems(order) <= ids
    ensures |ids - Elems(order)| + |order| == |ids|
    decreases |order|
  {
    if order == [] {
      assert ids - Elems(order) == ids;
    } else {
      var rest := order[1..];
      assert order == [order[0]] + rest;
      assert Elems(order) == {order[0]} + Elems(rest);
      assert order[0] !in Elems(rest);
      RemovalCount(ids - {order[0]}, rest);
      assert ids - {order[0]} - Elems(rest) == ids - Elems(order);
    }
  }

  // ----- the actor -----

  class AgentActor {
    const hostname: string
    const vcpus: U32
    const memory: U64
    const reservedVcpus: U32
    const metadata: Metadata
    var usedVcpus: U32
    var usedMemory: U64
    var revision: U64
    var history: seq<MembershipChange>
    var vms: map<VmId, VmCacheData>

    function View(): AgentState
      reads this
    {
      AgentState(hostname, vcpus, memory, reservedVcpus, metadata, usedVcpus, usedMemory, revision, history, vms)
    }

    constructor (hostname: string, vcpus: U32, memory: U64, reservedVcpus: U32, metadata: Metadata)
      ensures View() == AgentState(hostname, vcpus, memory, reservedVcpus, metadata, 0, 0, 0, [], map[])
    {
      this.hostname, this.vcpus, this.memory := hostname, vcpus, memory;
      this.reservedVcpus, this.metadata := reservedVcpus, metadata;
      usedVcpus, usedMemory, revision, history, vms := 0, 0, 0, [], map[];
    }

    method RecordMembershipChange(vmid: VmId, added: bool)
      modifies this`revision, this`history
      ensures View() == Recorded(old(View()), vmid, added)
    {
      revision := SatAdd(U64_MAX, revision, 1);
      history := history + [MembershipChange(revision, vmid, added)];
      ghost var pushed := history;
      while |history| > STATUS_CHANGE_HISTORY_LIMIT
        invariant |history| <= |pushed| && history == pushed[|pushed| - |history|..]
        invariant |history| >= Min(STATUS_CHANGE_HISTORY_LIMIT, |pushed|)
        modifies this`history
      {
        history := history[1..];
      }
    }

    method InsertVm(vmid: VmId, data: VmCacheData)
      modifies this`usedVcpus, this`usedMemory, this`revision, this`history, this`vms
      ensures View() == Inserted(old(View()), vmid, data)
      ensures vms == old(vms)[vmid := data]
    {
      if vmid in vms {
        var previous := vms[vmid];
        vms := vms[vmid := data];
        usedVcpus := SatSub(usedVcpus, previous.vcpus);
        usedMemory := SatSub(usedMemory, previous.memory);
      } else {
        vms := vms[vmid := data];
        RecordMembershipChange(vmid, true);
      }
      usedVcpus := SatAdd(U32_MAX, usedVcpus, data.vcpus);
      usedMemory := SatAdd(U64_MAX, usedMemory, data.memory);
    }

    method RemoveVm(vmid: VmId) returns (removed: Option<VmCacheData>)
      modifies this`usedVcpus, this`usedMemory, this`revision, this`history, this`vms
      ensures View() == Removed(old(View()), vmid)
      ensures vms == old(vms) - {vmid}
      ensures removed == if vmid in old(vms) then Some(old(vms)[vmid]) else None
    {
      if vmid !in vms {
        return None;
      }
      var data := vms[vmid];
      vms := vms - {vmid};
      RecordMembershipChange(vmid, false);
      usedVcpus := SatSub(usedVcpus, data.vcpus);
      usedMemory := SatSub(usedMemory, data.memory);
      return Some(data);
    }

    /** The VMs of one actor, in the table's own (unspecified) iteration order. */
    method CollectHosted(id: ActorId) returns (vmids: seq<VmId>)
      ensures NoDuplicates(vmids)
      ensures forall v :: v in vmids <==> v in vms && vms[v].actor == id
      ensures Elems(vmids) == HostedBy(View(), id)
    {
      var hosted := set v | v in vms && vms[v].actor == id;
      ghost var all := hosted;
      vmids := [];
      while hosted != {}
        invariant NoDuplicates(vmids) && Elems(vmids) !! hosted && Elems(vmids) + hosted == all
        decreases |hosted|
      {
        var vmid :| vmid in hosted;
        hosted := hosted - {vmid};
        assert Elems(vmids + [vmid]) == Elems(vmids) + {vmid};
        assert forall i :: 0 <= i < |vmids| ==> vmids[i] in Elems(vmids);
        vmids := vmids + [vmid];
      }
      assert forall v :: v in vmids <==> v in Elems(vmids);
    }

    /** Drops every VM whose actor died, in the table's own (unspecified) iteration order. */
    method OnLinkDied(id: ActorId) returns (ghost order: seq<VmId>)
      modifies this`usedVcpus, this`usedMemory, this`revision, this`history, this`vms
      ensures NoDuplicates(order) && Elems(order) == HostedBy(old(View()), id)
      ensures View() == RemovedAll(old(View()), order)
      ensures forall v :: v in vms <==> v in old(vms) && old(vms)[v].actor != id
      ensures forall v :: v in vms ==> vms[v] == old(vms)[v]
      ensures |order| + |vms| == |old(vms)|
      ensures revision == Min(U64_MAX, old(revision) + |order|)
    {
      var dead := CollectHosted(id);
      order := dead;
      for i := 0 to |dead|
        invariant RemovedAll(View(), dead[i..]) == RemovedAll(old(View()), dead)
      {
        assert dead[i..][1..] == dead[i + 1..];
        var _ := RemoveVm(dead[i]);
      }
      LinkDeathIsExact(old(View()), id, order);
    }

    /** Answers a status poll, compacting the history to the last change of each VM. */
    method GetAgentStatus(since: U64, initial: bool) returns (reply: StatusUpdate)
      ensures reply == Status(View(), since, initial)
    {
      var used := SatAdd(U32_MAX, usedVcpus, reservedVcpus);
      if initial || since > revision || (history != [] && SatAdd(U64_MAX, since, 1) < history[0].revision) {
        return Full(revision,
                    AgentStatus(hostname, vcpus, memory, used, usedMemory, SortedIds(vms.Keys), metadata));
      }
      var latest: map<VmId, bool> := map[];
      for i := 0 to |history|
        invariant latest == LatestChanges(history[..i], since)
      {
        assert history[..i + 1][..i] == history[..i];
        if history[i].revision > since {
          latest := latest[history[i].vmid := history[i].added];
        }
      }
      assert history[..|history|] == history;
      var added: set<VmId>, removed: set<VmId> := {}, {};
      var todo := latest.Keys;
      while todo != {}
        invariant todo <= latest.Keys
        invariant added == set v | v in latest && v !in todo && latest[v]
        invariant removed == set v | v in latest && v !in todo && !latest[v]
        decreases |todo|
      {
        var vmid :| vmid in todo;
        todo := todo - {vmid};
        if latest[vmid] {
          added := added + {vmid};
        } else {
          removed := removed + {vmid};
        }
      }
      assert added == With(latest, true) && removed == With(latest, false);
      return Delta(revision, SortedIds(added), SortedIds(removed), used, usedMemory);
    }
  }
}
