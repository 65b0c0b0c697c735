/** Agent status messages and their in-place application (`messages/agent.rs`). */
module Membership {
  import opened Prelude

  const STATUS_CHANGE_HISTORY_LIMIT: nat := 256

  datatype MembershipChange = MembershipChange(revision: U64, vmid: VmId, added: bool)

  datatype Metadata = Metadata(labels: map<string, string>, annotations: map<string, string>)

  datatype AgentStatus = AgentStatus(
    hostname: string,
    vcpus: U32,
    ram: U64,
    usedVcpus: U32,
    usedRam: U64,
    vms: seq<VmId>,
    metadata: Metadata)

  datatype StatusUpdate =
    | Full(revision: U64, status: AgentStatus)
    | Delta(revision: U64, added: seq<VmId>, removed: seq<VmId>, usedVcpus: U32, usedRam: U64)

  /** What every agent guarantees of the listings it sends: sorted, without duplicates. */
  ghost predicate Listed(update: StatusUpdate) {
    match update
    case Full(_, status) => StrictlySorted(status.vms)
    case Delta(_, added, removed, _, _) => StrictlySorted(added) && StrictlySorted(removed)
  }

  /** The status after an update, with the VM listing given by its set of members. */
  function Applied(status: AgentStatus, update: StatusUpdate): AgentStatus {
    match update
    case Full(_, next) => next
    case Delta(_, added, removed, usedVcpus, usedRam) =>
      status.(
        vms := SortedIds((Elems(status.vms) - Elems(removed)) + Elems(added)),
        usedVcpus := usedVcpus,
        usedRam := usedRam)
  }

  /** An update brings its own usage figures; only a snapshot can change what a host is. */
  lemma AppliedReplacesUsage(status: AgentStatus, update: StatusUpdate)
    ensures update.Delta? ==>
      var next := Applied(status, update);
      && next.usedVcpus == update.usedVcpus && next.usedRam == update.usedRam
      && next.hostname == status.hostname && next.vcpus == status.vcpus
      && next.ram == status.ram && next.metadata == status.metadata
    ensures update.Full? ==> Applied(status, update) == update.status
  {
  }

  /** `slice::binary_search`: the position of `x`, or the position that keeps the slice sorted. */
  method BinarySearch(v: seq<VmId>, x: VmId) returns (found: bool, index: nat)
    requires StrictlySorted(v)
    ensures index <= |v|
    ensures found <==> x in v
    ensures found ==> index < |v| && v[index] == x
    ensures forall k :: 0 <= k < index ==> v[k] < x
    ensures forall k :: index <= k < |v| && !found ==> x < v[k]
  {
    var lo, hi := 0, |v|;
    while lo < hi
      invariant 0 <= lo <= hi <= |v|
      invariant forall k :: 0 <= k < lo ==> v[k] < x
      invariant forall k :: hi <= k < |v| ==> x < v[k]
    {
      var mid := lo + (hi - lo) / 2;
      if v[mid] == x {
        return true, mid;
      } else if v[mid] < x {
        lo := mid + 1;
      } else {
        hi := mid;
      }
    }
    return false, lo;
  }

  lemma RemoveAtKeepsSorted(v: seq<VmId>, i: nat)
    requires StrictlySorted(v) && i < |v|
    ensures StrictlySorted(v[..i] + v[i + 1..])
    ensures Elems(v[..i] + v[i + 1..]) == Elems(v) - {v[i]}
  {
    var w := v[..i] + v[i + 1..];
    forall x ensures x in Elems(w) <==> x in Elems(v) - {v[i]} {
      if x in v && x != v[i] {
        var k :| 0 <= k < |v| && v[k] == x;
        assert w[if k < i then k else k - 1] == x;
      }
    }
  }

  lemma InsertAtKeepsSorted(v: seq<VmId>, i: nat, x: VmId)
    requires StrictlySorted(v) && i <= |v|
    requires forall k :: 0 <= k < i ==> v[k] < x
    requires forall k :: i <= k < |v| ==> x < v[k]
    ensures StrictlySorted(v[..i] + [x] + v[i..])
    ensures Elems(v[..i] + [x] + v[i..]) == Elems(v) + {x}
  {
    assert v == v[..i] + v[i..];
  }

  /**
   * `apply_status_update`: a full snapshot replaces the status; a delta is applied to the
   * sorted vector by binary-search removals followed by binary-search insertions.
   */
  method ApplyStatusUpdate(status: AgentStatus, update: StatusUpdate) returns (next: AgentStatus, revision: U64)
    requires StrictlySorted(status.vms)
    ensures next == Applied(status, update)
    ensures revision == update.revision
    ensures update.Full? ==> next == update.status
    ensures update.Delta? ==>
      && StrictlySorted(next.vms)
      && Elems(next.vms) == (Elems(status.vms) - Elems(update.removed)) + Elems(update.added)
      && next.usedVcpus == update.usedVcpus && next.usedRam == update.usedRam
      && next.hostname == status.hostname && next.vcpus == status.vcpus
      && next.ram == status.ram && next.metadata == status.metadata
  {
    match update
    case Full(r, replacement) =>
      next, revision := replacement, r;
    case Delta(r, added, removed, usedVcpus, usedRam) =>
      var vms := status.vms;
      for i := 0 to |removed|
        invariant StrictlySorted(vms)
        invariant Elems(vms) == Elems(status.vms) - Elems(removed[..i])
      {
        ElemsSplit(removed, i);
        var found, index := BinarySearch(vms, removed[i]);
        if found {
          RemoveAtKeepsSorted(vms, index);
          vms := vms[..index] + vms[index + 1..];
        }
      }
      assert removed[..|removed|] == removed;
      for i := 0 to |added|
        invariant StrictlySorted(vms)
        invariant Elems(vms) == (Elems(status.vms) - Elems(removed)) + Elems(added[..i])
      {
        ElemsSplit(added, i);
        var found, index := BinarySearch(vms, added[i]);
        if !found {
          InsertAtKeepsSorted(vms, index, added[i]);
          vms := vms[..index] + [added[i]] + vms[index..];
        }
      }
      assert added[..|added|] == added;
      SortedListingIsUnique(vms, SortedIds((Elems(status.vms) - Elems(removed)) + Elems(added)));
      next := status.(vms := vms, usedVcpus := usedVcpus, usedRam := usedRam);
      revision := r;
  }
}
