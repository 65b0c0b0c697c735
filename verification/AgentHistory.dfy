/**
 * What the agent's bounded history means: membership at every revision, read from a full log
 * of changes that the agent does not keep, and the usage counters over whole runs.
 */
module AgentHistory {
  import opened Prelude
  import opened Membership
  import opened Agent

  datatype LogEntry = LogEntry(vmid: VmId, added: bool)

  /** An agent together with the complete log of its membership changes. */
  datatype Logged = Logged(agent: AgentState, log: seq<LogEntry>)

  datatype AgentStep =
    | Insert(vmid: VmId, data: VmCacheData)
    | Remove(vmid: VmId)
    | LinkDied(actor: ActorId, order: seq<VmId>)

  ghost predicate Enabled(s: AgentState, step: AgentStep) {
    step.LinkDied? ==> NoDuplicates(step.order) && Elems(step.order) == HostedBy(s, step.actor)
  }

  function Acted(s: AgentState, step: AgentStep): AgentState {
    match step
    case Insert(vmid, data) => Inserted(s, vmid, data)
    case Remove(vmid) => Removed(s, vmid)
    case LinkDied(_, order) => RemovedAll(s, order)
  }

  function LoggedRemoval(l: Logged, vmid: VmId): Logged {
    Logged(Removed(l.agent, vmid), if vmid in l.agent.vms then l.log + [LogEntry(vmid, false)] else l.log)
  }

  function LoggedRemovals(l: Logged, order: seq<VmId>): Logged
    decreases |order|
  {
    if order == [] then l else LoggedRemovals(LoggedRemoval(l, order[0]), order[1..])
  }

  /** One agent step, extending the full log by what the step changed. */
  function LoggedStep(l: Logged, step: AgentStep): Logged {
    match step
    case Insert(vmid, data) =>
      Logged(Inserted(l.agent, vmid, data), if vmid in l.agent.vms then l.log else l.log + [LogEntry(vmid, true)])
    case Remove(vmid) => LoggedRemoval(l, vmid)
    case LinkDied(_, order) => LoggedRemovals(l, order)
  }

  // ----- membership at a revision -----

  /** The VMs on the agent after its first `k` membership changes. */
  ghost function MembersAt(log: seq<LogEntry>, k: nat): set<VmId>
    requires k <= |log|
  {
    if k == 0 then {}
    else if log[k - 1].added then MembersAt(log, k - 1) + {log[k - 1].vmid}
    else MembersAt(log, k - 1) - {log[k - 1].vmid}
  }

  /** The VMs touched by changes `lo + 1` to `hi`. */
  ghost function ChangedIn(log: seq<LogEntry>, lo: nat, hi: nat): set<VmId>
    requires hi <= |log|
  {
    set i | lo <= i < hi :: log[i].vmid
  }

  lemma {:induction false} MembersAtPrefix(log: seq<LogEntry>, more: seq<LogEntry>, k: nat)
    requires k <= |log| <= |more| && more[..|log|] == log
    ensures MembersAt(more, k) == MembersAt(log, k)
  {
    if k > 0 {
      assert more[k - 1] == more[..|log|][k - 1];
      MembersAtPrefix(log, more, k - 1);
    }
  }

  /** A VM that no change in between touches is a member at both ends or at neither. */
  lemma {:induction false} UntouchedKeepsMembership(log: seq<LogEntry>, lo: nat, hi: nat, v: VmId)
    requires lo <= hi <= |log|
    requires v !in ChangedIn(log, lo, hi)
    ensures v in MembersAt(log, lo) <==> v in MembersAt(log, hi)
    decreases hi
  {
    if lo < hi {
      assert log[hi - 1].vmid in ChangedIn(log, lo, hi);
      assert ChangedIn(log, lo, hi - 1) <= ChangedIn(log, lo, hi);
      UntouchedKeepsMembership(log, lo, hi - 1, v);
    }
  }

  // ----- the invariant tying the agent to its full log -----

  /** The history is a stretch of the full log that ends where the log ends, numbered consecutively. */
  ghost predicate EndsLog(history: seq<MembershipChange>, log: seq<LogEntry>) {
    && |history| <= |log|
    && forall i :: 0 <= i < |history| ==>
      && history[i].revision == |log| - |history| + i + 1
      && history[i].vmid == log[|log| - |history| + i].vmid
      && history[i].added == log[|log| - |history| + i].added
  }

  /** The history holds exactly the last min(256, n) of the n changes, with consecutive revisions. */
  ghost predicate HistoryIsLogSuffix(history: seq<MembershipChange>, log: seq<LogEntry>) {
    |history| == Min(STATUS_CHANGE_HISTORY_LIMIT, |log|) && EndsLog(history, log)
  }

  ghost predicate Tracks(l: Logged) {
    && l.agent.revision == |l.log|
    && l.agent.vms.Keys == MembersAt(l.log, |l.log|)
    && HistoryIsLogSuffix(l.agent.history, l.log)
  }

  lemma PushEndsLog(history: seq<MembershipChange>, log: seq<LogEntry>, vmid: VmId, added: bool)
    requires EndsLog(history, log) && |log| < U64_MAX
    ensures EndsLog(history + [MembershipChange(|log| + 1, vmid, added)], log + [LogEntry(vmid, added)])
  {
  }

  lemma LatestEntriesEndLog(history: seq<MembershipChange>, log: seq<LogEntry>)
    requires EndsLog(history, log)
    ensures EndsLog(LatestEntries(history), log)
  {
  }

  lemma RecordedTracks(s: AgentState, log: seq<LogEntry>, vmid: VmId, added: bool)
    requires s.revision == |log| < U64_MAX && HistoryIsLogSuffix(s.history, log)
    ensures Recorded(s, vmid, added).revision == |log| + 1
    ensures HistoryIsLogSuffix(Recorded(s, vmid, added).history, log + [LogEntry(vmid, added)])
  {
    PushEndsLog(s.history, log, vmid, added);
    LatestEntriesEndLog(s.history + [MembershipChange(|log| + 1, vmid, added)], log + [LogEntry(vmid, added)]);
  }

  lemma MembersAfterAppend(log: seq<LogEntry>, entry: LogEntry)
    ensures MembersAt(log + [entry], |log| + 1)
         == if entry.added then MembersAt(log, |log|) + {entry.vmid} else MembersAt(log, |log|) - {entry.vmid}
  {
    MembersAtPrefix(log, log + [entry], |log|);
  }

  lemma RemovalTracks(l: Logged, vmid: VmId)
    requires Tracks(l) && |LoggedRemoval(l, vmid).log| <= U64_MAX
    ensures Tracks(LoggedRemoval(l, vmid))
  {
    if vmid in l.agent.vms {
      RecordedTracks(l.agent, l.log, vmid, false);
      MembersAfterAppend(l.log, LogEntry(vmid, false));
    }
  }

  lemma {:induction false} RemovalsTrack(l: Logged, order: seq<VmId>)
    requires Tracks(l) && |LoggedRemovals(l, order).log| <= U64_MAX
    ensures Tracks(LoggedRemovals(l, order))
    decreases |order|
  {
    if order != [] {
      RemovalsExtendLog(LoggedRemoval(l, order[0]), order[1..]);
      RemovalTracks(l, order[0]);
      RemovalsTrack(LoggedRemoval(l, order[0]), order[1..]);
    }
  }

  lemma {:induction false} RemovalsExtendLog(l: Logged, order: seq<VmId>)
    ensures l.log <= LoggedRemovals(l, order).log
    ensures LoggedRemovals(l, order).agent == RemovedAll(l.agent, order)
    decreases |order|
  {
    if order != [] {
      RemovalsExtendLog(LoggedRemoval(l, order[0]), order[1..]);
    }
  }

  /** The log only grows, and it is a mere annotation of the agent's own step. */
  lemma StepExtendsLog(l: Logged, step: AgentStep)
    ensures l.log <= LoggedStep(l, step).log
    ensures LoggedStep(l, step).agent == Acted(l.agent, step)
  {
    if step.LinkDied? {
      RemovalsExtendLog(l, step.order);
    }
  }

  /** Every agent step keeps revision, table and bounded history in line with the full log. */
  lemma StepTracks(l: Logged, step: AgentStep)
    requires Tracks(l) && |LoggedStep(l, step).log| <= U64_MAX
    ensures Tracks(LoggedStep(l, step))
  {
    match step
    case Insert(vmid, data) =>
      if vmid in l.agent.vms {
        assert l.agent.vms[vmid := data].Keys == l.agent.vms.Keys;
      } else {
        RecordedTracks(l.agent, l.log, vmid, true);
        MembersAfterAppend(l.log, LogEntry(vmid, true));
      }
    case Remove(vmid) => RemovalTracks(l, vmid);
    case LinkDied(_, order) => RemovalsTrack(l, order);
  }

  // ----- correctness of the poll reply -----

  /** `added` and `removed` list each VM touched after `since` by its membership at `hi`. */
  ghost predicate Compacts(log: seq<LogEntry>, since: nat, hi: nat, added: set<VmId>, removed: set<VmId>)
    requires hi <= |log|
  {
    && added == ChangedIn(log, since, hi) * MembersAt(log, hi)
    && removed == ChangedIn(log, since, hi) - MembersAt(log, hi)
  }

  /** What a status update says, read against the full log of the agent that sent it. */
  ghost predicate Describes(update: StatusUpdate, since: nat, log: seq<LogEntry>) {
    && update.revision <= |log|
    && Listed(update)
    && match update
       case Full(revision, status) => Elems(status.vms) == MembersAt(log, revision)
       case Delta(revision, added, removed, _, _) =>
         since <= revision && Compacts(log, since, revision, Elems(added), Elems(removed))
  }

  lemma {:induction false} LatestChangesMeaning(
    history: seq<MembershipChange>, log: seq<LogEntry>, base: nat, since: nat)
    requires base + |history| <= |log| && base <= since
    requires forall i :: 0 <= i < |history| ==>
      && history[i].revision == base + i + 1
      && history[i].vmid == log[base + i].vmid
      && history[i].added == log[base + i].added
    ensures LatestChanges(history, since).Keys == ChangedIn(log, since, base + |history|)
    ensures forall v :: v in LatestChanges(history, since) ==>
      (LatestChanges(history, since)[v] <==> v in MembersAt(log, base + |history|))
    decreases |history|
  {
    if history != [] {
      var n := base + |history|;
      LatestChangesMeaning(history[..|history| - 1], log, base, since);
      var earlier := LatestChanges(history[..|history| - 1], since);
      if n > since {
        assert ChangedIn(log, since, n) == ChangedIn(log, since, n - 1) + {log[n - 1].vmid};
        assert LatestChanges(history, since) == earlier[log[n - 1].vmid := log[n - 1].added];
      }
    }
  }

  /**
   * Every poll reply describes the log truthfully; in particular a delta is sent only when
   * the truncated history covers every change after `since`.
   */
  lemma StatusDescribes(l: Logged, since: U64, initial: bool)
    requires Tracks(l)
    ensures Describes(Status(l.agent, since, initial), since, l.log)
    ensures Status(l.agent, since, initial).revision == |l.log|
    ensures Status(l.agent, since, initial).Delta? <==>
      !initial && |l.log| - |l.agent.history| <= since <= |l.log|
  {
    var s := l.agent;
    if !NeedsSnapshot(s, since, initial) {
      var latest := LatestChanges(s.history, since);
      LatestChangesMeaning(s.history, l.log, |l.log| - |s.history|, since);
      assert With(latest, true) == ChangedIn(l.log, since, |l.log|) * MembersAt(l.log, |l.log|);
      assert With(latest, false) == ChangedIn(l.log, since, |l.log|) - MembersAt(l.log, |l.log|);
    }
  }

  /** The lists of a delta never share a VM, so their order of application does not matter. */
  lemma CompactionIsDisjoint(update: StatusUpdate, since: nat, log: seq<LogEntry>)
    requires update.Delta? && Describes(update, since, log)
    ensures Elems(update.added) !! Elems(update.removed)
    ensures forall members: set<VmId> ::
      (members - Elems(update.removed)) + Elems(update.added) == (members + Elems(update.added)) - Elems(update.removed)
  {
  }

  /** Applying a delta since `s` to the membership at any revision from `s` on catches up exactly. */
  lemma DeltaCatchesUp(update: StatusUpdate, since: nat, at: nat, log: seq<LogEntry>)
    requires update.Delta? && Describes(update, since, log)
    requires since <= at <= update.revision
    ensures (MembersAt(log, at) - Elems(update.removed)) + Elems(update.added) == MembersAt(log, update.revision)
  {
    var hi := update.revision;
    forall v ensures v in (MembersAt(log, at) - Elems(update.removed)) + Elems(update.added) <==> v in MembersAt(log, hi) {
      if v !in ChangedIn(log, since, hi) {
        assert ChangedIn(log, at, hi) <= ChangedIn(log, since, hi);
        UntouchedKeepsMembership(log, at, hi, v);
      }
    }
  }

  /** An update described by a log is described by every extension of that log. */
  lemma DescribesExtension(update: StatusUpdate, since: nat, log: seq<LogEntry>, more: seq<LogEntry>)
    requires Describes(update, since, log) && log <= more
    ensures Describes(update, since, more)
  {
    MembersAtPrefix(log, more, update.revision);
    if update.Delta? {
      assert ChangedIn(log, since, update.revision) == ChangedIn(more, since, update.revision);
    }
  }

  /**
   * Why the revision must stay below `u64::MAX`: once it saturates, inserting a new VM changes
   * the membership but no poll that already saw `u64::MAX` is told.
   */
  lemma SaturatedRevisionHidesChanges(s: AgentState, vmid: VmId, data: VmCacheData)
    requires s.revision == U64_MAX && vmid !in s.vms
    ensures var t := Inserted(s, vmid, data);
      && t.vms.Keys != s.vms.Keys
      && t.revision == s.revision
      && Status(t, U64_MAX, false).Delta?
      && Status(t, U64_MAX, false).added == Status(t, U64_MAX, false).removed == []
  {
    var t := Inserted(s, vmid, data);
    assert vmid in t.vms.Keys;
    NothingAfterMax(t.history);
    var latest := LatestChanges(t.history, U64_MAX);
    assert With(latest, true) == {} && With(latest, false) == {};
    ElemsEmpty(SortedIds(With(latest, true)));
    ElemsEmpty(SortedIds(With(latest, false)));
  }

  lemma {:induction false} NothingAfterMax(history: seq<MembershipChange>)
    ensures LatestChanges(history, U64_MAX) == map[]
    decreases |history|
  {
    if history != [] {
      NothingAfterMax(history[..|history| - 1]);
    }
  }

  // ----- usage accounting -----

  ghost function VcpuWeights(s: AgentState): map<nat, nat> {
    map v | v in s.vms :: s.vms[v].vcpus as nat
  }

  ghost function MemoryWeights(s: AgentState): map<nat, nat> {
    map v | v in s.vms :: s.vms[v].memory as nat
  }

  /** The counters never exceed the true sums over the live VMs. */
  ghost predicate UsageWithinTruth(s: AgentState) {
    s.usedVcpus <= Total(VcpuWeights(s)) && s.usedMemory <= Total(MemoryWeights(s))
  }

  ghost predicate UsageExact(s: AgentState) {
    s.usedVcpus == Total(VcpuWeights(s)) && s.usedMemory == Total(MemoryWeights(s))
  }

  /** The true sums still fit the counters. */
  ghost predicate SumsFit(s: AgentState) {
    Total(VcpuWeights(s)) <= U32_MAX && Total(MemoryWeights(s)) <= U64_MAX
  }

  lemma InsertedUsage(s: AgentState, vmid: VmId, data: VmCacheData)
    requires UsageWithinTruth(s)
    ensures UsageWithinTruth(Inserted(s, vmid, data))
    ensures UsageExact(s) ==> (UsageExact(Inserted(s, vmid, data)) <==> SumsFit(Inserted(s, vmid, data)))
  {
    var t := Inserted(s, vmid, data);
    assert VcpuWeights(t) == VcpuWeights(s)[vmid := data.vcpus];
    assert MemoryWeights(t) == MemoryWeights(s)[vmid := data.memory];
    TotalUpdate(VcpuWeights(s), vmid, data.vcpus);
    TotalUpdate(MemoryWeights(s), vmid, data.memory);
    if vmid in s.vms {
      TotalRemove(VcpuWeights(s), vmid);
      TotalRemove(MemoryWeights(s), vmid);
    }
  }

  lemma RemovedUsage(s: AgentState, vmid: VmId)
    requires UsageWithinTruth(s)
    ensures UsageWithinTruth(Removed(s, vmid))
    ensures UsageExact(s) ==> UsageExact(Removed(s, vmid))
  {
    if vmid in s.vms {
      var t := Removed(s, vmid);
      assert VcpuWeights(t) == VcpuWeights(s) - {vmid};
      assert MemoryWeights(t) == MemoryWeights(s) - {vmid};
      TotalRemove(VcpuWeights(s), vmid);
      TotalRemove(MemoryWeights(s), vmid);
    }
  }

  lemma {:induction false} RemovedAllUsage(s: AgentState, order: seq<VmId>)
    requires UsageWithinTruth(s)
    ensures UsageWithinTruth(RemovedAll(s, order))
    ensures UsageExact(s) ==> UsageExact(RemovedAll(s, order))
    decreases |order|
  {
    if order != [] {
      RemovedUsage(s, order[0]);
      RemovedAllUsage(Removed(s, order[0]), order[1..]);
    }
  }

  function AgentRun(s: AgentState, steps: seq<AgentStep>): AgentState
    decreases |steps|
  {
    if steps == [] then s else AgentRun(Acted(s, steps[0]), steps[1..])
  }

  ghost predicate SumsAlwaysFit(s: AgentState, steps: seq<AgentStep>)
    decreases |steps|
  {
    SumsFit(s) && (steps != [] ==> SumsAlwaysFit(Acted(s, steps[0]), steps[1..]))
  }

  ghost predicate ExactThroughout(s: AgentState, steps: seq<AgentStep>)
    decreases |steps|
  {
    UsageExact(s) && (steps != [] ==> ExactThroughout(Acted(s, steps[0]), steps[1..]))
  }

  lemma StepUsage(s: AgentState, step: AgentStep)
    requires UsageWithinTruth(s)
    ensures UsageWithinTruth(Acted(s, step))
    ensures UsageExact(s) ==> (UsageExact(Acted(s, step)) <==> SumsFit(Acted(s, step)))
  {
    match step
    case Insert(vmid, data) => InsertedUsage(s, vmid, data);
    case Remove(vmid) => RemovedUsage(s, vmid);
    case LinkDied(_, order) => RemovedAllUsage(s, order);
  }

  /**
   * Over any run the counters stay at or below the true sums, and counters that start exact
   * equal the sums in every state if and only if no sum along the run outgrows its counter.
   */
  lemma {:induction false} UsageOverRuns(s: AgentState, steps: seq<AgentStep>)
    requires UsageWithinTruth(s)
    ensures UsageWithinTruth(AgentRun(s, steps))
    ensures UsageExact(s) ==> (ExactThroughout(s, steps) <==> SumsAlwaysFit(s, steps))
    ensures ExactThroughout(s, steps) ==> UsageExact(AgentRun(s, steps))
    decreases |steps|
  {
    if steps != [] {
      var t := Acted(s, steps[0]);
      StepUsage(s, steps[0]);
      UsageOverRuns(t, steps[1..]);
      if UsageExact(s) && !UsageExact(t) {
        assert !SumsFit(t);
        assert !SumsAlwaysFit(t, steps[1..]) && !ExactThroughout(t, steps[1..]);
      }
    }
  }
}
