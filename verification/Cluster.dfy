/**
 * Agents, their updater tasks and the scheduler as one system: membership replication with a
 * truncated history, stale messages, lost caches and restarted updaters
 * (`agent_actor.rs`, `discovery.rs`).
 *
 * Each agent has at most one live updater, whose replies reach the scheduler in order.
 * Messages of different agents interleave freely, with every other scheduler step.
 */
module Cluster {
  import opened Prelude
  import opened Membership
  import opened Policy
  import opened Agent
  import opened AgentHistory
  import S = Scheduler
  import SI = SchedulerInvariants

  /** Where the updater task stands: the revision it saw last, or nothing yet. */
  datatype Cursor = Cursor(revision: U64, initial: bool)

  /** A forwarded reply, with the revision its poll asked from. */
  datatype Envelope = Envelope(update: StatusUpdate, since: U64)

  datatype Link = Link(logged: Logged, cursor: Option<Cursor>, queue: seq<Envelope>)

  datatype System = System(sched: S.Sched, links: map<ActorId, Link>)

  datatype ClusterStep =
    | Join(a: ActorId, agent: AgentState)
    | AgentActs(a: ActorId, action: AgentStep)
    | Discover(a: ActorId)
    | Poll(a: ActorId)
    | Deliver(a: ActorId, now: nat)
    | UpdaterExits(a: ActorId)
    | SchedulerActs(step: S.Step)

  const START := System(S.EMPTY, map[])

  predicate FreshAgent(s: AgentState) {
    s.revision == 0 && s.history == [] && s.vms == map[]
  }

  ghost predicate Possible(parse: NumberParser, c: System, step: ClusterStep) {
    match step
    case Join(a, agent) => a !in c.links && FreshAgent(agent)
    case AgentActs(a, action) => a in c.links && Enabled(c.links[a].logged.agent, action)
    case Discover(a) => a in c.links
    case Poll(a) => a in c.links && c.links[a].cursor.Some?
    case Deliver(a, _) => a in c.links && c.links[a].queue != []
    case UpdaterExits(a) => a in c.links
    case SchedulerActs(inner) =>
      !inner.AgentUpdated? && !inner.AgentDiscovered? && S.Enabled(parse, c.sched, inner)
  }

  /** Cleaning up an agent aborts its updater. */
  predicate AbortsUpdater(s: S.Sched, step: S.Step, a: ActorId) {
    || step == S.AgentUpdaterStopped(a)
    || (step == S.LinkDied(a) && a in s.kinds && s.kinds[a].AgentKind?)
  }

  function Polled(link: Link): Link
    requires link.cursor.Some?
  {
    var reply := Status(link.logged.agent, link.cursor.value.revision, link.cursor.value.initial);
    link.(queue := link.queue + [Envelope(reply, link.cursor.value.revision)],
          cursor := Some(Cursor(reply.revision, false)))
  }

  ghost function Moved(parse: NumberParser, c: System, step: ClusterStep): System
    requires Possible(parse, c, step)
  {
    match step
    case Join(a, agent) => c.(links := c.links[a := Link(Logged(agent, []), None, [])])
    case AgentActs(a, action) =>
      c.(links := c.links[a := c.links[a].(logged := LoggedStep(c.links[a].logged, action))])
    case Discover(a) =>
      if c.links[a].cursor.Some? then c else
        System(S.Next(c.sched, S.AgentDiscovered(a)), c.links[a := c.links[a].(cursor := Some(Cursor(0, true)))])
    case Poll(a) => c.(links := c.links[a := Polled(c.links[a])])
    case Deliver(a, now) =>
      System(S.StatusArrived(c.sched, a, c.links[a].queue[0].update, now),
             c.links[a := c.links[a].(queue := c.links[a].queue[1..])])
    case UpdaterExits(a) => c.(links := c.links[a := c.links[a].(cursor := None)])
    case SchedulerActs(inner) =>
      System(S.Next(c.sched, inner),
             map a | a in c.links ::
               if AbortsUpdater(c.sched, inner, a) then c.links[a].(cursor := None) else c.links[a])
  }

  ghost predicate ClusterRuns(parse: NumberParser, c: System, steps: seq<ClusterStep>)
    decreases |steps|
  {
    steps == [] || (Possible(parse, c, steps[0]) && ClusterRuns(parse, Moved(parse, c, steps[0]), steps[1..]))
  }

  ghost function Reached(parse: NumberParser, c: System, steps: seq<ClusterStep>): System
    requires ClusterRuns(parse, c, steps)
    decreases |steps|
  {
    if steps == [] then c else Reached(parse, Moved(parse, c, steps[0]), steps[1..])
  }

  // ----- the replication invariant -----

  ghost function CachedOf(s: S.Sched, a: ActorId): Option<S.CachedAgent> {
    if a in s.agents then Some(s.agents[a]) else None
  }

  /** The cached listing is the agent's exact membership at the cached revision. */
  ghost predicate Faithful(cached: S.CachedAgent, log: seq<LogEntry>) {
    && cached.revision <= |log|
    && StrictlySorted(cached.data.vms)
    && Elems(cached.data.vms) == MembersAt(log, cached.revision)
  }

  /** Messages in flight tell the truth, in revision order, each delta starting where its predecessor ended. */
  ghost predicate QueueSound(queue: seq<Envelope>, log: seq<LogEntry>) {
    && (forall i :: 0 <= i < |queue| ==> Describes(queue[i].update, queue[i].since, log))
    && (forall i, j :: 0 <= i < j < |queue| ==> queue[i].update.revision <= queue[j].update.revision)
    && (forall i :: 0 < i < |queue| && queue[i].update.Delta? ==> queue[i].since <= queue[i - 1].update.revision)
  }

  /** The next message continues from the cached revision. */
  ghost predicate HeadContinues(cached: Option<S.CachedAgent>, queue: seq<Envelope>) {
    cached.Some? && queue != [] ==>
      && cached.value.revision <= queue[0].update.revision
      && (queue[0].update.Delta? ==> queue[0].since <= cached.value.revision)
  }

  /** The updater's next poll continues from the last message, or from the cache. */
  ghost predicate CursorContinues(cached: Option<S.CachedAgent>, link: Link) {
    link.cursor.Some? && !link.cursor.value.initial ==>
      if link.queue != [] then link.cursor.value.revision <= link.queue[|link.queue| - 1].update.revision
      else cached.Some? ==> link.cursor.value.revision <= cached.value.revision
  }

  ghost predicate LinkInv(link: Link, cached: Option<S.CachedAgent>) {
    && Tracks(link.logged)
    && QueueSound(link.queue, link.logged.log)
    && (cached.Some? ==> Faithful(cached.value, link.logged.log))
    && HeadContinues(cached, link.queue)
    && CursorContinues(cached, link)
  }

  ghost predicate ClusterInv(c: System) {
    && SI.Inv(c.sched)
    && c.sched.agents.Keys <= c.links.Keys
    && forall a :: a in c.links ==> LinkInv(c.links[a], CachedOf(c.sched, a))
  }

  /** No agent has recorded more changes than its revision counter can number. */
  ghost predicate Countable(c: System) {
    forall a :: a in c.links ==> |c.links[a].logged.log| <= U64_MAX
  }

  // ----- one link -----

  lemma ActionKeepsLink(link: Link, cached: Option<S.CachedAgent>, action: AgentStep)
    requires LinkInv(link, cached) && |LoggedStep(link.logged, action).log| <= U64_MAX
    ensures LinkInv(link.(logged := LoggedStep(link.logged, action)), cached)
  {
    var log, more := link.logged.log, LoggedStep(link.logged, action).log;
    StepTracks(link.logged, action);
    StepExtendsLog(link.logged, action);
    forall i | 0 <= i < |link.queue| ensures Describes(link.queue[i].update, link.queue[i].since, more) {
      DescribesExtension(link.queue[i].update, link.queue[i].since, log, more);
    }
    if cached.Some? {
      MembersAtPrefix(log, more, cached.value.revision);
    }
  }

  lemma PollKeepsLink(link: Link, cached: Option<S.CachedAgent>)
    requires LinkInv(link, cached) && link.cursor.Some?
    ensures LinkInv(Polled(link), cached)
  {
    StatusDescribes(link.logged, link.cursor.value.revision, link.cursor.value.initial);
  }

  /** What the scheduler holds for `a` after a message for `a`. */
  ghost function CachedAfter(cached: Option<S.CachedAgent>, update: StatusUpdate): Option<S.CachedAgent> {
    match cached
    case None => if update.Full? then Some(S.CachedAgent(update.status, update.revision)) else None
    case Some(c) =>
      if update.revision <= c.revision then cached
      else Some(S.CachedAgent(Applied(c.data, update), update.revision))
  }

  lemma StatusRefreshesOneAgent(s: S.Sched, a: ActorId, update: StatusUpdate, now: nat, b: ActorId)
    ensures CachedOf(S.StatusArrived(s, a, update, now), b)
         == if b == a then CachedAfter(CachedOf(s, a), update) else CachedOf(s, b)
  {
  }

  lemma AcceptedIsFaithful(cached: S.CachedAgent, update: StatusUpdate, since: nat, log: seq<LogEntry>)
    requires Faithful(cached, log) && Describes(update, since, log)
    requires cached.revision < update.revision
    requires update.Delta? ==> since <= cached.revision
    ensures Faithful(S.CachedAgent(Applied(cached.data, update), update.revision), log)
  {
    if update.Delta? {
      DeltaCatchesUp(update, since, cached.revision, log);
    }
  }

  lemma QueueTailSound(queue: seq<Envelope>, log: seq<LogEntry>)
    requires QueueSound(queue, log) && queue != []
    ensures QueueSound(queue[1..], log)
    ensures forall i :: 0 <= i < |queue| - 1 ==> queue[1..][i] == queue[i + 1]
  {
    var rest := queue[1..];
    assert forall i :: 0 <= i < |rest| ==> rest[i] == queue[i + 1];
  }

  lemma DeliveryKeepsLink(link: Link, cached: Option<S.CachedAgent>)
    requires LinkInv(link, cached) && link.queue != []
    ensures LinkInv(link.(queue := link.queue[1..]), CachedAfter(cached, link.queue[0].update))
    ensures CachedAfter(cached, link.queue[0].update).Some? ==>
      CachedAfter(cached, link.queue[0].update).value.revision == link.queue[0].update.revision
  {
    var head := link.queue[0];
    if cached.Some? && cached.value.revision < head.update.revision {
      AcceptedIsFaithful(cached.value, head.update, head.since, link.logged.log);
    }
    QueueTailSound(link.queue, link.logged.log);
  }

  // ----- every step -----

  /** Only status messages refresh a cached agent; other steps keep or drop it. */
  lemma OtherStepsKeepOrDrop(s: S.Sched, step: S.Step, a: ActorId)
    requires !step.AgentUpdated?
    ensures CachedOf(S.Next(s, step), a) == CachedOf(s, a) || CachedOf(S.Next(s, step), a) == None
  {
    match step
    case ReconcileVmPlacements(dispatches, now) => DispatchKeepsAgents(S.Expired(s, now), dispatches, now);
    case CreateVm(vmid, config, target, outcome, now) => CreateKeepsMaps(s, vmid, config, target, outcome, now);
    case LinkDied(id) => LossKeepsOrDrops(s, id, a);
    case AgentUpdaterStopped(id) => LossKeepsOrDrops(s, id, a);
    case VmUpdaterStopped(id) => LossKeepsOrDrops(s, id, a);
    case _ =>
  }

  lemma LossKeepsOrDrops(s: S.Sched, id: ActorId, a: ActorId)
    ensures CachedOf(S.LinkLost(s, id), a) == CachedOf(s, a) || CachedOf(S.LinkLost(s, id), a) == None
    ensures var t := S.AgentCleaned(s.(kinds := s.kinds - {id}), id); CachedOf(t, a) == CachedOf(s, a) || CachedOf(t, a) == None
    ensures CachedOf(S.VmCleaned(s.(kinds := s.kinds - {id}), id), a) == CachedOf(s, a)
  {
  }

  lemma {:induction false} DispatchKeepsAgents(s: S.Sched, ds: seq<S.Dispatch>, now: nat)
    ensures S.DispatchedAll(s, ds, now).agents == s.agents
    ensures S.DispatchedAll(s, ds, now).index == s.index
    decreases |ds|
  {
    if ds != [] {
      DispatchKeepsAgents(S.Dispatched(s, ds[0], now), ds[1..], now);
    }
  }

  lemma OneLinkKeepsInv(c: System, d: System, a: ActorId)
    requires ClusterInv(c) && SI.Inv(d.sched) && d.sched.agents == c.sched.agents
    requires a in d.links && d.links == c.links[a := d.links[a]]
    requires LinkInv(d.links[a], CachedOf(c.sched, a))
    ensures ClusterInv(d)
  {
    assert forall b :: CachedOf(d.sched, b) == CachedOf(c.sched, b);
  }

  /** Losing the cached status or the updater never breaks a link. */
  lemma LossKeepsLink(link: Link, cached: Option<S.CachedAgent>)
    requires LinkInv(link, cached)
    ensures LinkInv(link, None) && LinkInv(link.(cursor := None), cached) && LinkInv(link.(cursor := None), None)
  {
  }

  lemma ActKeepsInv(parse: NumberParser, c: System, a: ActorId, action: AgentStep)
    requires ClusterInv(c) && Possible(parse, c, AgentActs(a, action))
    requires |LoggedStep(c.links[a].logged, action).log| <= U64_MAX
    ensures ClusterInv(Moved(parse, c, AgentActs(a, action)))
  {
    ActionKeepsLink(c.links[a], CachedOf(c.sched, a), action);
    OneLinkKeepsInv(c, Moved(parse, c, AgentActs(a, action)), a);
  }

  lemma DeliverKeepsInv(parse: NumberParser, c: System, a: ActorId, now: nat)
    requires ClusterInv(c) && Possible(parse, c, Deliver(a, now))
    ensures ClusterInv(Moved(parse, c, Deliver(a, now)))
  {
    var update := c.links[a].queue[0].update;
    var d := Moved(parse, c, Deliver(a, now));
    SI.StepKeepsInv(parse, c.sched, S.AgentUpdated(a, update, now));
    forall b | b in d.links ensures LinkInv(d.links[b], CachedOf(d.sched, b)) {
      StatusRefreshesOneAgent(c.sched, a, update, now, b);
      if b == a {
        DeliveryKeepsLink(c.links[a], CachedOf(c.sched, a));
      }
    }
  }

  lemma SchedulerStepKeepsLink(parse: NumberParser, c: System, inner: S.Step, a: ActorId)
    requires ClusterInv(c) && Possible(parse, c, SchedulerActs(inner)) && a in c.links
    ensures var d := Moved(parse, c, SchedulerActs(inner)); LinkInv(d.links[a], CachedOf(d.sched, a))
  {
    var d := Moved(parse, c, SchedulerActs(inner));
    OtherStepsKeepOrDrop(c.sched, inner, a);
    LossKeepsLink(c.links[a], CachedOf(c.sched, a));
    assert d.links[a] == c.links[a] || d.links[a] == c.links[a].(cursor := None);
  }

  lemma SchedulerStepKeepsInv(parse: NumberParser, c: System, inner: S.Step)
    requires ClusterInv(c) && Possible(parse, c, SchedulerActs(inner))
    ensures ClusterInv(Moved(parse, c, SchedulerActs(inner)))
  {
    var d := Moved(parse, c, SchedulerActs(inner));
    SI.StepKeepsInv(parse, c.sched, inner);
    forall a | a in d.sched.agents ensures a in d.links {
      OtherStepsKeepOrDrop(c.sched, inner, a);
      assert CachedOf(c.sched, a).Some?;
    }
    forall a | a in d.links ensures LinkInv(d.links[a], CachedOf(d.sched, a)) {
      SchedulerStepKeepsLink(parse, c, inner, a);
    }
  }

  /** Every step of the cluster keeps the replication invariant. */
  lemma MoveKeepsInv(parse: NumberParser, c: System, step: ClusterStep)
    requires ClusterInv(c) && Possible(parse, c, step) && Countable(Moved(parse, c, step))
    ensures ClusterInv(Moved(parse, c, step))
  {
    var d := Moved(parse, c, step);
    match step
    case Join(a, _) => OneLinkKeepsInv(c, d, a);
    case AgentActs(a, action) =>
      assert d.links[a].logged == LoggedStep(c.links[a].logged, action);
      ActKeepsInv(parse, c, a, action);
    case Discover(a) => OneLinkKeepsInv(c, d, a);
    case Poll(a) =>
      PollKeepsLink(c.links[a], CachedOf(c.sched, a));
      OneLinkKeepsInv(c, d, a);
    case Deliver(a, now) => DeliverKeepsInv(parse, c, a, now);
    case UpdaterExits(a) =>
      LossKeepsLink(c.links[a], CachedOf(c.sched, a));
      OneLinkKeepsInv(c, d, a);
    case SchedulerActs(inner) => SchedulerStepKeepsInv(parse, c, inner);
  }

  // ----- over whole runs -----

  lemma {:induction false} LogsOnlyGrow(parse: NumberParser, c: System, steps: seq<ClusterStep>)
    requires ClusterRuns(parse, c, steps) && Countable(Reached(parse, c, steps))
    ensures Countable(c)
    decreases |steps|
  {
    if steps != [] {
      var d := Moved(parse, c, steps[0]);
      LogsOnlyGrow(parse, d, steps[1..]);
      forall a | a in c.links ensures |c.links[a].logged.log| <= U64_MAX {
        assert a in d.links;
        if steps[0].AgentActs? && steps[0].a == a {
          StepExtendsLog(c.links[a].logged, steps[0].action);
        }
      }
    }
  }

  lemma {:induction false} ClusterInvOverRuns(parse: NumberParser, c: System, steps: seq<ClusterStep>)
    requires ClusterInv(c) && ClusterRuns(parse, c, steps) && Countable(Reached(parse, c, steps))
    ensures ClusterInv(Reached(parse, c, steps))
    decreases |steps|
  {
    if steps != [] {
      LogsOnlyGrow(parse, Moved(parse, c, steps[0]), steps[1..]);
      MoveKeepsInv(parse, c, steps[0]);
      ClusterInvOverRuns(parse, Moved(parse, c, steps[0]), steps[1..]);
    }
  }

  /**
   * Replication safety: after any run, every cached agent's listing is strictly sorted and is
   * exactly the agent's membership at the cached revision, which the agent has reached; at the
   * agent's current revision it is the agent's current VM table.
   */
  lemma ReplicationSafety(parse: NumberParser, steps: seq<ClusterStep>, a: ActorId)
    requires ClusterRuns(parse, START, steps) && Countable(Reached(parse, START, steps))
    requires a in Reached(parse, START, steps).sched.agents
    ensures var c := Reached(parse, START, steps);
      && a in c.links
      && var agent, log, cached := c.links[a].logged.agent, c.links[a].logged.log, c.sched.agents[a];
        && cached.revision <= agent.revision == |log|
        && cached.data.vms == SortedIds(MembersAt(log, cached.revision))
        && (cached.revision == agent.revision ==> cached.data.vms == SortedIds(agent.vms.Keys))
  {
    ClusterInvOverRuns(parse, START, steps);
    var c := Reached(parse, START, steps);
    var log, cached := c.links[a].logged.log, c.sched.agents[a];
    assert CachedOf(c.sched, a) == Some(cached);
    SortedListingIsUnique(cached.data.vms, SortedIds(MembersAt(log, cached.revision)));
  }

  /** The cached revision never decreases while the agent stays cached. */
  lemma RevisionNeverDecreases(parse: NumberParser, c: System, step: ClusterStep, a: ActorId)
    requires Possible(parse, c, step)
    requires a in c.sched.agents && a in Moved(parse, c, step).sched.agents
    ensures c.sched.agents[a].revision <= Moved(parse, c, step).sched.agents[a].revision
  {
    var d := Moved(parse, c, step);
    match step
    case Deliver(b, now) => StatusRefreshesOneAgent(c.sched, b, c.links[b].queue[0].update, now, a);
      assert CachedOf(d.sched, a) == Some(d.sched.agents[a]);
    case SchedulerActs(inner) => OtherStepsKeepOrDrop(c.sched, inner, a);
      assert CachedOf(d.sched, a) == Some(d.sched.agents[a]);
    case _ =>
  }

  // ----- catching up -----

  function Drained(s: S.Sched, a: ActorId, queue: seq<Envelope>, now: nat): S.Sched
    decreases |queue|
  {
    if queue == [] then s else Drained(S.StatusArrived(s, a, queue[0].update, now), a, queue[1..], now)
  }

  ghost predicate HasSnapshot(queue: seq<Envelope>) {
    exists i :: 0 <= i < |queue| && queue[i].update.Full?
  }

  /** The usage figures that an update carries: vCPUs and RAM. */
  function UsageIn(update: StatusUpdate): (U32, U64) {
    if update.Full? then (update.status.usedVcpus, update.status.usedRam) else (update.usedVcpus, update.usedRam)
  }

  /** The last message is newer than the cache and than every message before it. */
  ghost predicate LastIsNewest(cached: Option<S.CachedAgent>, queue: seq<Envelope>)
    requires queue != []
  {
    && (cached.Some? ==> cached.value.revision < queue[|queue| - 1].update.revision)
    && forall i :: 0 <= i < |queue| - 1 ==> queue[i].update.revision < queue[|queue| - 1].update.revision
  }

  lemma SnapshotStillComes(cached: Option<S.CachedAgent>, queue: seq<Envelope>)
    requires queue != [] && (cached.Some? || HasSnapshot(queue))
    ensures CachedAfter(cached, queue[0].update).Some? || HasSnapshot(queue[1..])
  {
    if cached.None? && queue[0].update.Delta? {
      var i :| 0 <= i < |queue| && queue[i].update.Full?;
      assert queue[1..][i - 1] == queue[i];
    }
  }

  /** What the scheduler holds for an agent after all messages of `queue`. */
  ghost function CachedAfterAll(cached: Option<S.CachedAgent>, queue: seq<Envelope>): Option<S.CachedAgent>
    decreases |queue|
  {
    if queue == [] then cached else CachedAfterAll(CachedAfter(cached, queue[0].update), queue[1..])
  }

  lemma {:induction false} DrainedCache(s: S.Sched, a: ActorId, queue: seq<Envelope>, now: nat)
    ensures CachedOf(Drained(s, a, queue, now), a) == CachedAfterAll(CachedOf(s, a), queue)
    decreases |queue|
  {
    if queue != [] {
      StatusRefreshesOneAgent(s, a, queue[0].update, now, a);
      DrainedCache(S.StatusArrived(s, a, queue[0].update, now), a, queue[1..], now);
    }
  }

  lemma {:induction false} DrainingReachesLastMessage(link: Link, cached: Option<S.CachedAgent>)
    requires LinkInv(link, cached) && link.queue != [] && (cached.Some? || HasSnapshot(link.queue))
    ensures var after := CachedAfterAll(cached, link.queue);
      && after.Some? && Faithful(after.value, link.logged.log)
      && after.value.revision == link.queue[|link.queue| - 1].update.revision
    decreases |link.queue|
  {
    var next, rest := CachedAfter(cached, link.queue[0].update), link.queue[1..];
    DeliveryKeepsLink(link, cached);
    if rest != [] {
      SnapshotStillComes(cached, link.queue);
      DrainingReachesLastMessage(link.(queue := rest), next);
    } else {
      assert CachedAfterAll(next, rest) == next;
    }
  }

  lemma NewestAfterHead(cached: Option<S.CachedAgent>, queue: seq<Envelope>)
    requires |queue| > 1 && LastIsNewest(cached, queue)
    ensures LastIsNewest(CachedAfter(cached, queue[0].update), queue[1..])
  {
    var rest := queue[1..];
    assert forall i :: 0 <= i < |rest| ==> rest[i] == queue[i + 1];
  }

  /** If the last message is the newest, its usage figures are the ones that stay. */
  lemma {:induction false} DrainingStoresUsage(cached: Option<S.CachedAgent>, queue: seq<Envelope>)
    requires queue != [] && LastIsNewest(cached, queue) && (cached.Some? || HasSnapshot(queue))
    ensures var after := CachedAfterAll(cached, queue);
      after.Some? && (after.value.data.usedVcpus, after.value.data.usedRam) == UsageIn(queue[|queue| - 1].update)
    decreases |queue|
  {
    var next, rest := CachedAfter(cached, queue[0].update), queue[1..];
    if rest != [] {
      SnapshotStillComes(cached, queue);
      NewestAfterHead(cached, queue);
      DrainingStoresUsage(next, rest);
    } else {
      assert CachedAfterAll(next, rest) == next;
      if cached.Some? {
        AppliedReplacesUsage(cached.value.data, queue[0].update);
      }
    }
  }

  /** Messages that are not newer than the cache change nothing. */
  lemma {:induction false} DrainingKeepsCurrent(s: S.Sched, a: ActorId, queue: seq<Envelope>, now: nat)
    requires a in s.agents
    requires forall i :: 0 <= i < |queue| ==> queue[i].update.revision <= s.agents[a].revision
    ensures Drained(s, a, queue, now) == s
    decreases |queue|
  {
    if queue != [] {
      assert S.StatusArrived(s, a, queue[0].update, now) == s;
      DrainingKeepsCurrent(s, a, queue[1..], now);
    }
  }

  /** A live updater will be heard: the agent is cached, or a snapshot is in flight or comes next. */
  ghost predicate Recoverable(link: Link, cached: Option<S.CachedAgent>) {
    link.cursor.Some? ==> cached.Some? || link.cursor.value.initial || HasSnapshot(link.queue)
  }

  lemma PollKeepsRecoverable(link: Link, cached: Option<S.CachedAgent>)
    requires Recoverable(link, cached) && link.cursor.Some?
    ensures cached.Some? || HasSnapshot(Polled(link).queue)
  {
    var queue := Polled(link).queue;
    if cached.None? {
      if link.cursor.value.initial {
        assert queue[|link.queue|].update.Full?;
      } else {
        var i :| 0 <= i < |link.queue| && link.queue[i].update.Full?;
        assert queue[i].update.Full?;
      }
    }
  }

  /**
   * One poll by a live updater, followed by delivery of what is queued, brings the scheduler to
   * the agent's current membership, however much history the agent has truncated.  The usage
   * figures become the agent's own if its revision is newer than the cache and the queue, and
   * stay what they were if the cache is at that revision already.
   */
  lemma PollAndDrainSynchronises(c: System, a: ActorId, now: nat)
    requires ClusterInv(c) && a in c.links && c.links[a].cursor.Some?
    requires Recoverable(c.links[a], CachedOf(c.sched, a))
    ensures var agent := c.links[a].logged.agent;
      var after := Drained(c.sched, a, Polled(c.links[a]).queue, now);
      && a in after.agents
      && after.agents[a].revision == agent.revision
      && after.agents[a].data.vms == SortedIds(agent.vms.Keys)
      && (LastIsNewest(CachedOf(c.sched, a), Polled(c.links[a]).queue) ==>
            && after.agents[a].data.usedVcpus == Min(U32_MAX, agent.usedVcpus + agent.reservedVcpus)
            && after.agents[a].data.usedRam == agent.usedMemory)
      && (a in c.sched.agents && c.sched.agents[a].revision == agent.revision ==> after == c.sched)
  {
    var link := c.links[a];
    var since, initial := link.cursor.value.revision, link.cursor.value.initial;
    PollKeepsLink(link, CachedOf(c.sched, a));
    PollKeepsRecoverable(link, CachedOf(c.sched, a));
    StatusDescribes(link.logged, since, initial);
    StatusReportsUsage(link.logged.agent, since, initial);
    DrainedCache(c.sched, a, Polled(link).queue, now);
    DrainingReachesLastMessage(Polled(link), CachedOf(c.sched, a));
    if LastIsNewest(CachedOf(c.sched, a), Polled(link).queue) {
      DrainingStoresUsage(CachedOf(c.sched, a), Polled(link).queue);
    }
    var after := Drained(c.sched, a, Polled(link).queue, now);
    SortedListingIsUnique(after.agents[a].data.vms, SortedIds(link.logged.agent.vms.Keys));
    if a in c.sched.agents && c.sched.agents[a].revision == link.logged.agent.revision {
      DrainingKeepsCurrent(c.sched, a, Polled(link).queue, now);
    }
  }

  /** After a poll the updater asks for changes only, and gets them while the history covers them. */
  lemma PollsBecomeIncremental(link: Link, cached: Option<S.CachedAgent>, later: Logged)
    requires LinkInv(link, cached) && link.cursor.Some?
    requires Tracks(later) && link.logged.log <= later.log && |later.log| <= |link.logged.log| + STATUS_CHANGE_HISTORY_LIMIT
    ensures Polled(link).cursor == Some(Cursor(link.logged.agent.revision, false))
    ensures Polled(link.(logged := later)).cursor == Some(Cursor(later.agent.revision, false))
    ensures var next := Polled(Polled(link).(logged := later));
      next.queue[|next.queue| - 1].update.Delta?
  {
    StatusDescribes(link.logged, link.cursor.value.revision, link.cursor.value.initial);
    StatusDescribes(later, link.cursor.value.revision, link.cursor.value.initial);
    StatusDescribes(later, link.logged.agent.revision, false);
  }

  // ----- the observation index -----

  /** The index of every cached agent equals its listing. */
  ghost predicate IndexExact(s: S.Sched) {
    s.index.Keys == s.agents.Keys && forall a :: a in s.agents ==> s.index[a] == Elems(s.agents[a].data.vms)
  }

  lemma StatusKeepsIndexExact(s: S.Sched, a: ActorId, update: StatusUpdate, since: nat, log: seq<LogEntry>, now: nat)
    requires IndexExact(s) && Describes(update, since, log)
    ensures IndexExact(S.StatusArrived(s, a, update, now))
  {
    if update.Delta? {
      CompactionIsDisjoint(update, since, log);
    }
  }

  lemma CreateKeepsMaps(
    s: S.Sched, vmid: VmId, config: Manifest, target: Option<ActorId>, outcome: S.CreateOutcome, now: nat)
    ensures S.Created(s, vmid, config, target, outcome, now).agents == s.agents
    ensures S.Created(s, vmid, config, target, outcome, now).index == s.index
  {
  }

  lemma CleanupKeepsIndexExact(s: S.Sched, id: ActorId)
    requires IndexExact(s)
    ensures IndexExact(S.AgentCleaned(s, id)) && IndexExact(S.VmCleaned(s, id))
  {
  }

  lemma OtherStepsKeepIndexExact(s: S.Sched, step: S.Step)
    requires IndexExact(s) && !step.AgentUpdated? && !(step.StopVm? && step.reached)
    ensures IndexExact(S.Next(s, step))
  {
    match step
    case ReconcileVmPlacements(dispatches, now) => DispatchKeepsAgents(S.Expired(s, now), dispatches, now);
    case CreateVm(vmid, config, target, outcome, now) => CreateKeepsMaps(s, vmid, config, target, outcome, now);
    case VmUpdaterStopped(id) => CleanupKeepsIndexExact(s.(kinds := s.kinds - {id}), id);
    case AgentUpdaterStopped(id) => CleanupKeepsIndexExact(s.(kinds := s.kinds - {id}), id);
    case LinkDied(id) => CleanupKeepsIndexExact(s.(kinds := s.kinds - {id}), id);
    case _ =>
  }

  lemma MoveKeepsIndexExact(parse: NumberParser, c: System, step: ClusterStep)
    requires ClusterInv(c) && Possible(parse, c, step) && IndexExact(c.sched)
    requires !(step.SchedulerActs? && step.step.StopVm? && step.step.reached)
    ensures IndexExact(Moved(parse, c, step).sched)
  {
    match step
    case Deliver(a, now) =>
      var head := c.links[a].queue[0];
      StatusKeepsIndexExact(c.sched, a, head.update, head.since, c.links[a].logged.log, now);
    case SchedulerActs(inner) => OtherStepsKeepIndexExact(c.sched, inner);
    case _ =>
  }

  /**
   * On runs without a delete or shutdown the index equals the cached listings, although one
   * applies additions before removals and the other removals before additions.
   */
  lemma {:induction false} IndexAgreesOverRuns(parse: NumberParser, c: System, steps: seq<ClusterStep>)
    requires ClusterInv(c) && IndexExact(c.sched)
    requires ClusterRuns(parse, c, steps) && Countable(Reached(parse, c, steps))
    requires forall i :: 0 <= i < |steps| ==> !(steps[i].SchedulerActs? && steps[i].step.StopVm? && steps[i].step.reached)
    ensures IndexExact(Reached(parse, c, steps).sched)
    decreases |steps|
  {
    if steps != [] {
      LogsOnlyGrow(parse, Moved(parse, c, steps[0]), steps[1..]);
      MoveKeepsInv(parse, c, steps[0]);
      MoveKeepsIndexExact(parse, c, steps[0]);
      IndexAgreesOverRuns(parse, Moved(parse, c, steps[0]), steps[1..]);
    }
  }
}
