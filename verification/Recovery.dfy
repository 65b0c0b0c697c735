/**
 * What live updaters guarantee over whole runs of the system: lost caches are refilled, and the
 * cached description of a host is the host's own.
 */
module Recovery {
  import opened Prelude
  import opened Membership
  import opened Policy
  import opened Agent
  import opened AgentHistory
  import opened Cluster
  import S = Scheduler

  // ----- no updater is left polling in vain -----

  ghost predicate AllRecoverable(c: System) {
    forall a :: a in c.links ==> Recoverable(c.links[a], CachedOf(c.sched, a))
  }

  /** A cached agent is dropped only by the cleanups that abort its updater. */
  lemma DropAbortsUpdater(s: S.Sched, step: S.Step, a: ActorId)
    requires !step.AgentUpdated? && a in s.agents && a !in S.Next(s, step).agents
    ensures AbortsUpdater(s, step, a)
  {
    match step
    case ReconcileVmPlacements(dispatches, now) => DispatchKeepsAgents(S.Expired(s, now), dispatches, now);
    case CreateVm(vmid, config, target, outcome, now) => CreateKeepsMaps(s, vmid, config, target, outcome, now);
    case _ =>
  }

  lemma DeliveryKeepsRecoverable(link: Link, cached: Option<S.CachedAgent>)
    requires Recoverable(link, cached) && link.queue != []
    ensures Recoverable(link.(queue := link.queue[1..]), CachedAfter(cached, link.queue[0].update))
  {
    if cached.Some? || HasSnapshot(link.queue) {
      SnapshotStillComes(cached, link.queue);
    }
  }

  lemma SchedulerKeepsRecoverable(parse: NumberParser, c: System, inner: S.Step, a: ActorId)
    requires Possible(parse, c, SchedulerActs(inner)) && a in c.links && Recoverable(c.links[a], CachedOf(c.sched, a))
    ensures var d := Moved(parse, c, SchedulerActs(inner)); Recoverable(d.links[a], CachedOf(d.sched, a))
  {
    if a in c.sched.agents && a !in S.Next(c.sched, inner).agents {
      DropAbortsUpdater(c.sched, inner, a);
    }
  }

  lemma MoveKeepsRecoverable(parse: NumberParser, c: System, step: ClusterStep)
    requires AllRecoverable(c) && Possible(parse, c, step)
    ensures AllRecoverable(Moved(parse, c, step))
  {
    var d := Moved(parse, c, step);
    forall b | b in d.links ensures Recoverable(d.links[b], CachedOf(d.sched, b)) {
      match step
      case Poll(a) =>
        if a == b {
          PollKeepsRecoverable(c.links[a], CachedOf(c.sched, a));
        }
      case Deliver(a, now) =>
        StatusRefreshesOneAgent(c.sched, a, c.links[a].queue[0].update, now, b);
        if a == b {
          DeliveryKeepsRecoverable(c.links[a], CachedOf(c.sched, a));
        }
      case SchedulerActs(inner) => SchedulerKeepsRecoverable(parse, c, inner, b);
      case _ =>
    }
  }

  lemma {:induction false} RecoverableOverRuns(parse: NumberParser, c: System, steps: seq<ClusterStep>)
    requires AllRecoverable(c) && ClusterRuns(parse, c, steps)
    ensures AllRecoverable(Reached(parse, c, steps))
    decreases |steps|
  {
    if steps != [] {
      MoveKeepsRecoverable(parse, c, steps[0]);
      RecoverableOverRuns(parse, Moved(parse, c, steps[0]), steps[1..]);
    }
  }

  /**
   * After any run, whatever was cleaned up, aborted or restarted: if an agent has a live
   * updater, one poll and delivery of its messages make the scheduler list the agent's VMs.
   */
  lemma LiveUpdaterSynchronises(parse: NumberParser, steps: seq<ClusterStep>, a: ActorId, now: nat)
    requires ClusterRuns(parse, START, steps) && Countable(Reached(parse, START, steps))
    requires var c := Reached(parse, START, steps); a in c.links && c.links[a].cursor.Some?
    ensures var c := Reached(parse, START, steps);
      var agent := c.links[a].logged.agent;
      var after := Drained(c.sched, a, Polled(c.links[a]).queue, now);
      && a in after.agents
      && after.agents[a].revision == agent.revision
      && after.agents[a].data.vms == SortedIds(agent.vms.Keys)
  {
    ClusterInvOverRuns(parse, START, steps);
    RecoverableOverRuns(parse, START, steps);
    PollAndDrainSynchronises(Reached(parse, START, steps), a, now);
  }

  // ----- the cached description of a host -----

  ghost predicate Describing(status: AgentStatus, agent: AgentState) {
    && status.hostname == agent.hostname && status.vcpus == agent.vcpus
    && status.ram == agent.memory && status.metadata == agent.metadata
  }

  ghost predicate HostKnown(link: Link, cached: Option<S.CachedAgent>) {
    && (cached.Some? ==> Describing(cached.value.data, link.logged.agent))
    && forall i :: 0 <= i < |link.queue| && link.queue[i].update.Full? ==>
         Describing(link.queue[i].update.status, link.logged.agent)
  }

  ghost predicate HostsKnown(c: System) {
    forall a :: a in c.links ==> HostKnown(c.links[a], CachedOf(c.sched, a))
  }

  lemma {:induction false} RemovalsKeepHost(s: AgentState, order: seq<VmId>, status: AgentStatus)
    ensures Describing(status, RemovedAll(s, order)) <==> Describing(status, s)
    decreases |order|
  {
    if order != [] {
      RemovalsKeepHost(Removed(s, order[0]), order[1..], status);
    }
  }

  lemma StepKeepsHost(l: Logged, step: AgentStep, status: AgentStatus)
    ensures Describing(status, LoggedStep(l, step).agent) <==> Describing(status, l.agent)
  {
    StepExtendsLog(l, step);
    if step.LinkDied? {
      RemovalsKeepHost(l.agent, step.order, status);
    }
  }

  lemma ActionKeepsHostKnown(link: Link, cached: Option<S.CachedAgent>, action: AgentStep)
    requires HostKnown(link, cached)
    ensures HostKnown(link.(logged := LoggedStep(link.logged, action)), cached)
  {
    forall status: AgentStatus | Describing(status, link.logged.agent)
      ensures Describing(status, LoggedStep(link.logged, action).agent)
    {
      StepKeepsHost(link.logged, action, status);
    }
  }

  lemma PollKeepsHostKnown(link: Link, cached: Option<S.CachedAgent>)
    requires HostKnown(link, cached) && link.cursor.Some?
    ensures HostKnown(Polled(link), cached)
  {
    StatusReportsUsage(link.logged.agent, link.cursor.value.revision, link.cursor.value.initial);
  }

  lemma DeliveryKeepsHostKnown(link: Link, cached: Option<S.CachedAgent>)
    requires HostKnown(link, cached) && link.queue != []
    ensures HostKnown(link.(queue := link.queue[1..]), CachedAfter(cached, link.queue[0].update))
  {
    var rest := link.queue[1..];
    assert forall i :: 0 <= i < |rest| ==> rest[i] == link.queue[i + 1];
    if cached.Some? {
      AppliedReplacesUsage(cached.value.data, link.queue[0].update);
    }
  }

  lemma MoveKeepsHostsKnown(parse: NumberParser, c: System, step: ClusterStep)
    requires HostsKnown(c) && Possible(parse, c, step) && c.sched.agents.Keys <= c.links.Keys
    ensures HostsKnown(Moved(parse, c, step))
  {
    var d := Moved(parse, c, step);
    forall b | b in d.links ensures HostKnown(d.links[b], CachedOf(d.sched, b)) {
      match step
      case AgentActs(a, action) =>
        if a == b {
          ActionKeepsHostKnown(c.links[a], CachedOf(c.sched, a), action);
        }
      case Poll(a) =>
        if a == b {
          PollKeepsHostKnown(c.links[a], CachedOf(c.sched, a));
        }
      case Deliver(a, now) =>
        StatusRefreshesOneAgent(c.sched, a, c.links[a].queue[0].update, now, b);
        if a == b {
          DeliveryKeepsHostKnown(c.links[a], CachedOf(c.sched, a));
        }
      case SchedulerActs(inner) => OtherStepsKeepOrDrop(c.sched, inner, b);
      case _ =>
    }
  }

  /** In every reachable state the cached hostname, capacities and metadata are the host's own. */
  lemma {:induction false} HostsKnownOverRuns(parse: NumberParser, c: System, steps: seq<ClusterStep>)
    requires ClusterInv(c) && HostsKnown(c)
    requires ClusterRuns(parse, c, steps) && Countable(Reached(parse, c, steps))
    ensures HostsKnown(Reached(parse, c, steps))
    decreases |steps|
  {
    if steps != [] {
      LogsOnlyGrow(parse, Moved(parse, c, steps[0]), steps[1..]);
      MoveKeepsInv(parse, c, steps[0]);
      MoveKeepsHostsKnown(parse, c, steps[0]);
      HostsKnownOverRuns(parse, Moved(parse, c, steps[0]), steps[1..]);
    }
  }
}
