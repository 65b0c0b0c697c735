/**
 * Every run of the whole system is a run of its scheduler, so what is proved of scheduler runs
 * holds of the system.
 */
module SystemRuns {
  import opened Prelude
  import opened Policy
  import opened Placements
  import opened Cluster
  import S = Scheduler
  import SI = SchedulerInvariants
  import T = SchedulerTheorems
  import O = Overcommit

  /** The scheduler steps that one step of the system performs: at most one. */
  ghost function Projected(parse: NumberParser, c: System, step: ClusterStep): seq<S.Step>
    requires Possible(parse, c, step)
  {
    match step
    case Discover(a) => if c.links[a].cursor.Some? then [] else [S.AgentDiscovered(a)]
    case Deliver(a, now) => [S.AgentUpdated(a, c.links[a].queue[0].update, now)]
    case SchedulerActs(inner) => [inner]
    case _ => []
  }

  ghost function ProjectedRun(parse: NumberParser, c: System, steps: seq<ClusterStep>): seq<S.Step>
    requires ClusterRuns(parse, c, steps)
    decreases |steps|
  {
    if steps == [] then []
    else Projected(parse, c, steps[0]) + ProjectedRun(parse, Moved(parse, c, steps[0]), steps[1..])
  }

  lemma OneStep(parse: NumberParser, s: S.Sched, step: S.Step)
    requires S.Enabled(parse, s, step)
    ensures S.Runs(parse, s, [step]) && S.After(s, [step]) == S.Next(s, step)
  {
    assert [step][1..] == [];
    assert S.After(S.Next(s, step), []) == S.Next(s, step);
  }

  /** Messages in flight are acceptable, so each step of the system is a step of the scheduler or none. */
  lemma StepProjects(parse: NumberParser, c: System, step: ClusterStep)
    requires ClusterInv(c) && Possible(parse, c, step)
    ensures S.Runs(parse, c.sched, Projected(parse, c, step))
    ensures S.After(c.sched, Projected(parse, c, step)) == Moved(parse, c, step).sched
  {
    var projected := Projected(parse, c, step);
    if projected != [] {
      OneStep(parse, c.sched, projected[0]);
    }
  }

  lemma {:induction false} RunsAppend(parse: NumberParser, s: S.Sched, first: seq<S.Step>, second: seq<S.Step>)
    requires S.Runs(parse, s, first) && S.Runs(parse, S.After(s, first), second)
    ensures S.Runs(parse, s, first + second)
    ensures S.After(s, first + second) == S.After(S.After(s, first), second)
    decreases |first|
  {
    if first == [] {
      assert first + second == second;
    } else {
      assert (first + second)[1..] == first[1..] + second;
      RunsAppend(parse, S.Next(s, first[0]), first[1..], second);
    }
  }

  /** A run of the system leads its scheduler where the projected run leads it. */
  lemma {:induction false} RunProjects(parse: NumberParser, c: System, steps: seq<ClusterStep>)
    requires ClusterInv(c) && ClusterRuns(parse, c, steps) && Countable(Reached(parse, c, steps))
    ensures S.Runs(parse, c.sched, ProjectedRun(parse, c, steps))
    ensures S.After(c.sched, ProjectedRun(parse, c, steps)) == Reached(parse, c, steps).sched
    decreases |steps|
  {
    if steps != [] {
      var d := Moved(parse, c, steps[0]);
      LogsOnlyGrow(parse, d, steps[1..]);
      MoveKeepsInv(parse, c, steps[0]);
      StepProjects(parse, c, steps[0]);
      RunProjects(parse, d, steps[1..]);
      RunsAppend(parse, c.sched, Projected(parse, c, steps[0]), ProjectedRun(parse, d, steps[1..]));
    }
  }

  // ----- the scheduler's theorems for the whole system -----

  /** After any run of the system a VM is reserved at most once and on at most one agent. */
  lemma SystemReservesOnce(parse: NumberParser, steps: seq<ClusterStep>, v: VmId, a: ActorId, b: ActorId, amount: nat)
    requires ClusterRuns(parse, START, steps) && Countable(Reached(parse, START, steps))
    ensures var entries := S.Get(Reached(parse, START, steps).sched.placements, v);
      && WellPlaced(entries)
      && (ReservedOn(entries, a, amount) == 0 || ReservedOn(entries, a, amount) == amount)
      && (a != b ==> ReservedOn(entries, a, amount) == 0 || ReservedOn(entries, b, amount) == 0)
  {
    RunProjects(parse, START, steps);
    T.UniqueReservation(parse, ProjectedRun(parse, START, steps), v, a, b, amount);
  }

  lemma {:induction false} ProjectionStatesNoIntent(parse: NumberParser, c: System, steps: seq<ClusterStep>, v: VmId)
    requires ClusterRuns(parse, c, steps)
    requires forall i :: 0 <= i < |steps| && steps[i].SchedulerActs? ==> !T.StatesIntent(steps[i].step, v)
    ensures forall i :: 0 <= i < |ProjectedRun(parse, c, steps)| ==> !T.StatesIntent(ProjectedRun(parse, c, steps)[i], v)
    decreases |steps|
  {
    if steps != [] {
      ProjectionStatesNoIntent(parse, Moved(parse, c, steps[0]), steps[1..], v);
    }
  }

  /** Whatever agents do and report, a VM without intent stays gone until intent is stated again. */
  lemma SystemNeverResurrects(parse: NumberParser, c: System, steps: seq<ClusterStep>, v: VmId)
    requires ClusterInv(c) && ClusterRuns(parse, c, steps) && Countable(Reached(parse, c, steps))
    requires v !in c.sched.manifests
    requires forall i :: 0 <= i < |steps| && steps[i].SchedulerActs? ==> !T.StatesIntent(steps[i].step, v)
    ensures var s := Reached(parse, c, steps).sched; v !in s.manifests && v !in s.placements
  {
    RunProjects(parse, c, steps);
    ProjectionStatesNoIntent(parse, c, steps, v);
    T.NoResurrection(parse, c.sched, ProjectedRun(parse, c, steps), v);
  }

  /** Observed VMs are placed throughout if and only if no create of the system's run breaks it. */
  lemma SystemPlacesObserved(parse: NumberParser, steps: seq<ClusterStep>)
    requires ClusterRuns(parse, START, steps) && Countable(Reached(parse, START, steps))
    ensures var run := ProjectedRun(parse, START, steps);
      && (T.ObservedThroughout(S.EMPTY, run) <==> T.AllKeepObservation(S.EMPTY, run))
      && (T.AllKeepObservation(S.EMPTY, run) ==> T.ObservedIsPlaced(Reached(parse, START, steps).sched))
  {
    RunProjects(parse, START, steps);
    T.ObservationOverRuns(parse, S.EMPTY, ProjectedRun(parse, START, steps));
  }

  lemma {:induction false} ProjectionKeepsStatus(parse: NumberParser, c: System, steps: seq<ClusterStep>, a: ActorId)
    requires ClusterRuns(parse, c, steps)
    requires forall i :: 0 <= i < |steps| ==> !(steps[i].Deliver? && steps[i].a == a)
    ensures forall i :: 0 <= i < |ProjectedRun(parse, c, steps)| ==>
      !(ProjectedRun(parse, c, steps)[i].AgentUpdated? && ProjectedRun(parse, c, steps)[i].id == a)
    decreases |steps|
  {
    if steps != [] {
      ProjectionKeepsStatus(parse, Moved(parse, c, steps[0]), steps[1..], a);
    }
  }

  /** Between two deliveries for an agent the system keeps it within its limits iff every report fits. */
  lemma SystemNeverOvercommits(parse: NumberParser, c: System, steps: seq<ClusterStep>, a: ActorId)
    requires ClusterInv(c) && ClusterRuns(parse, c, steps) && Countable(Reached(parse, c, steps))
    requires forall i :: 0 <= i < |steps| ==> !(steps[i].Deliver? && steps[i].a == a)
    requires a in c.sched.agents ==> Measurable(c.sched.agents[a].data)
    requires O.NotOvercommitted(c.sched, a)
    ensures var run := ProjectedRun(parse, c, steps);
      && (O.WithinLimitsThroughout(c.sched, run, a) <==> O.AllKeepLimits(c.sched, run, a))
      && (O.AllKeepLimits(c.sched, run, a) ==> O.NotOvercommitted(Reached(parse, c, steps).sched, a))
  {
    RunProjects(parse, c, steps);
    ProjectionKeepsStatus(parse, c, steps, a);
    O.NoOvercommit(parse, c.sched, ProjectedRun(parse, c, steps), a);
  }
}
