# Odorobo cluster state: a verified model

Odorobo runs virtual machines on many hosts.  An *agent* on each host owns the VMs there; one
*scheduler* keeps an eventually consistent copy of what every agent runs and decides where
new VMs go.  This project models that protocol in Dafny and proves what it is supposed to
guarantee, together with two smaller self-contained pieces: the bounded serial-console history
and the iSCSI device-path codec.

What is modelled, from the bottom up:

| file | contents |
|---|---|
| `Prelude.dfy` | machine-integer ranges, saturating arithmetic, sorted listings, sums over maps |
| `Membership.dfy` | agent status, full and delta updates, `apply_status_update` on the sorted vector |
| `Agent.dfy` | the agent: VM table, usage counters, revision, bounded change history, poll replies |
| `AgentHistory.dfy` | the same agent beside a ghost log of all its membership changes |
| `Policy.dfy` | capacity, affinity and score arithmetic |
| `Affinity.dfy` | what requirements, rules and totals mean, operator by operator |
| `Placements.dfy` | the placement list of one VM: `retain`, confirmation, reservation |
| `Scheduler.dfy` | the scheduler's correlated maps; every handler as a function; steps and runs |
| `SchedulerInvariants.dfy` | the inductive invariant over all handlers |
| `SchedulerTheorems.dfy` | unique reservation, observation, no resurrection, rollback |
| `Choice.dfy` | which agent is chosen, without reference to scores |
| `Reservations.dfy` | how reservations come about, what ends them, no second dispatch before |
| `Handlers.dfy` | the handlers' effect on the other maps, map by map |
| `Overcommit.dfy` | exact totals against an agent's limits over runs |
| `SchedulerSteps.dfy` | loop-by-loop lemmas for the methods |
| `SchedulerActor.dfy` | the scheduler as a class, one method per helper and handler |
| `Refinement.dfy` | a simpler abstract scheduler and the simulation proof |
| `ArrivalOrder.dfy` | handlers entry by entry; snapshot and discovery in either order |
| `Cluster.dfy` | agents, updater tasks, message queues and scheduler as one state machine |
| `Recovery.dfy` | lost caches are refilled and cached host descriptions are true, over runs |
| `SystemRuns.dfy` | every run of that machine is a scheduler run; the scheduler theorems for the system |
| `Console.dfy`, `Iscsi.dfy` | console ring buffer; device-path printer and parser |

How to read the model:

- A handler is atomic, because it holds `&mut self`.  What it does not decide itself (a clock
  reading, hash-map order, the outcome of a remote call, the choice among equally good agents)
  is a parameter of its step.  Loops over hash maps pick keys in arbitrary order.
- The classes `AgentActor`, `SchedulerActor` and `Console` carry the source's fields; each method
  is proved equal to a function of the old state, and the theorems are about those functions.
- Helpers that the source writes as associated functions over `&mut` maps are methods that take
  and return the maps.
- Integer widths are explicit: `u32`, `u64` and `i64` saturate exactly where the source does.
- In the cluster machine each agent has at most one live updater, whose replies are delivered in
  order; cleanup of an agent aborts its updater, messages already sent stay in flight, and a
  restarted updater begins with an initial poll.  A reply that an updater obtained but never
  forwarded has no effect, so a poll and the forwarding of its reply are one step.

Some guarantees hold only under a condition.  Each is proved with its condition:

- Replication holds while an agent has recorded at most `u64::MAX` changes; beyond that the
  revision saturates and changes become invisible (`SaturatedRevisionHidesChanges`).
- A poll refreshes the cached usage figures if the agent's revision is newer than the cache and
  than every message in flight; at an unchanged revision the handler drops the update and the
  figures stay (`PollAndDrainSynchronises`).
- Observed VMs are placed in every state of a run if and only if no create stays in force for an
  id that some agent already reports (`ObservationOverRuns`, `CreateKeepsObservation`).
- Between status updates of an agent below the integer limits, its exact totals stay within its
  limits in every state of a run if and only if every manifest report of the run fits; a report
  fits if the totals do with the VM's old request taken off and, unless the agent reports the VM,
  the new one added (`NoOvercommit`, `ReportKeepsLimits`).  Reports that do not enlarge a request
  always fit (`HarmlessReportFits`).
- The saturating capacity check is exact for hosts below the integer limits and fails to see some
  excessive load on every other host (`CapacityCheckIsExact`,
  `UnmeasurableAgentsAreOvercommitted`).
- An eligible agent can be selected if and only if its affinity has not saturated to the least
  integer or it has both vCPUs and RAM (`EligibleIsRanked`).  Only a request without vCPUs or
  without memory can miss this, and deserialisation rejects such manifests
  (`odorobo/src/manifest.rs:94`, `odorobo/src/manifest.rs:139-152`).
- Usage counters are exact in every state of a run if and only if no sum outgrows its counter
  (`UsageOverRuns`).
- A snapshot and a VM's discovery may be exchanged exactly in the cases of `OrderIndifferent`;
  a snapshot that contains the VM is one of them (`ArrivalOrderIndependence`).
- The device-path round trip holds exactly for unambiguous targets (`RoundTrip`).

Where comments and code differ the code is followed.  The comment on the discovery loop speaks
of expiring pending placements only, while the handler also re-creates unplaced VMs.  A failed
create passes an actor id to the rollback that can only be absent, since it is read from the
reply that failed.

## Model

| member | source | states |
|---|---|---|
| `Cluster.ReplicationSafety` | odorobo/src/actors/scheduler_actor/discovery.rs:120-176 | After any run of agent changes, polls, in-order deliveries, cleanups and updater restarts, every cached listing is the sorted membership the agent had at the cached revision, which is at most the agent's own |
| `Cluster.MoveKeepsInv` | odorobo/src/actors/scheduler_actor/discovery.rs:294-365 | Every step of the whole system keeps: queued updates are truthful and ordered, each delta continues from what precedes it, caches are faithful |
| `Cluster.ClusterInvOverRuns` | odorobo/src/actors/scheduler_actor/discovery.rs:120-176 | The replication invariant holds along every run |
| `Cluster.RevisionNeverDecreases` | odorobo/src/actors/scheduler_actor/discovery.rs:322-328 | While an agent stays cached no step lowers its cached revision |
| `Cluster.PollAndDrainSynchronises` | odorobo/src/actors/scheduler_actor/discovery.rs:126-146 | One poll by a live updater and delivery of the queue make the cached listing the agent's current VM table, whatever history was truncated; the usage figures become min(MAX, used + reserved) and used memory if the revision is newer than cache and queue, and nothing changes if the cache is at that revision |
| `Cluster.PollsBecomeIncremental` | odorobo/src/actors/scheduler_actor/discovery.rs:133-137 | After a poll the updater stands at the reply's revision and is no longer initial, so the next reply is a delta as long as at most 256 changes happened |
| `Recovery.LiveUpdaterSynchronises` | odorobo/src/actors/scheduler_actor/discovery.rs:233-254 | After any run, whatever was cleaned up, aborted or restarted, a poll and delivery refill the cache of every agent with a live updater |
| `Recovery.RecoverableOverRuns` | odorobo/src/actors/scheduler_actor/cache.rs:230-251 | A live updater's agent is always cached, or a snapshot is in flight or comes next, because cleanup aborts the updater |
| `Recovery.HostsKnownOverRuns` | odorobo/src/actors/agent_actor.rs:390-402 | In every reachable state the cached hostname, capacities and metadata are the host's own |
| `Cluster.DeliveryKeepsLink` | odorobo/src/actors/scheduler_actor/discovery.rs:297-364 | Delivering the oldest message keeps the link invariant and, if anything is cached, leaves it at the message's revision |
| `Cluster.IndexAgreesOverRuns` | odorobo/src/actors/scheduler_actor/discovery.rs:329-363 | On runs without delete or shutdown the index of every cached agent equals its listing, although the two apply additions and removals in opposite orders |
| `SystemRuns.RunProjects` | odorobo/src/actors/scheduler_actor/discovery.rs:120-176 | Every run of the whole system is a run of its scheduler to the same state, because every message in flight is acceptable |
| `SystemRuns.SystemReservesOnce` | odorobo/src/actors/scheduler_actor/handlers.rs:89-120 | After any run of the system a VM is reserved at most once and on at most one agent |
| `SystemRuns.SystemNeverResurrects` | odorobo/src/actors/scheduler_actor/handlers.rs:199-238 | Whatever agents do and report, a VM without intent stays without manifest and placement until intent is stated |
| `SystemRuns.SystemPlacesObserved` | odorobo/src/actors/scheduler_actor/discovery.rs:258-365 | The observation theorem for runs of the system |
| `SystemRuns.SystemNeverOvercommits` | odorobo/src/actors/scheduler_actor/scheduling.rs:116-150 | The overcommit theorem for runs of the system between deliveries for the agent |
| `AgentHistory.StepTracks` | odorobo/src/actors/agent_actor.rs:55-86 | Every insert, removal and link death keeps: revision counts all changes, the table is the membership they produce, the history is exactly the last min(256, n) of them with consecutive revisions |
| `AgentHistory.StatusDescribes` | odorobo/src/actors/agent_actor.rs:404-442 | Every poll reply is true of the full log; a delta is sent if and only if the history still covers every change after the asked revision |
| `AgentHistory.CompactionIsDisjoint` | odorobo/src/actors/agent_actor.rs:417-435 | The lists of a delta share no VM, so removing-then-adding and adding-then-removing give the same set |
| `AgentHistory.DeltaCatchesUp` | odorobo/src/messages/agent.rs:66-87 | A delta since s applied to the membership at any revision from s to r gives the membership at r |
| `AgentHistory.SaturatedRevisionHidesChanges` | odorobo/src/actors/agent_actor.rs:56 | At `u64::MAX` an insertion changes membership while polls receive an empty delta at the same revision |
| `AgentHistory.InsertedUsage` | odorobo/src/actors/agent_actor.rs:67-78 | Inserting or overwriting keeps the counters at or below the true sums; exact counters stay exact if and only if the sums still fit |
| `AgentHistory.RemovedUsage` | odorobo/src/actors/agent_actor.rs:80-86 | Removal keeps the counters at or below the true sums, and exact if they were |
| `AgentHistory.UsageOverRuns` | odorobo/src/actors/agent_actor.rs:67-86 | Over any run the counters never exceed the sums over live VMs; exact counters stay exact in every state if and only if no sum outgrows its counter |
| `Agent.AgentActor.constructor` | odorobo/src/actors/agent_actor.rs:113-123 | A new agent has no VM, no usage, revision zero and no history |
| `Agent.AgentActor.RecordMembershipChange` | odorobo/src/actors/agent_actor.rs:55-65 | Advances the revision, appends the change and keeps the newest 256 |
| `Agent.AgentActor.InsertVm` | odorobo/src/actors/agent_actor.rs:67-78 | New VMs are recorded, overwritten ones release their usage first; nothing else changes |
| `Agent.AgentActor.RemoveVm` | odorobo/src/actors/agent_actor.rs:80-86 | Removes and returns a known VM with its usage and records the change; unknown VMs change nothing |
| `Agent.LinkDeathIsExact` | odorobo/src/actors/agent_actor.rs:146-154 | After an actor's death exactly the VMs of other actors remain, each with its data, and the revision has grown by the number of VMs removed, up to saturation |
| `Agent.StatusReportsUsage` | odorobo/src/actors/agent_actor.rs:386-402 | Every reply reports min(MAX, used + reserved) vCPUs and used memory; a snapshot also the host's name, capacities and metadata |
| `Agent.AgentActor.CollectHosted` | odorobo/src/actors/agent_actor.rs:146-151 | Lists exactly the VMs of the given actor, each once |
| `Agent.AgentActor.OnLinkDied` | odorobo/src/actors/agent_actor.rs:146-154 | The table keeps exactly the VMs of other actors with their data; the revision grows by the number removed |
| `Agent.AgentActor.GetAgentStatus` | odorobo/src/actors/agent_actor.rs:381-443 | The reply is the snapshot or the compacted delta that `StatusDescribes` is about |
| `Membership.BinarySearch` | odorobo/src/messages/agent.rs:74-79 | On a strictly sorted vector: the position of the id, or the position where it belongs |
| `Membership.AppliedReplacesUsage` | odorobo/src/messages/agent.rs:84-85 | A delta brings its own usage figures and leaves hostname, capacities and metadata; a snapshot replaces everything |
| `Membership.ApplyStatusUpdate` | odorobo/src/messages/agent.rs:57-89 | In-place removals and insertions yield the sorted listing of (members minus removed) plus added, with the delta's usage and the host's old identity; a snapshot replaces the status; the update's revision is returned |
| `SchedulerInvariants.StepKeepsInv` | odorobo/src/actors/scheduler_actor.rs:134-163 | Every handler keeps the maps together: placements only for known VMs and well formed, index keyed like the agent cache and within its sorted listings, cached totals absent or fresh |
| `SchedulerInvariants.InvOverRuns` | odorobo/src/actors/scheduler_actor.rs:134-163 | That invariant holds in every reachable state |
| `SchedulerInvariants.DispatchKeepsInv` | odorobo/src/actors/scheduler_actor/discovery.rs:396-424 | A re-dispatch keeps the invariant, also the failed one that rewrites placements under a filled totals cache |
| `SchedulerInvariants.PendingReadsListsOnly` | odorobo/src/actors/scheduler_actor/scheduling.rs:236-256 | An empty placement list reserves as much as no list at all |
| `SchedulerInvariants.ChoiceReadsListsOnly` | odorobo/src/actors/scheduler_actor/scheduling.rs:57-81 | The possible scheduling outcomes depend only on agents, manifests, index and placement lists |
| `SchedulerTheorems.UniqueReservation` | odorobo/src/actors/scheduler_actor/handlers.rs:89-120 | In every reachable state a VM has one entry per agent at most and one reservation at most, so it is reserved once and on one agent; entries are confirmed exactly when running |
| `SchedulerTheorems.CreateKeepsObservation` | odorobo/src/actors/scheduler_actor/handlers.rs:104-151 | A create that stays in force keeps observed VMs placed if and only if no agent's index names its id |
| `SchedulerTheorems.StepKeepsObservation` | odorobo/src/actors/scheduler_actor/cache.rs:260-349 | A handler keeps every known VM that an agent's index names running on that agent, unless it is a create that stays in force for an id some agent reports, which always breaks it |
| `SchedulerTheorems.ObservationOverRuns` | odorobo/src/actors/scheduler_actor/discovery.rs:258-365 | Observed VMs are placed in every state of a run if and only if the run has no such create |
| `SchedulerTheorems.ObservedIsNeitherPendingNorRedispatched` | odorobo/src/actors/scheduler_actor/discovery.rs:385-394 | After such runs a reported known VM reserves nothing on its agent and is not re-dispatched, whenever reconciliation runs |
| `SchedulerTheorems.NoResurrection` | odorobo/src/actors/scheduler_actor/cache.rs:153-168 | Without a create or a manifest-carrying report a VM without intent never regains a manifest or placement and is never dispatched |
| `SchedulerTheorems.StoppedVmStaysGone` | odorobo/src/actors/scheduler_actor/handlers.rs:199-238 | The same after a delete or shutdown that reached the VM, from every reachable state |
| `SchedulerTheorems.RollbackUndoesCreate` | odorobo/src/actors/scheduler_actor/cache.rs:206-227 | A create that fails without an actor leaves the state as before, apart from discarded totals and the id's actor entries |
| `Reservations.CreateReserves` | odorobo/src/actors/scheduler_actor/handlers.rs:106-116 | A create that stays in force leaves one entry: pending on its target, created at the handler's time |
| `Reservations.PassReserves` | odorobo/src/actors/scheduler_actor/discovery.rs:396-421 | A pass gives each VM it lists the outcome of its own attempt: a reservation created at the pass's time, or no entry |
| `Reservations.UnplacedMeans` | odorobo/src/actors/scheduler_actor/discovery.rs:385-394 | The VMs to dispatch are the known ones without an entry on any agent |
| `Reservations.ReservationLasts` | odorobo/src/actors/scheduler_actor/cache.rs:74-85 | A reservation made at t is up for another dispatch if and only if no actor was discovered and 120 s have passed since t |
| `Reservations.StepEndsReservation` | odorobo/src/actors/scheduler_actor/cache.rs:155-417 | A reservation survives a handler if and only if the handler is not its VM's stop, a report or accepted status that confirms it, a snapshot or pass after its 120 s, or a cleanup of its agent that does not spare it |
| `Reservations.ReservationOverRuns` | odorobo/src/actors/scheduler_actor/discovery.rs:381-425 | It is held in every state of a run if and only if no step ends it, and no pass of such a run dispatches its VM |
| `Reservations.NoSecondDispatch` | odorobo/src/actors/scheduler_actor/handlers.rs:111-116 | After a create in force its VM is not dispatched again until something ends the reservation |
| `Handlers.ActorTakesPlaceholder` | odorobo/src/actors/scheduler_actor/cache.rs:39-50 | A known actor keeps its entry, a new one takes the first placeholder or the end of the list |
| `Handlers.ReportRecords` | odorobo/src/actors/scheduler_actor/discovery.rs:261-280 | A report maps its actor to its VM, records it there, stores the manifest it carries, and changes no other entry |
| `Handlers.RefusedCreateChangesNothing` | odorobo/src/actors/scheduler_actor/handlers.rs:89-104 | A create of a known id changes nothing, one without an agent at most the totals cache |
| `Handlers.CreateRemembersActor` | odorobo/src/actors/scheduler_actor/handlers.rs:106-151 | The actor in the reply is mapped to the VM, manifest and placeholder are kept unless the create is rolled back, and the other maps stay |
| `Handlers.RollbackIsSelective` | odorobo/src/actors/scheduler_actor/cache.rs:210-227 | Nothing happens if an actor exists; else the VM goes, and the given actor only if it is mapped to this VM |
| `Handlers.DispatchChangesEntries` | odorobo/src/actors/scheduler_actor/discovery.rs:409-420 | A sent attempt adds a placeholder, a failed one drops the VM's actor entries |
| `Handlers.StopForgetsVm` | odorobo/src/actors/scheduler_actor/cache.rs:155-168 | A stop erases the VM from every map and index entry and nothing else from any |
| `Handlers.AgentDeparts` | odorobo/src/actors/scheduler_actor/cache.rs:247-250 | Cleanup of an agent removes it from cache and index and keeps all lists and other maps |
| `Handlers.VmActorDeparts` | odorobo/src/actors/scheduler_actor/cache.rs:265-267 | Cleanup of a VM actor removes exactly this actor everywhere, and the lists this empties |
| `Handlers.DeadLinkActsByKind` | odorobo/src/actors/scheduler_actor/handlers.rs:67-71 | A dead link cleans up once, as agent or as VM actor by the recorded kind, and is ignored without one |
| `Handlers.DiscoveredActorsAreCleanedUp` | odorobo/src/actors/scheduler_actor/discovery.rs:219-247 | The kind that discovery records is the one that decides the cleanup |
| `Handlers.StoppedUpdaterIsADeadLink` | odorobo/src/actors/scheduler_actor/discovery.rs:287-290 | An updater that gave up counts as a dead link to an actor of its kind |
| `Handlers.ExpiryKeepsIntent` | odorobo/src/actors/scheduler_actor/cache.rs:87-97 | Expiry keeps manifests, lists and discovered actors, and drops placeholders of VMs left without entry and actor |
| `Overcommit.ReservationGrowsByRequest` | odorobo/src/actors/scheduler_actor/handlers.rs:106-116 | A new reservation adds exactly the request, on its target and nowhere else |
| `Overcommit.NoOvercommit` | odorobo/src/actors/scheduler_actor/scheduling.rs:116-150 | On a run without status updates of an agent its exact used plus reserved totals are within 2 x vCPUs and RAM in every state if and only if every manifest report of the run fits |
| `Overcommit.StepKeepsLimits` | odorobo/src/actors/scheduler_actor/discovery.rs:396-421 | Any single handler other than the agent's own status keeps the totals within the limits, except a manifest report that does not fit |
| `Overcommit.ReportKeepsLimits` | odorobo/src/actors/scheduler_actor/discovery.rs:258-281 | A manifest report leaves an agent within its limits if and only if the totals fit with the old request taken off where the VM is reserved and the new one added where the agent does not report it |
| `Overcommit.HarmlessReportFits` | odorobo/src/actors/scheduler_actor/discovery.rs:265-273 | Reports of VMs not reserved on the agent, of VMs the agent reports, and reports that do not enlarge a request always fit |
| `Overcommit.LargerReportOvercommits` | odorobo/src/actors/scheduler_actor/discovery.rs:265-273 | A report of a reserved, unreported VM that asks for more vCPUs or memory than the agent has unused always overcommits it |
| `Policy.CapacityCheckIsExact` | odorobo/src/actors/scheduler_actor/scheduling.rs:224-234 | On hosts below the integer limits the saturating check succeeds if and only if the exact totals fit |
| `Policy.UnmeasurableAgentsAreOvercommitted` | odorobo/src/actors/scheduler_actor/scheduling.rs:124-150 | On every other host, whatever it uses, each request that fits also passes the check under some load with which the exact totals do not fit |
| `Policy.EvaluateAffinityRule` | odorobo/src/actors/scheduler_actor/scheduling.rs:289-317 | The early-exit loops compute: inverse XOR some requirement holds of every object of a non-empty set, independent of order and repetition; `Affinity` says what each requirement means |
| `Affinity.PresentKey` | odorobo/src/actors/scheduler_actor/scheduling.rs:331-333 | With the key present `In` holds if and only if the value is listed and `NotIn` if and only if it is not |
| `Affinity.MissingKey` | odorobo/src/actors/scheduler_actor/scheduling.rs:327-329 | Without the key only `NotIn` holds |
| `Affinity.NotInIsTheComplementOfIn` | odorobo/src/actors/scheduler_actor/scheduling.rs:331-333 | On a present key the two are complementary |
| `Affinity.ListingIsMonotone` | odorobo/src/actors/scheduler_actor/scheduling.rs:332 | `In` is false of no values, true once the value is added, and stays true |
| `Affinity.ComparisonsNeedNumbers` | odorobo/src/actors/scheduler_actor/scheduling.rs:334-345 | `Lt` and `Gt` hold only with exactly one value, numbers on both sides, and different texts |
| `Affinity.ComparisonsOrderNumbers` | odorobo/src/actors/scheduler_actor/scheduling.rs:347-351 | On finite numbers they are < and >; infinities lie outside |
| `Affinity.ComparisonsAreOpposite` | odorobo/src/actors/scheduler_actor/scheduling.rs:347-351 | They exclude each other, and exchanging the sides exchanges them |
| `Affinity.ListingRule` | odorobo/src/actors/scheduler_actor/scheduling.rs:295-316 | A rule with one `In` requirement holds, up to its direction, of exactly the non-empty sets whose objects all carry a listed value in the named table |
| `Affinity.RequirementsAreAlternatives` | odorobo/src/actors/scheduler_actor/scheduling.rs:293-316 | Requirements are alternatives, none of them is false, and the direction negates |
| `Affinity.OneMoreRule` | odorobo/src/actors/scheduler_actor/scheduling.rs:179-214 | One more rule rejects if it is required and fails, adds its weight up to saturation if it is preferred and holds, and else changes nothing |
| `Affinity.RequiredListingRule` | odorobo/src/actors/scheduler_actor/scheduling.rs:273-281 | One required listing rule is satisfied exactly as its direction, scope, table and list say |
| `Choice.AgentRuleAdmits` | odorobo/src/actors/scheduler_actor/scheduling.rs:200-206 | With one required listing rule about agents exactly the fitting agents that carry a listed value are eligible |
| `Choice.VmRuleAdmits` | odorobo/src/actors/scheduler_actor/scheduling.rs:181-199 | With one about VMs, exactly the fitting agents that could host some known VM (by status, index or placement) and whose known VMs all carry it; with the opposite rule exactly the others |
| `Choice.BestMeans` | odorobo/src/actors/scheduler_actor/scheduling.rs:57-81 | For a validated request the possible choices are exactly the eligible agents with the highest affinity total and, among these, the smallest used fractions; none exactly if none is eligible |
| `Choice.ChosenHasHighestAffinity` | odorobo/src/actors/scheduler_actor/scheduling.rs:379-384 | For every request no eligible agent has a higher affinity total than the chosen one |
| `Choice.ChosenIsNotDominated` | odorobo/src/actors/scheduler_actor/scheduling.rs:160-174 | Among equal hosts with equal affinity no eligible one has at most the chosen one's used plus reserved vCPUs and RAM and less of one |
| `Policy.HeadroomIsWhatIsLeft` | odorobo/src/actors/scheduler_actor/scheduling.rs:160-174 | The headroom is 2 minus the two fractions used once the request is placed, in exact totals on hosts below the integer limits |
| `Policy.RejectionMeansRequiredRuleFails` | odorobo/src/actors/scheduler_actor/scheduling.rs:177-215 | The affinity total is a rejection if and only if some required rule fails |
| `Policy.ScoreSeparatesEligible` | odorobo/src/actors/scheduler_actor/scheduling.rs:355-388 | For every request a score is the rejected one if and only if the agent is not eligible, and beats the rejected one if and only if the agent is rankable |
| `Policy.EligibleIsRanked` | odorobo/src/actors/scheduler_actor/scheduling.rs:378-388 | An eligible score beats the rejected one if and only if its affinity is above `i64::MIN` or the agent has vCPUs and RAM; for a request of at least one vCPU and one byte always, with finite non-negative headroom |
| `Policy.HeadroomIsExact` | odorobo/src/actors/scheduler_actor/scheduling.rs:152-174 | After the capacity check the headroom is a finite non-negative number if the agent has vCPUs and RAM, and no number otherwise |
| `Policy.HeadroomIsProper` | odorobo/src/actors/scheduler_actor/scheduling.rs:152-174 | After the capacity check a validated request causes neither underflow nor division by zero |
| `Policy.EmptyRequestCanBeUnranked` | odorobo/src/actors/scheduler_actor/scheduling.rs:160-174 | The case outside that condition exists: an eligible agent whose score for a request for nothing never wins |
| `Refinement.Simulate` | odorobo/src/actors/scheduler_actor/cache.rs:34-98 | Every scheduler step is the same step of a machine with total placement lists and actor sets, no placeholders and no cached totals |
| `Refinement.SameSteps` | odorobo/src/actors/scheduler_actor/discovery.rs:385-394 | Both machines allow exactly the same steps, including which VMs are re-dispatched and where |
| `Refinement.RefinementOverRuns` | odorobo/src/actors/scheduler_actor/cache.rs:171-204 | They have the same runs and abstraction commutes with running |
| `Refinement.RepresentationIsInvisible` | odorobo/src/actors/scheduler_actor/cache.rs:384-416 | States that differ only in empty lists, placeholders and totals cache agree after every run on re-dispatch, reservations and possible choices |
| `ArrivalOrder.SnapshotIsExact` | odorobo/src/actors/scheduler_actor/cache.rs:357-417 | A snapshot leaves other agents' entries alone, gives each reported known VM one running entry confirmed now, and keeps an unreported entry if and only if it is pending under 120 s or confirmed under 30 s ago |
| `ArrivalOrder.DeltaIsExact` | odorobo/src/actors/scheduler_actor/cache.rs:299-333 | A delta, even with overlapping lists, confirms added known VMs on its agent, then ends running entries of removed ones there, keeps reservations, and changes nothing else |
| `ArrivalOrder.AgentCleanupIsExact` | odorobo/src/actors/scheduler_actor/cache.rs:230-251 | A departed agent loses exactly its entries of VMs that it did not report or that have no discovered actor |
| `ArrivalOrder.VmCleanupIsExact` | odorobo/src/actors/scheduler_actor/cache.rs:260-292 | The last actor of a VM departing ends exactly the running entries that no agent's index supports |
| `ArrivalOrder.ExpiryIsExact` | odorobo/src/actors/scheduler_actor/cache.rs:60-98 | Expiry ends exactly the reservations of at least 120 s of VMs without a discovered actor |
| `ArrivalOrder.ArrivalsAreRuns` | odorobo/src/actors/scheduler_actor/discovery.rs:258-365 | The two arrival orders compared are the handlers' own runs for a newer snapshot |
| `ArrivalOrder.ArrivalOrderIndependence` | odorobo/src/actors/scheduler_actor/cache.rs:335-417 | Either order of a snapshot and a VM's discovery gives every VM the same (agent, lifecycle) entries if and only if the snapshot reports the VM, the old index did not name it, or its running entry is still fresh |
| `ArrivalOrder.ReportedVmEntriesAgree` | odorobo/src/actors/scheduler_actor/cache.rs:335-417 | If the snapshot reports the VM, entries agree including their time stamps |
| `ArrivalOrder.OrderLeavesOtherMapsAlike` | odorobo/src/actors/scheduler_actor/discovery.rs:258-363 | All maps other than placements agree in either order |
| `SchedulerActors.PendingResourcesByAgent` | odorobo/src/actors/scheduler_actor/scheduling.rs:236-256 | In any iteration order the totals are min(MAX, exact sum over pending entries), for exactly the agents that have one |
| `SchedulerActors.PlacementVmIds` | odorobo/src/actors/scheduler_actor/cache.rs:106-139 | A duplicate-free listing of exactly the observed, indexed or placed VMs |
| `SchedulerActors.UpdateCachedVmEntry` | odorobo/src/actors/scheduler_actor/cache.rs:34-52 | Keeps a known actor's entry, else fills the first placeholder, else appends |
| `SchedulerActors.ReconcileAgentDelta` | odorobo/src/actors/scheduler_actor/cache.rs:299-333 | The two loops compute the map that `DeltaIsExact` describes |
| `SchedulerActors.ReconcileDiscoveredVm` | odorobo/src/actors/scheduler_actor/cache.rs:337-349 | A known VM is confirmed once on every agent whose index names it; an unknown one changes nothing |
| `SchedulerActors.ReconcileAgentPlacements` | odorobo/src/actors/scheduler_actor/cache.rs:357-417 | The three passes compute the map that `SnapshotIsExact` describes |
| `SchedulerActors.RemoveAgentPlacements` | odorobo/src/actors/scheduler_actor/cache.rs:195-204 | Drops the agent's entries except of reachable VMs and keeps emptied lists |
| `SchedulerActors.RemoveVmActor` | odorobo/src/actors/scheduler_actor/cache.rs:171-191 | Drops the actor everywhere and the lists this empties |
| `SchedulerActors.CleanupUnresolvedVmCache` | odorobo/src/actors/scheduler_actor/cache.rs:60-98 | Expires overdue reservations of undiscovered VMs, keeps emptied lists, and drops the placeholders of VMs whose list is empty |
| `SchedulerActors.SchedulerActor.constructor` | odorobo/src/actors/scheduler_actor/handlers.rs:35-47 | All maps start empty |
| `SchedulerActors.SchedulerActor.PendingResources` | odorobo/src/actors/scheduler_actor/scheduling.rs:31-41 | Returns fresh totals and fills the cache only if it was empty |
| `SchedulerActors.SchedulerActor.ScoreAgent` | odorobo/src/actors/scheduler_actor/scheduling.rs:116-218 | The score is a function of the state alone: the affinity total that `OneMoreRule` describes and the headroom that `HeadroomIsWhatIsLeft` gives, or rejection exactly if not eligible |
| `SchedulerActors.SchedulerActor.ScheduleAgent` | odorobo/src/actors/scheduler_actor/scheduling.rs:57-81 | For every request returns a rankable agent that no cached agent strictly beats, or none exactly when no cached agent is rankable; `BestMeans` says which agents these are |
| `SchedulerActors.SchedulerActor.AgentActorDiscovered` | odorobo/src/actors/scheduler_actor/discovery.rs:233-254 | Classifies a newly linked agent; nothing changes if its updater runs or linking fails |
| `SchedulerActors.SchedulerActor.VmActorDiscovered` | odorobo/src/actors/scheduler_actor/discovery.rs:205-226 | The same for a VM actor |
| `SchedulerActors.SchedulerActor.AgentUpdated` | odorobo/src/actors/scheduler_actor/discovery.rs:297-364 | For every update: a snapshot first, then only newer revisions; the invariant is kept unless a snapshot's listing is not sorted |
| `SchedulerActors.SchedulerActor.VmUpdated` | odorobo/src/actors/scheduler_actor/discovery.rs:261-280 | Records identity, manifest if supplied with its confirmations, and actor; the invariant is kept |
| `SchedulerActors.SchedulerActor.CleanupAgentActor` | odorobo/src/actors/scheduler_actor/cache.rs:230-251 | The whole new state, whose placements `AgentCleanupIsExact` describes |
| `SchedulerActors.SchedulerActor.CleanupVmActor` | odorobo/src/actors/scheduler_actor/cache.rs:260-292 | The whole new state, whose placements `VmCleanupIsExact` describes |
| `SchedulerActors.SchedulerActor.VmUpdaterStopped` | odorobo/src/actors/scheduler_actor/discovery.rs:287-290 | Forgets the kind and cleans up the VM actor; the invariant is kept |
| `SchedulerActors.SchedulerActor.AgentUpdaterStopped` | odorobo/src/actors/scheduler_actor/discovery.rs:371-374 | Forgets the kind and cleans up the agent; the invariant is kept |
| `SchedulerActors.SchedulerActor.OnLinkDied` | odorobo/src/actors/scheduler_actor/handlers.rs:67-71 | Cleans up by the recorded kind; unknown actors change nothing; the invariant is kept |
| `SchedulerActors.SchedulerActor.RemoveVmIntent` | odorobo/src/actors/scheduler_actor/cache.rs:155-168 | Removes the VM from every map and index entry and discards the totals |
| `SchedulerActors.SchedulerActor.StopVm` | odorobo/src/actors/scheduler_actor/handlers.rs:202-237 | Intent is removed only if the request reached the VM actor; the invariant is kept |
| `SchedulerActors.SchedulerActor.RollbackFailedCreate` | odorobo/src/actors/scheduler_actor/cache.rs:210-227 | Removes the optimistic state only if no actor exists, and an actor id only if it maps to this VM |
| `SchedulerActors.SchedulerActor.CreateVm` | odorobo/src/actors/scheduler_actor/handlers.rs:84-154 | Conflict or idempotent reply for known ids, else a possible scheduling choice, reservation and rollback; the invariant is kept |
| `SchedulerActors.SchedulerActor.ReconcileVmPlacements` | odorobo/src/actors/scheduler_actor/discovery.rs:381-425 | Expires, then dispatches every unplaced VM exactly once, each to a possible choice that accounts for the earlier ones; the invariant is kept |
| `Consoles.Console.constructor` | odorobo/src/ch_driver/actor.rs:46-50 | A new console retains nothing |
| `Consoles.Console.Push` | odorobo/src/ch_driver/actor.rs:100-132 | Retains the last 1 MiB of what was retained plus the chunk; the length field equals the retained bytes |
| `Consoles.Console.Trim` | odorobo/src/ch_driver/actor.rs:116-129 | The trim loop terminates, empty chunks included, and never meets an empty ring |
| `Consoles.Console.History` | odorobo/src/ch_driver/actor.rs:156-167 | All retained bytes, oldest first |
| `Consoles.Console.Spool` | odorobo/src/ch_driver/actor.rs:80-96 | Draining a socket until its end or an error retains the last 1 MiB of what was retained plus what was read |
| `Consoles.DrainedHistory` | odorobo/src/ch_driver/actor.rs:156-167 | From a new console the history is the last min(total, capacity) bytes of everything read |
| `Consoles.DrainingStopsAtTheEnd` | odorobo/src/ch_driver/actor.rs:83-95 | What is drained is the longest run of reads that brought bytes, up to an empty read or an error |
| `Consoles.HistoryIsStreamTail` | odorobo/src/ch_driver/actor.rs:100-132 | Cutting to the capacity after every push gives the same bytes as cutting the whole stream once |
| `Iscsi.RoundTrip` | odorobo/src/ch_driver/transform/storage/iscsi.rs:110-135 | Parsing a printed path returns the same target if and only if host and IQN contain no slash and no `-iscsi-` starts inside the host |
| `Iscsi.PrintingIsInjective` | odorobo/src/ch_driver/transform/storage/iscsi.rs:23-29 | Distinct unambiguous targets have distinct device paths |
| `Iscsi.UrlTargetsRoundTrip` | odorobo/src/ch_driver/transform/storage/iscsi.rs:70-85 | For hosts of the form name:port the round trip holds if and only if name and IQN contain no slash and the name no `-iscsi-` |
| `Iscsi.DefaultPort` | odorobo/src/ch_driver/transform/storage/iscsi.rs:72-74 | Without a port the host is name:3260 |
| `Iscsi.PathLayout` | odorobo/src/ch_driver/transform/storage/iscsi.rs:23-29 | The printed path, part by part |
| `Iscsi.ForeignPaths` | odorobo/src/ch_driver/transform/storage/iscsi.rs:114-127 | A path is refused for its prefix if and only if its name does not start with `ip-`, and else refused if and only if it has no `-iscsi-` |
| `Iscsi.MissingLunIsZero` | odorobo/src/ch_driver/transform/storage/iscsi.rs:129-132 | A name without `-lun-` parses with LUN zero |
| `Iscsi.NumbersInRange` | odorobo/src/ch_driver/transform/storage/iscsi.rs:132 | A LUN may carry a plus sign and is no number above `u32::MAX` |
| `Iscsi.TrailingPartsAreIgnored` | odorobo/src/ch_driver/transform/storage/iscsi.rs:114 | Trailing slashes and current-directory components do not change what is parsed |

## Left out

- Messaging, remote lookup, linking, tasks and timers: they appear as arbitrary step outcomes and in-order delivery per agent; failure counters and polling intervals are not modelled, so any updater may stop at any time.
- Clock: one reading per handler, where the source may take several close together.
- `f32` rounding of headroom and `f64` parsing of affinity values: exact reals with infinities and NaN, and an arbitrary parser.
- SchedulerActors.SchedulerActor.AgentUpdated: after a snapshot whose listing is not strictly sorted the invariant is not promised; agents never send one, as `Cluster.MoveKeepsInv` proves of every message in flight.
- SchedulerActors.SchedulerActor.ScoreAgent: headroom in exact reals, so two `f32` scores that round to the same value may be told apart.
- Cluster.ReplicationSafety: membership, for agents that recorded at most `u64::MAX` changes; usage figures can be stale, because overwriting a VM changes them without a new revision (`Cluster.PollAndDrainSynchronises` says when they are refreshed).
- Overcommit.NoOvercommit: for runs without a status update of the agent in question, since a status may report any usage.
- The agent's own create, delete and migration handlers: only their effect on the VM table, as insertions and removals.
- Polling-task handles are not a field of the scheduler class; whether an updater runs is a parameter of discovery and part of the cluster machine.
- Eventual expiry of omitted running placements, `placement.node` and `required_labels`: the code does not guarantee or read them.
- `schedule_agents` and the lookup helpers marked as dead code, `shrink_to_fit`, and read-only forwarding handlers: no state effect.
- Console socket I/O, broadcast and input; URL parsing; `iscsiadm`; hypervisor, network and other storage drivers; HTTP API, CLI and configuration: foreign I/O and plumbing.
