/** Loop-by-loop facts that connect the scheduler's iterations to its specification. */
module SchedulerSteps {
  import opened Prelude
  import opened Policy
  import opened Placements
  import opened Scheduler
  import opened SchedulerInvariants

  // ----- pending totals, one entry at a time -----

  ghost function Part<T>(p: map<VmId, T>, done: set<VmId>): map<VmId, T> {
    map v | v in p && v in done :: p[v]
  }

  lemma PartGrows(m: Manifests, p: PlacementMap, done: set<VmId>, v: VmId)
    requires v in p && v !in done
    ensures Get(Part(p, done), v) == []
    ensures Part(p, done + {v}) == Part(p, done)[v := p[v]]
    ensures v !in m ==> PendingByAgent(m, Part(p, done + {v})) == PendingByAgent(m, Part(p, done))
  {
    if v !in m {
      PendingReadsListsOnly(m, Part(p, done), Part(p, done + {v}));
    }
  }

  lemma ZeroTotal(w: map<nat, nat>)
    requires forall k :: k in w ==> w[k] == 0
    ensures Total(w) == 0
  {
    TotalMonotone(w, map[]);
  }

  /** An agent without pending entries has nothing reserved. */
  lemma NothingReserved(m: Manifests, p: PlacementMap, a: ActorId)
    requires a !in AgentsWithPending(m, p)
    ensures ExactReservation(m, p, a) == Reservation(0, 0)
  {
    forall v | v in m
      ensures ReservedOn(Get(p, v), a, m[v].vcpus) == 0
      ensures ReservedOn(Get(p, v), a, m[v].memory) == 0
    {
      assert forall e :: e in Get(p, v) && e.lifecycle.Pending? ==> e.agent in AgentsWithPending(m, p);
      NoPendingNoReservation(Get(p, v), a, m[v].vcpus);
      NoPendingNoReservation(Get(p, v), a, m[v].memory);
    }
    ZeroTotal(VcpuReservations(m, p, a));
    ZeroTotal(RamReservations(m, p, a));
  }

  lemma VcpuReservationsPut(m: Manifests, p: PlacementMap, v: VmId, entries: seq<VmPlacement>, a: ActorId)
    requires v in m
    ensures VcpuReservations(m, p[v := entries], a) == VcpuReservations(m, p, a)[v := ReservedOn(entries, a, m[v].vcpus)]
  {
  }

  lemma RamReservationsPut(m: Manifests, p: PlacementMap, v: VmId, entries: seq<VmPlacement>, a: ActorId)
    requires v in m
    ensures RamReservations(m, p[v := entries], a) == RamReservations(m, p, a)[v := ReservedOn(entries, a, m[v].memory)]
  {
  }

  lemma VcpusOfList(m: Manifests, p: PlacementMap, v: VmId, entries: seq<VmPlacement>, e: VmPlacement, a: ActorId)
    requires v in m
    ensures Total(VcpuReservations(m, p[v := entries + [e]], a))
         == Total(VcpuReservations(m, p[v := entries], a)) + if e.lifecycle.Pending? && e.agent == a then m[v].vcpus else 0
  {
    ReservedOnAppend(entries, e, a, m[v].vcpus);
    VcpuReservationsPut(m, p, v, entries, a);
    VcpuReservationsPut(m, p, v, entries + [e], a);
    TotalUpdate(VcpuReservations(m, p, a), v, ReservedOn(entries, a, m[v].vcpus));
    TotalUpdate(VcpuReservations(m, p, a), v, ReservedOn(entries + [e], a, m[v].vcpus));
  }

  lemma RamOfList(m: Manifests, p: PlacementMap, v: VmId, entries: seq<VmPlacement>, e: VmPlacement, a: ActorId)
    requires v in m
    ensures Total(RamReservations(m, p[v := entries + [e]], a))
         == Total(RamReservations(m, p[v := entries], a)) + if e.lifecycle.Pending? && e.agent == a then m[v].memory else 0
  {
    ReservedOnAppend(entries, e, a, m[v].memory);
    RamReservationsPut(m, p, v, entries, a);
    RamReservationsPut(m, p, v, entries + [e], a);
    TotalUpdate(RamReservations(m, p, a), v, ReservedOn(entries, a, m[v].memory));
    TotalUpdate(RamReservations(m, p, a), v, ReservedOn(entries + [e], a, m[v].memory));
  }

  lemma EntryAddsToReservation(m: Manifests, p: PlacementMap, v: VmId, entries: seq<VmPlacement>, e: VmPlacement, a: ActorId)
    requires v in m
    ensures var before, after := ExactReservation(m, p[v := entries], a), ExactReservation(m, p[v := entries + [e]], a);
      after == if e.lifecycle.Pending? && e.agent == a
               then Reservation(before.vcpus + m[v].vcpus, before.ram + m[v].memory) else before
  {
    VcpusOfList(m, p, v, entries, e, a);
    RamOfList(m, p, v, entries, e, a);
  }

  lemma EntryAddsPendingAgent(m: Manifests, p: PlacementMap, v: VmId, entries: seq<VmPlacement>, e: VmPlacement)
    requires v in m
    ensures AgentsWithPending(m, p[v := entries + [e]])
         == AgentsWithPending(m, p[v := entries]) + if e.lifecycle.Pending? then {e.agent} else {}
  {
    var q, r := p[v := entries], p[v := entries + [e]];
    forall a ensures a in AgentsWithPending(m, r) <==>
      a in AgentsWithPending(m, q) || (e.lifecycle.Pending? && a == e.agent)
    {
      if a in AgentsWithPending(m, r) {
        var w, f :| w in m && f in Get(r, w) && f.lifecycle.Pending? && f.agent == a;
        assert f in Get(q, w) || f == e;
      }
      if a in AgentsWithPending(m, q) {
        var w, f :| w in m && f in Get(q, w) && f.lifecycle.Pending? && f.agent == a;
        assert f in Get(r, w);
      }
      if e.lifecycle.Pending? && a == e.agent {
        assert e in Get(r, v);
      }
    }
  }

  /** The accumulation step: saturating addition of one pending entry to the agent's totals. */
  function Accumulated(totals: map<ActorId, Reservation>, e: VmPlacement, m: Manifest): map<ActorId, Reservation> {
    if !e.lifecycle.Pending? then totals else
      var sofar := if e.agent in totals then totals[e.agent] else Reservation(0, 0);
      totals[e.agent := Reservation(SatAdd(U32_MAX, sofar.vcpus, m.vcpus), SatAdd(U64_MAX, sofar.ram, m.memory))]
  }

  /** What the totals hold for an agent, entry or not, is its saturated reservation. */
  lemma SofarIs(m: Manifests, p: PlacementMap, a: ActorId)
    ensures var totals := PendingByAgent(m, p);
      (if a in totals then totals[a] else Reservation(0, 0)) == Saturated(ExactReservation(m, p, a))
  {
    if a !in AgentsWithPending(m, p) {
      NothingReserved(m, p, a);
    }
  }

  /** On the entry's own agent the totals grow by the request. */
  lemma AccumulatedHere(m: Manifests, p: PlacementMap, v: VmId, entries: seq<VmPlacement>, e: VmPlacement)
    requires v in m && e.lifecycle.Pending?
    ensures var totals := Accumulated(PendingByAgent(m, p[v := entries]), e, m[v]);
      e.agent in totals && totals[e.agent] == Saturated(ExactReservation(m, p[v := entries + [e]], e.agent))
  {
    EntryAddsToReservation(m, p, v, entries, e, e.agent);
    SaturatedSum(ExactReservation(m, p[v := entries], e.agent), m[v]);
    SofarIs(m, p[v := entries], e.agent);
  }

  /** On every other agent they stay. */
  lemma AccumulatedElsewhere(m: Manifests, p: PlacementMap, v: VmId, entries: seq<VmPlacement>, e: VmPlacement, a: ActorId)
    requires v in m && a in AgentsWithPending(m, p[v := entries]) && !(e.lifecycle.Pending? && a == e.agent)
    ensures var totals := Accumulated(PendingByAgent(m, p[v := entries]), e, m[v]);
      a in totals && totals[a] == Saturated(ExactReservation(m, p[v := entries + [e]], a))
  {
    EntryAddsToReservation(m, p, v, entries, e, a);
  }

  lemma SaturatedSum(exact: Reservation, m: Manifest)
    ensures Saturated(Reservation(exact.vcpus + m.vcpus, exact.ram + m.memory))
         == Reservation(SatAdd(U32_MAX, Saturated(exact).vcpus, m.vcpus), SatAdd(U64_MAX, Saturated(exact).ram, m.memory))
  {
  }

  lemma TotalsArePending(m: Manifests, p: PlacementMap, totals: map<ActorId, Reservation>)
    requires totals.Keys == AgentsWithPending(m, p)
    requires forall a :: a in totals ==> totals[a] == Saturated(ExactReservation(m, p, a))
    ensures PendingByAgent(m, p) == totals
  {
  }

  lemma AccumulationStep(m: Manifests, p: PlacementMap, v: VmId, entries: seq<VmPlacement>, e: VmPlacement)
    requires v in m
    ensures PendingByAgent(m, p[v := entries + [e]]) == Accumulated(PendingByAgent(m, p[v := entries]), e, m[v])
  {
    EntryAddsPendingAgent(m, p, v, entries, e);
    var totals := Accumulated(PendingByAgent(m, p[v := entries]), e, m[v]);
    forall a | a in totals ensures totals[a] == Saturated(ExactReservation(m, p[v := entries + [e]], a)) {
      if e.lifecycle.Pending? && a == e.agent {
        AccumulatedHere(m, p, v, entries, e);
      } else {
        AccumulatedElsewhere(m, p, v, entries, e, a);
      }
    }
    TotalsArePending(m, p[v := entries + [e]], totals);
  }

  // ----- deltas, one id at a time -----

  lemma ConfirmFirstTwice(entries: seq<VmPlacement>, a: ActorId, now: nat)
    ensures ConfirmFirst(ConfirmFirst(entries, a, now), a, now) == ConfirmFirst(entries, a, now)
  {
    var once := ConfirmFirst(entries, a, now);
    PositionIs(once, a, PositionOf(entries, a));
  }

  lemma {:induction false} RetainTwice(entries: seq<VmPlacement>, rule: Keep)
    ensures Retain(Retain(entries, rule), rule) == Retain(entries, rule)
  {
    if entries != [] {
      RetainTwice(entries[1..], rule);
      var rest := Retain(entries[1..], rule);
      if Keeps(rule, entries[0]) {
        assert ([entries[0]] + rest)[1..] == rest;
      }
    }
  }

  lemma DeltaAddsOne(m: Manifests, p: PlacementMap, a: ActorId, added: set<VmId>, now: nat, v: VmId)
    ensures var q := DeltaReconciled(m, p, a, added, {}, now);
      DeltaReconciled(m, p, a, added + {v}, {}, now) == if v in m then q[v := ConfirmFirst(Get(q, v), a, now)] else q
  {
    ConfirmFirstTwice(Get(p, v), a, now);
  }

  lemma DeltaRemovesOne(m: Manifests, p: PlacementMap, a: ActorId, added: set<VmId>, removed: set<VmId>, now: nat, v: VmId)
    ensures var q := DeltaReconciled(m, p, a, added, removed, now);
      DeltaReconciled(m, p, a, added, removed + {v}, now) == if v in q then q[v := Retain(q[v], UnlessRunningOn(a))] else q
  {
    RetainTwice(DeltaEntries(Get(p, v), a, v in added && v in m, false, now), UnlessRunningOn(a));
  }

  lemma DeltaOfOne(m: Manifests, p: PlacementMap, a: ActorId, now: nat, v: VmId)
    requires v in m
    ensures DeltaReconciled(m, p, a, {v}, {}, now) == p[v := ConfirmFirst(Get(p, v), a, now)]
  {
  }

  lemma DeltaOfNothing(m: Manifests, p: PlacementMap, a: ActorId, now: nat)
    ensures DeltaReconciled(m, p, a, {}, {}, now) == p
  {
  }

  lemma {:induction false} ConfirmAcrossOneMore(entries: seq<VmPlacement>, agents: seq<ActorId>, a: ActorId, now: nat)
    ensures ConfirmAcross(entries, agents + [a], now) == ConfirmFirst(ConfirmAcross(entries, agents, now), a, now)
    decreases |agents|
  {
    if agents == [] {
      assert ([] + [a])[1..] == [];
    } else {
      assert (agents + [a])[1..] == agents[1..] + [a];
      ConfirmAcrossOneMore(ConfirmFirst(entries, agents[0], now), agents[1..], a, now);
    }
  }

  /** Placements after confirming `vmid` on each agent of `order`. */
  function DiscoveryReconciled(p: PlacementMap, vmid: VmId, order: seq<ActorId>, now: nat): PlacementMap {
    if order == [] then p else p[vmid := ConfirmAcross(Get(p, vmid), order, now)]
  }

  lemma DeltaOfUnknown(m: Manifests, p: PlacementMap, a: ActorId, now: nat, v: VmId)
    requires v !in m
    ensures DeltaReconciled(m, p, a, {v}, {}, now) == p
  {
  }

  lemma KnownDiscoveryOneMore(m: Manifests, p: PlacementMap, vmid: VmId, order: seq<ActorId>, a: ActorId, now: nat)
    requires vmid in m
    ensures DeltaReconciled(m, DiscoveryReconciled(p, vmid, order, now), a, {vmid}, {}, now)
         == DiscoveryReconciled(p, vmid, order + [a], now)
  {
    DeltaOfOne(m, DiscoveryReconciled(p, vmid, order, now), a, now, vmid);
    ConfirmAcrossOneMore(Get(p, vmid), order, a, now);
  }

  /** Placements after confirming a known VM on the agents of `order`; an unknown one is skipped. */
  function DiscoveryOf(m: Manifests, p: PlacementMap, vmid: VmId, order: seq<ActorId>, now: nat): PlacementMap {
    if vmid in m then DiscoveryReconciled(p, vmid, order, now) else p
  }

  lemma DiscoveryOneMore(m: Manifests, p: PlacementMap, vmid: VmId, order: seq<ActorId>, a: ActorId, now: nat)
    ensures DeltaReconciled(m, DiscoveryOf(m, p, vmid, order, now), a, Elems([vmid]), Elems([]), now)
         == DiscoveryOf(m, p, vmid, order + [a], now)
  {
    assert Elems([vmid]) == {vmid} && Elems<VmId>([]) == {};
    if vmid in m {
      KnownDiscoveryOneMore(m, p, vmid, order, a, now);
    } else {
      DeltaOfUnknown(m, p, a, now, vmid);
    }
  }

  /** `order` lists, each once, the members of `all` that are no longer in `todo`. */
  ghost predicate Visited<T>(order: seq<T>, todo: set<T>, all: set<T>) {
    NoDuplicates(order) && Elems(order) !! todo && Elems(order) + todo == all
  }

  lemma VisitOneMore<T>(order: seq<T>, todo: set<T>, all: set<T>, x: T)
    requires Visited(order, todo, all) && x in todo
    ensures Visited(order + [x], todo - {x}, all)
  {
    assert forall i :: 0 <= i < |order| ==> order[i] in Elems(order);
    assert Elems(order + [x]) == Elems(order) + {x};
  }

  // ----- maps built VM by VM -----

  /** `p` with a new observation on `a` for each VM of `vms`. */
  function WithObserved(p: PlacementMap, vms: set<VmId>, a: ActorId, now: nat): PlacementMap {
    map v | v in p.Keys + vms :: if v in vms then Get(p, v) + [Observed(a, now)] else p[v]
  }

  lemma ObserveOneMore(p: PlacementMap, order: seq<VmId>, v: VmId, a: ActorId, now: nat)
    requires v !in Elems(order)
    ensures var q := WithObserved(p, Elems(order), a, now);
      WithObserved(p, Elems(order + [v]), a, now) == q[v := Get(q, v) + [Observed(a, now)]]
  {
    assert Elems(order + [v]) == Elems(order) + {v};
  }

  lemma ObserveNone(p: PlacementMap, a: ActorId, now: nat)
    ensures WithObserved(p, Elems([]), a, now) == p
  {
  }

  /** The first pass: every reported known VM has an entry on the agent. */
  function Extended(m: Manifests, p: PlacementMap, reported: set<VmId>, a: ActorId, now: nat): PlacementMap {
    map v | v in p.Keys + reported * m.Keys ::
      if v in reported && v in m then WithPlacement(Get(p, v), a, now) else Get(p, v)
  }

  function Missing(m: Manifests, p: PlacementMap, reported: set<VmId>, a: ActorId): set<VmId> {
    set v | v in reported && v in m && !PlacedOn(Get(p, v), a)
  }

  lemma ObserveMissing(m: Manifests, p: PlacementMap, reported: set<VmId>, a: ActorId, now: nat)
    ensures WithObserved(p, Missing(m, p, reported, a), a, now) == Extended(m, p, reported, a, now)
  {
    assert forall v :: v in reported && v in m && PlacedOn(Get(p, v), a) ==> v in p;
  }

  /** The second pass confirms or expires each list. */
  lemma PassesCompose(
    m: Manifests, p: PlacementMap, a: ActorId, reported: set<VmId>, now: nat, updated: PlacementMap, v: VmId)
    requires v in updated && updated.Keys == Extended(m, p, reported, a, now).Keys
    requires var entries := Extended(m, p, reported, a, now)[v];
      updated[v] == if v in reported then ConfirmEvery(entries, a, now) else Retain(entries, UnlessStaleOn(a, now))
    ensures updated[v] == SnapshotEntries(Get(p, v), a, v in reported, v in m, now)
  {
  }

  lemma SnapshotIs(m: Manifests, p: PlacementMap, a: ActorId, reported: set<VmId>, now: nat, updated: PlacementMap, q: PlacementMap)
    requires updated.Keys == p.Keys + reported * m.Keys
    requires forall v :: v in updated ==> updated[v] == SnapshotEntries(Get(p, v), a, v in reported, v in m, now)
    requires q == map v | v in updated && updated[v] != [] :: updated[v]
    ensures q == SnapshotReconciled(m, p, a, reported, now)
  {
  }

  lemma IntentRemovedIs(s: Sched, vmid: VmId, index: VmIndex)
    requires index.Keys == s.index.Keys && forall a :: a in s.index ==> index[a] == s.index[a] - {vmid}
    ensures Sched(s.agents, WithoutVm(s.actorVms, vmid), s.manifests - {vmid}, s.placements - {vmid}, s.vmActors - {vmid}, None, index, s.kinds)
         == IntentRemoved(s, vmid)
  {
    assert index == IntentRemoved(s, vmid).index;
  }

  lemma DepartureIsCleaned(s: Sched, a: ActorId, remaining: PlacementMap)
    requires remaining.Keys == s.placements.Keys
    requires var reachable := StillReachable(if a in s.index then s.index[a] else {}, s.vmActors);
      forall v :: v in s.placements ==> remaining[v] == DepartedEntries(s.placements[v], a, v in reachable)
    ensures s.(agents := s.agents - {a}, index := s.index - {a}, pendingCache := None, placements := remaining)
         == AgentCleaned(s, a)
  {
    assert remaining == AgentCleaned(s, a).placements;
  }

  // ----- dispatches, one VM at a time -----

  lemma DispatchLeavesOthersUnplaced(s: Sched, d: Dispatch, now: nat)
    ensures Unplaced(s) - {d.vmid} <= Unplaced(Dispatched(s, d, now))
  {
  }

  lemma {:induction false} DispatchedOneMore(s: Sched, ds: seq<Dispatch>, d: Dispatch, now: nat)
    ensures DispatchedAll(s, ds + [d], now) == Dispatched(DispatchedAll(s, ds, now), d, now)
    decreases |ds|
  {
    if ds == [] {
      assert ([] + [d])[1..] == [];
    } else {
      assert (ds + [d])[1..] == ds[1..] + [d];
      DispatchedOneMore(Dispatched(s, ds[0], now), ds[1..], d, now);
    }
  }

  lemma DispatchableAlone(parse: NumberParser, s: Sched, d: Dispatch, now: nat)
    requires d.vmid in Unplaced(s) && Best(parse, s, s.manifests[d.vmid], d.target)
    ensures Dispatchable(parse, s, [d], now)
  {
    assert [d][1..] == [];
  }

  lemma AppendSplits<T>(s: seq<T>, x: T)
    ensures if s == [] then s + [x] == [x] else (s + [x])[0] == s[0] && (s + [x])[1..] == s[1..] + [x]
  {
  }

  lemma SameFirstDispatch(parse: NumberParser, s: Sched, ds: seq<Dispatch>, more: seq<Dispatch>, now: nat)
    requires ds != [] && more != [] && more[0] == ds[0]
    requires Dispatchable(parse, s, ds, now) && Dispatchable(parse, Dispatched(s, ds[0], now), more[1..], now)
    ensures Dispatchable(parse, s, more, now)
  {
  }

  lemma {:induction false} DispatchOneMore(parse: NumberParser, s: Sched, ds: seq<Dispatch>, d: Dispatch, now: nat)
    requires Dispatchable(parse, s, ds, now) && Dispatchable(parse, DispatchedAll(s, ds, now), [d], now)
    ensures Dispatchable(parse, s, ds + [d], now)
    decreases |ds|
  {
    AppendSplits(ds, d);
    if ds != [] {
      DispatchOneMore(parse, Dispatched(s, ds[0], now), ds[1..], d, now);
      SameFirstDispatch(parse, s, ds, ds + [d], now);
    }
  }

  /** `ds` is what has been dispatched from `s` so far, `todo` what is left, `t` where it led. */
  ghost predicate Dispatching(parse: NumberParser, s: Sched, ds: seq<Dispatch>, todo: set<VmId>, t: Sched, now: nat) {
    && t == DispatchedAll(s, ds, now)
    && Dispatchable(parse, s, ds, now)
    && Visited(DispatchIds(ds), todo, Unplaced(s))
    && todo <= Unplaced(t)
  }

  lemma DispatchIdsOneMore(ds: seq<Dispatch>, d: Dispatch, todo: set<VmId>, all: set<VmId>)
    requires Visited(DispatchIds(ds), todo, all) && d.vmid in todo
    ensures Visited(DispatchIds(ds + [d]), todo - {d.vmid}, all)
  {
    assert DispatchIds(ds + [d]) == DispatchIds(ds) + [d.vmid];
    VisitOneMore(DispatchIds(ds), todo, all, d.vmid);
  }

  lemma DispatchingStep(
    parse: NumberParser, s: Sched, ds: seq<Dispatch>, todo: set<VmId>, t: Sched, d: Dispatch, now: nat)
    requires Dispatching(parse, s, ds, todo, t, now)
    requires d.vmid in todo && Best(parse, t, t.manifests[d.vmid], d.target)
    ensures Dispatching(parse, s, ds + [d], todo - {d.vmid}, Dispatched(t, d, now), now)
  {
    DispatchableAlone(parse, t, d, now);
    DispatchOneMore(parse, s, ds, d, now);
    DispatchedOneMore(s, ds, d, now);
    DispatchIdsOneMore(ds, d, todo, Unplaced(s));
    DispatchLeavesOthersUnplaced(t, d, now);
  }

  // ----- the best score, one agent at a time -----

  /** `target` with its score is a best choice among the agents already seen. */
  ghost predicate BestSoFar(
    parse: NumberParser, s: Sched, m: Manifest, seen: set<ActorId>, target: Option<ActorId>, score: AgentScore)
  {
    && (target.None? ==> score == REJECTED)
    && (target.Some? ==> RankableFor(parse, s, m, target.value) && score == ScoreFor(parse, s, m, target.value))
    && forall b :: b in seen && b in s.agents ==> !Beats(ScoreFor(parse, s, m, b), score)
  }

  /** Beating is no total order, because of NaN, but a winner also dominates what lost before. */
  lemma BeatsChain(low: AgentScore, mid: AgentScore, high: AgentScore)
    requires !Beats(low, mid) && Beats(high, mid)
    ensures !Beats(low, high)
  {
  }

  lemma BeatsIsIrreflexive(score: AgentScore)
    ensures !Beats(score, score)
  {
  }

  lemma ScoreFacts(parse: NumberParser, s: Sched, m: Manifest, a: ActorId)
    requires a in s.agents
    ensures Beats(ScoreFor(parse, s, m, a), REJECTED) <==> RankableFor(parse, s, m, a)
  {
    ScoreSeparatesEligible(parse, m, s.agents[a].data, ReservedFor(s, a), VmObjects(s, a));
  }

  lemma WinnerIsRankable(parse: NumberParser, s: Sched, m: Manifest, a: ActorId, best: AgentScore)
    requires a in s.agents && Beats(ScoreFor(parse, s, m, a), best)
    requires best == REJECTED || Beats(best, REJECTED)
    ensures RankableFor(parse, s, m, a)
  {
    ScoreFacts(parse, s, m, a);
  }

  /** The scan step: a candidate replaces the best so far exactly when it beats it. */
  lemma OneMoreCandidate(
    parse: NumberParser, s: Sched, m: Manifest, seen: set<ActorId>, target: Option<ActorId>, best: AgentScore, a: ActorId)
    requires BestSoFar(parse, s, m, seen, target, best) && a in s.agents
    ensures var score := ScoreFor(parse, s, m, a);
      if Beats(score, best) then BestSoFar(parse, s, m, seen + {a}, Some(a), score)
      else BestSoFar(parse, s, m, seen + {a}, target, best)
  {
    var score := ScoreFor(parse, s, m, a);
    if Beats(score, best) {
      if target.Some? {
        ScoreFacts(parse, s, m, target.value);
      }
      WinnerIsRankable(parse, s, m, a, best);
      BeatsIsIrreflexive(score);
      forall b | b in seen && b in s.agents ensures !Beats(ScoreFor(parse, s, m, b), score) {
        BeatsChain(ScoreFor(parse, s, m, b), best, score);
      }
    }
  }

  /** After the scan of all agents the best so far is a possible outcome. */
  lemma ScanFindsBest(parse: NumberParser, s: Sched, m: Manifest, target: Option<ActorId>, score: AgentScore)
    requires BestSoFar(parse, s, m, s.agents.Keys, target, score)
    ensures Best(parse, s, m, target)
  {
    if target.None? {
      forall b | b in s.agents ensures !RankableFor(parse, s, m, b) {
        ScoreFacts(parse, s, m, b);
      }
    }
  }
}
