/** Histories that leak: for every pod that can be allocated for, runs in which its ports stay behind, and one
    in which what stays behind is taken away by another pool's release. */
module PodLeaks {
  import opened Types
  import opened Operations
  import opened PodLifecycle
  import opened PodJobs
  import opened PodHistory
  import Ledger
  import RR = RoundRobin

  /** A managed, living pod with readable annotations that lacks our finalizer. */
  predicate Allocatable(pod: Pod) {
    ShouldManage(pod) && PoolsOf(pod).Ok? && pod.ports.Ok? && !pod.deleting && FINALIZER !in pod.finalizers
  }

  /** Nothing is deleted from outside, no job ends early and no step meets a fault. */
  predicate Smooth(e: Event) { !e.Outside? && !e.Abandon? && (e.Advance? ==> e.ans.Normal?) }

  ghost predicate Reaches(strategy: Strategy, pools: seq<Pools>, states: seq<Cluster>, events: seq<Event>, v: Cluster) {
    History(strategy, pools, states, events) && states[|events|] == v
  }

  lemma Extend(strategy: Strategy, pools: seq<Pools>, states: seq<Cluster>, events: seq<Event>, v: Cluster,
               ps: Pools, e: Event, v': Cluster)
    returns (pools': seq<Pools>, states': seq<Cluster>, events': seq<Event>)
    requires Reaches(strategy, pools, states, events, v) && Leads(strategy, ps, v, e, v')
    ensures Reaches(strategy, pools', states', events', v') && events' == events + [e]
    ensures states' == states + [v'] && pools' == pools + [ps]
  {
    hide Leads;
    pools', states', events' := pools + [ps], states + [v'], events + [e];
    forall i | 0 <= i < |events'| ensures Leads(strategy, pools'[i], states'[i], events'[i], states'[i + 1]) {
      if i < |events| {
        assert Leads(strategy, pools[i], states[i], events[i], states[i + 1]);
      }
    }
  }

  // ---------- Up to the first allocation ----------

  /** Finding nothing, planning and creating in the first pool, when the store is empty and the pool has room. */
  lemma FirstTurns(strategy: Strategy, w: World, pod: Pod) returns (pools: Pools, a: Allocation, w': World)
    requires w.objects == map[] && PoolsOf(pod).Ok? && pod.ports.Ok?
    ensures PoolsAgree(pools, CLUSTER_SCOPED)
    ensures Turn(strategy, pools, w, Checking(pod, 0), Normal) == Turned(w, Some(Allocating(pod, 0, 0)))
    ensures Turn(strategy, pools, w, Allocating(pod, 0, 0), Normal) == Turned(w, Some(Planning(pod, 0, 0)))
    ensures Turn(strategy, pools, w, Planning(pod, 0, 0), Normal) == Turned(w', Some(Creating(pod, 0, 0, a)))
    ensures w'.objects == w.objects && w'.pods == w.pods
    ensures PlannedAt(a, pod, 0) && |a.bindings| == |pod.ports.value|
  {
    hide Plan, Select, CleanNames;
    var name, ports := Annotated(pod)[0], pod.ports.value;
    var pool := RoomyPool(name, "", |ports|);
    pools := map[name := pool];
    var req := RequestAt(pod, 0);
    var index := RR.CursorOf(w.cursors, CursorKey(pool));
    PlanInRoom(strategy, index, "", req, ports);
    PlanCounts(strategy, index, Snapshot(pool, []), req, ports);
    assert Ledger.Members(w.objects, name) == {};
    PrepareFrom(strategy, w.objects, pools, w.cursors, req, ports, []);
    PreparedIs(strategy, pools, w, pod, 0);
    a := Plan(strategy, index, Snapshot(pool, []), req, ports).value;
    w' := w.(cursors := Prepare(strategy, w.objects, pools, w.cursors, req, ports).cursors);
  }

  /** Nobody holds the lock of pool `p`. */
  ghost predicate Unlocked(v: Cluster, p: string) { forall k :: k in v.jobs ==> Holding(v.jobs[k]) != Some(p) }

  /** The pod comes into being in a cluster with an empty store, and its job makes its first allocation. */
  lemma Settle(strategy: Strategy, pools: seq<Pools>, states: seq<Cluster>, events: seq<Event>, v: Cluster, pod: Pod)
    returns (pools': seq<Pools>, states': seq<Cluster>, events': seq<Event>, v': Cluster, a: Allocation)
    requires Reaches(strategy, pools, states, events, v) && Allocatable(pod) && v.world.objects == map[]
    requires PodKey(pod) !in v.world.pods && PodKey(pod) !in v.jobs && Unlocked(v, Annotated(pod)[0])
    ensures Reaches(strategy, pools', states', events', v')
    ensures |events'| == |events| + 6 && events'[..|events|] == events
    ensures forall e :: e in events'[|events|..] ==> Smooth(e)
    ensures PlannedAt(a, pod, 0) && |a.bindings| == |pod.ports.value| && v'.world.objects == map[a.ObjectKey() := a]
    ensures v'.world.pods == v.world.pods[PodKey(pod) := pod]
    ensures v'.jobs == v.jobs[PodKey(pod) := Allocating(pod, 1, 1)]
  {
    hide Turn, CleanNames, Reaches, Leads, Possible;
    var k, ps, w', u := PodKey(pod), map[], v.world, v;
    ps, a, w' := FirstTurns(strategy, v.world.(pods := v.world.pods[k := pod]), pod);
    FirstCreate(strategy, ps, w', pod, a);
    pools', states', events', u := Arrive(strategy, pools, states, events, v, ps, pod);
    pools', states', events', u := TakeTurn(strategy, pools', states', events', u, ps, v.jobs, k);
    pools', states', events', u := TakeTurn(strategy, pools', states', events', u, ps, v.jobs, k);
    pools', states', events', u := TakeTurn(strategy, pools', states', events', u, ps, v.jobs, k);
    pools', states', events', v' := TakeTurn(strategy, pools', states', events', u, ps, v.jobs, k);
  }

  /** The pod comes into being and its job begins. */
  lemma Arrive(strategy: Strategy, pools: seq<Pools>, states: seq<Cluster>, events: seq<Event>, v: Cluster, ps: Pools,
               pod: Pod)
    returns (pools': seq<Pools>, states': seq<Cluster>, events': seq<Event>, v': Cluster)
    requires Reaches(strategy, pools, states, events, v) && Allocatable(pod) && PoolsAgree(ps, CLUSTER_SCOPED)
    requires PodKey(pod) !in v.world.pods && PodKey(pod) !in v.jobs
    ensures Reaches(strategy, pools', states', events', v') && events' == events + [Created(pod), Begin(PodKey(pod))]
    ensures v' == Cluster(v.world.(pods := v.world.pods[PodKey(pod) := pod]), v.jobs[PodKey(pod) := Checking(pod, 0)])
  {
    hide CleanNames, Reaches;
    var w := v.world.(pods := v.world.pods[PodKey(pod) := pod]);
    pools', states', events' := Extend(strategy, pools, states, events, v, ps, Created(pod), Cluster(w, v.jobs));
    v' := Cluster(w, v.jobs[PodKey(pod) := Checking(pod, 0)]);
    pools', states', events' := Extend(strategy, pools', states', events', Cluster(w, v.jobs), ps, Begin(PodKey(pod)),
                                       v');
  }

  /** A job beside the jobs `others` takes a turn and goes on. */
  lemma TakeTurn(strategy: Strategy, pools: seq<Pools>, states: seq<Cluster>, events: seq<Event>, v: Cluster, ps: Pools,
                 others: map<Key, Job>, k: Key)
    returns (pools': seq<Pools>, states': seq<Cluster>, events': seq<Event>, v': Cluster)
    requires Reaches(strategy, pools, states, events, v) && PoolsAgree(ps, CLUSTER_SCOPED)
    requires k !in others && k in v.jobs && v.jobs == others[k := v.jobs[k]]
    requires TakesLock(v.jobs[k]) ==>
               forall other :: other in others ==> Holding(others[other]) != Some(PoolAt(v.jobs[k].pod, v.jobs[k].next))
    requires Turn(strategy, ps, v.world, v.jobs[k], Normal).job.Some?
    ensures Reaches(strategy, pools', states', events', v') && events' == events + [Advance(k, Normal)]
    ensures var turned := Turn(strategy, ps, v.world, v.jobs[k], Normal);
            v' == Cluster(turned.world, others[k := turned.job.value])
  {
    hide Turn, Reaches, PoolAt, Holding;
    var turned := Turn(strategy, ps, v.world, v.jobs[k], Normal);
    v' := Cluster(turned.world, others[k := turned.job.value]);
    assert v.jobs[k := turned.job.value] == others[k := turned.job.value];
    pools', states', events' := Extend(strategy, pools, states, events, v, ps, Advance(k, Normal), v');
  }

  lemma FirstCreate(strategy: Strategy, pools: Pools, w: World, pod: Pod, a: Allocation)
    requires w.objects == map[]
    ensures Turn(strategy, pools, w, Creating(pod, 0, 0, a), Normal)
            == Turned(w.(objects := map[a.ObjectKey() := a]), Some(Allocating(pod, 1, 1)))
  {
  }

  /** For every pod that can be allocated for there is a history, without any fault, in which it is deleted after
      its first allocation and before its finalizer, and its ports stay behind in its first pool. */
  lemma LeakReached(strategy: Strategy, pod: Pod)
    returns (pools: seq<Pools>, states: seq<Cluster>, events: seq<Event>, x: Key)
    requires Allocatable(pod)
    ensures History(strategy, pools, states, events) && forall e :: e in events ==> Smooth(e)
    ensures Strands(states[|events|], pod, x)
  {
    hide Leads, CleanNames;
    var v, a;
    pools, states, events, v, a := Settle(strategy, [], [EMPTY], [], EMPTY, pod);
    pools, states, events, v := Bereave(strategy, pools, states, events, v, pod);
    x := a.ObjectKey();
  }

  /** At `x` an active allocation with the pod's ports is left behind in its first pool. */
  ghost predicate Strands(v: Cluster, pod: Pod, x: Key) {
    && PoolsOf(pod).Ok? && pod.ports.Ok?
    && x in v.world.objects && !v.world.objects[x].terminating && IsFor(v.world.objects[x], PodKey(pod))
    && v.world.objects[x].poolLabel == Annotated(pod)[0] && |v.world.objects[x].bindings| == |pod.ports.value|
    && Unattended(v.world.pods, PodKey(pod), Annotated(pod)[0])
  }

  /** The pod is deleted as it is. */
  lemma Bereave(strategy: Strategy, pools: seq<Pools>, states: seq<Cluster>, events: seq<Event>, v: Cluster, pod: Pod)
    returns (pools': seq<Pools>, states': seq<Cluster>, events': seq<Event>, v': Cluster)
    requires Reaches(strategy, pools, states, events, v)
    requires PodKey(pod) in v.world.pods && v.world.pods[PodKey(pod)] == pod && !pod.deleting
    ensures Reaches(strategy, pools', states', events', v') && events' == events + [DeleteRequested(PodKey(pod))]
    ensures v' == v.(world := v.world.(pods := v.world.pods[PodKey(pod) := pod.(deleting := true)]))
  {
    v' := v.(world := v.world.(pods := v.world.pods[PodKey(pod) := pod.(deleting := true)]));
    pools', states', events' := Extend(strategy, pools, states, events, v, map[], DeleteRequested(PodKey(pod)), v');
  }

  // ---------- Up to the release ----------

  /** Faults make the job pass over the other pools. */
  lemma {:induction false} PassOver(strategy: Strategy, pools: seq<Pools>, states: seq<Cluster>, events: seq<Event>,
                                    v: Cluster,
                                    k: Key, pod: Pod, next: nat)
    returns (pools': seq<Pools>, states': seq<Cluster>, events': seq<Event>, v': Cluster)
    requires Reaches(strategy, pools, states, events, v) && next <= |Annotated(pod)|
    requires k in v.jobs && v.jobs[k] == Allocating(pod, next, 1)
    ensures Reaches(strategy, pools', states', events', v')
    ensures v' == v.(jobs := v.jobs[k := Guarding(pod)])
    decreases |Annotated(pod)| - next
  {
    hide CleanNames, History;
    if next == |Annotated(pod)| {
      v' := v.(jobs := v.jobs[k := Guarding(pod)]);
      pools', states', events' := Extend(strategy, pools, states, events, v, map[], Advance(k, Normal), v');
    } else {
      var w := v.(jobs := v.jobs[k := Allocating(pod, next + 1, 1)]);
      pools', states', events' := Extend(strategy, pools, states, events, v, map[], Advance(k, Fault), w);
      pools', states', events', v' := PassOver(strategy, pools', states', events', w, k, pod, next + 1);
      assert w.jobs[k := Guarding(pod)] == v.jobs[k := Guarding(pod)];
    }
  }

  function Retired(pod: Pod): Pod { pod.(finalizers := pod.finalizers + {FINALIZER}, deleting := true) }

  /** The job sets the finalizer, the pod is deleted, and a new job sets out to release. */
  lemma Retire(strategy: Strategy, pools: seq<Pools>, states: seq<Cluster>, events: seq<Event>, v: Cluster, pod: Pod)
    returns (pools': seq<Pools>, states': seq<Cluster>, events': seq<Event>, v': Cluster)
    requires Reaches(strategy, pools, states, events, v) && Allocatable(pod)
    requires PodKey(pod) in v.jobs && v.jobs[PodKey(pod)] == Guarding(pod)
    requires PodKey(pod) in v.world.pods && v.world.pods[PodKey(pod)] == pod
    ensures Reaches(strategy, pools', states', events', v')
    ensures v'.world == v.world.(pods := v.world.pods[PodKey(pod) := Retired(pod)])
    ensures v'.jobs == v.jobs[PodKey(pod) := Releasing(Retired(pod), 0, {})]
  {
    hide CleanNames, History;
    var k, guarded := PodKey(pod), pod.(finalizers := pod.finalizers + {FINALIZER});
    var u := Cluster(v.world.(pods := v.world.pods[k := guarded]), v.jobs - {k});
    pools', states', events' := Extend(strategy, pools, states, events, v, map[], Advance(k, Normal), u);
    var w;
    pools', states', events', w := Bereave(strategy, pools', states', events', u, guarded);
    assert w.world.pods == v.world.pods[k := Retired(pod)];
    v' := w.(jobs := w.jobs[k := Releasing(Retired(pod), 0, {})]);
    pools', states', events' := Extend(strategy, pools', states', events', w, map[], Begin(k), v');
    assert v'.jobs == v.jobs[k := Releasing(Retired(pod), 0, {})];
  }

  /** From nothing to a job about to release the pod's one allocation. */
  lemma ReadyToRelease(strategy: Strategy, pod: Pod)
    returns (pools: seq<Pools>, states: seq<Cluster>, events: seq<Event>, v: Cluster, a: Allocation)
    requires Allocatable(pod)
    ensures Reaches(strategy, pools, states, events, v)
    ensures PlannedAt(a, pod, 0) && |a.bindings| == |pod.ports.value| && v.world.objects == map[a.ObjectKey() := a]
    ensures v.world.pods == map[PodKey(pod) := Retired(pod)]
    ensures v.jobs == map[PodKey(pod) := Releasing(Retired(pod), 0, {})]
  {
    hide CleanNames, History;
    assert Reaches(strategy, [], [EMPTY], [], EMPTY) by { StartsEmpty(strategy); }
    pools, states, events, v, a := Settle(strategy, [], [EMPTY], [], EMPTY, pod);
    pools, states, events, v := PassOver(strategy, pools, states, events, v, PodKey(pod), pod, 1);
    pools, states, events, v := Retire(strategy, pools, states, events, v, pod);
  }

  lemma StartsEmpty(strategy: Strategy)
    ensures Reaches(strategy, [], [EMPTY], [], EMPTY)
  {
  }

  /** Every release meets a fault. */
  lemma {:induction false} FailToRelease(strategy: Strategy, pools: seq<Pools>, states: seq<Cluster>,
                                         events: seq<Event>, v: Cluster,
                                         k: Key, pod: Pod, next: nat, faulted: set<string>)
    returns (pools': seq<Pools>, states': seq<Cluster>, events': seq<Event>, v': Cluster, faulted': set<string>)
    requires Reaches(strategy, pools, states, events, v) && next <= |Annotated(pod)|
    requires v.jobs == map[k := Releasing(pod, next, faulted)]
    ensures Reaches(strategy, pools', states', events', v')
    ensures v'.world == v.world && v'.jobs == map[k := Dropping(pod, faulted')]
    ensures faulted <= faulted' && forall p :: p in Annotated(pod)[next..] ==> p in faulted'
    decreases |Annotated(pod)| - next
  {
    hide CleanNames, History;
    if next == |Annotated(pod)| {
      faulted' := faulted;
      v' := v.(jobs := map[k := Dropping(pod, faulted)]);
      pools', states', events' := Extend(strategy, pools, states, events, v, map[], Advance(k, Normal), v');
    } else {
      var p := Annotated(pod)[next];
      var w := v.(jobs := map[k := Releasing(pod, next + 1, faulted + {p})]);
      pools', states', events' := Extend(strategy, pools, states, events, v, map[], Advance(k, Fault), w);
      pools', states', events', v', faulted' := FailToRelease(strategy, pools', states', events', w, k, pod, next + 1,
                                                              faulted + {p});
      assert Annotated(pod)[next..] == [p] + Annotated(pod)[next + 1..];
    }
  }

  /** For every pod that can be allocated for there is a history in which it is deleted with the finalizer in
      place, its releases meet faults, the finalizer is dropped all the same, and its ports stay behind. */
  lemma FaultLeakReached(strategy: Strategy, pod: Pod)
    returns (pools: seq<Pools>, states: seq<Cluster>, events: seq<Event>, x: Key)
    requires Allocatable(pod)
    ensures History(strategy, pools, states, events)
    ensures var m := |events| - 1; m >= 0 && DropsFaulted(states[m], events[m], PodKey(pod), Annotated(pod)[0])
    ensures Strands(states[|events|], pod, x)
  {
    hide CleanNames, Leads;
    var v, a, faulted;
    var k := PodKey(pod);
    pools, states, events, v, a := ReadyToRelease(strategy, pod);
    pools, states, events, v, faulted := FailToRelease(strategy, pools, states, events, v, k, Retired(pod), 0, {});
    assert Annotated(pod)[0] in Annotated(pod)[0..];
    pools, states, events, v := DropAnyway(strategy, pools, states, events, v, pod, faulted);
    x := a.ObjectKey();
  }

  lemma DropAnyway(strategy: Strategy, pools: seq<Pools>, states: seq<Cluster>, events: seq<Event>, v: Cluster,
                   pod: Pod,
                   faulted: set<string>)
    returns (pools': seq<Pools>, states': seq<Cluster>, events': seq<Event>, v': Cluster)
    requires Reaches(strategy, pools, states, events, v)
    requires v.jobs == map[PodKey(pod) := Dropping(Retired(pod), faulted)]
             && v.world.pods == map[PodKey(pod) := Retired(pod)]
    ensures Reaches(strategy, pools', states', events', v')
    ensures var m := |events'| - 1;
            m >= 0 && states'[m] == v && events'[m] == Advance(PodKey(pod), Normal)
            && ClearFinalizer(v.world.pods, Retired(pod)).Ok?
    ensures v'.world.objects == v.world.objects
    ensures v'.world.pods == map[PodKey(pod) := Retired(pod).(finalizers := Retired(pod).finalizers - {FINALIZER})]
  {
    hide CleanNames, Leads;
    assert states[|events|] == v && |states| == |events| + 1;
    var k := PodKey(pod);
    v' := Cluster(v.world.(pods := map[k := Retired(pod).(finalizers := Retired(pod).finalizers - {FINALIZER})]),
                  map[]);
    assert Leads(strategy, map[], v, Advance(k, Normal), v') by { DropLeads(strategy, v, pod, faulted, v'); }
    pools', states', events' := Extend(strategy, pools, states, events, v, map[], Advance(k, Normal), v');
  }

  lemma DropLeads(strategy: Strategy, v: Cluster, pod: Pod, faulted: set<string>, v': Cluster)
    requires v.jobs == map[PodKey(pod) := Dropping(Retired(pod), faulted)]
             && v.world.pods == map[PodKey(pod) := Retired(pod)]
    requires var dropped := Retired(pod).(finalizers := Retired(pod).finalizers - {FINALIZER});
             v' == Cluster(v.world.(pods := map[PodKey(pod) := dropped]), map[])
    ensures Leads(strategy, map[], v, Advance(PodKey(pod), Normal), v')
  {
    hide CleanNames;
  }

  // ---------- A leak taken away by mistake ----------

  /** The release has fetched its allocation; then the store is emptied from outside. */
  lemma FetchThenGone(strategy: Strategy, pod: Pod)
    returns (pools: seq<Pools>, states: seq<Cluster>, events: seq<Event>, v: Cluster)
    requires Allocatable(pod)
    ensures Reaches(strategy, pools, states, events, v)
    ensures v.world.objects == map[] && v.world.pods == map[PodKey(pod) := Retired(pod)]
    ensures v.jobs == map[PodKey(pod) := Deleting(Retired(pod), 0, {})]
  {
    hide CleanNames, History;
    var a;
    var k := PodKey(pod);
    pools, states, events, v, a := ReadyToRelease(strategy, pod);
    assert KeyAt(Retired(pod), 0) == a.ObjectKey();
    var w := v.(jobs := map[k := Deleting(Retired(pod), 0, {})]);
    pools, states, events := Extend(strategy, pools, states, events, v, map[], Advance(k, Normal), w);
    v := w.(world := w.world.(objects := map[]));
    pools, states, events := Extend(strategy, pools, states, events, w, map[], Outside(map[]), v);
  }

  /** For any two pods whose first pools differ but give them one derived name there is a history that strands an
      allocation of the second, and then lets the pending delete of the first one's release take it away. */
  lemma StrandedTaken(strategy: Strategy, pod: Pod, other: Pod)
    returns (pools: seq<Pools>, states: seq<Cluster>, events: seq<Event>, x: Key, e: Event)
    requires Allocatable(pod) && Allocatable(other) && PodKey(pod) != PodKey(other)
    requires Annotated(pod)[0] != Annotated(other)[0] && KeyAt(pod, 0) == KeyAt(other, 0)
    ensures History(strategy, pools, states, events)
    ensures var v := states[|events|]; Strands(v, other, x) && Possible(v, e) && Misdirects(v, e, x)
  {
    hide CleanNames, Leads;
    var v, a;
    pools, states, events, v := FetchThenGone(strategy, pod);
    pools, states, events, v, a := Settle(strategy, pools, states, events, v, other);
    pools, states, events, v := Bereave(strategy, pools, states, events, v, other);
    x, e := a.ObjectKey(), Advance(PodKey(pod), Normal);
  }
}
