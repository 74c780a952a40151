/** Whole pod lives under interleaving: which active allocations are left without a pod that will release them,
    and exactly why. */
module PodHistory {
  import opened Types
  import opened Operations
  import opened PodLifecycle
  import opened PodJobs
  import Ledger
  import RR = RoundRobin

  // ---------- Attended and unattended ----------

  predicate Wants(pod: Pod, p: string) { ShouldManage(pod) && p in Annotated(pod) }

  /** No reconcile will release the allocation pod `k` holds in pool `p`: the pod is gone, or does not name the
      pool, or is being deleted without our finalizer. */
  predicate Unattended(pods: Pods, k: Key, p: string) {
    k !in pods || !Wants(pods[k], p) || (pods[k].deleting && FINALIZER !in pods[k].finalizers)
  }

  predicate IsFor(a: Allocation, k: Key) { a.ServesPod(k.name, k.namespace) }

  /** Active allocations of pod `k` in pool `p`. */
  ghost predicate AnyActive(objects: Objects, k: Key, p: string) {
    exists x :: x in objects && IsFor(objects[x], k) && objects[x].poolLabel == p && !objects[x].terminating
  }

  /** Deletion of pod `k` is requested while it lacks our finalizer: never allocated for, or in the window
      between its first allocation and its finalizer. */
  ghost predicate Unguarded(v: Cluster, e: Event, k: Key) {
    e == DeleteRequested(k) && k in v.world.pods && FINALIZER !in v.world.pods[k].finalizers
  }

  /** The finalizer of pod `k` is dropped by a reconcile whose release in pool `p` met a fault. */
  ghost predicate DropsFaulted(v: Cluster, e: Event, k: Key, p: string) {
    && e.Advance? && e.k == k && !e.ans.Fault?
    && k in v.jobs && v.jobs[k].Dropping? && p in v.jobs[k].faulted
    && ClearFinalizer(v.world.pods, v.jobs[k].pod).Ok?
  }

  ghost predicate Loses(v: Cluster, e: Event, k: Key, p: string) { Unguarded(v, e, k) || DropsFaulted(v, e, k, p) }

  /** A pod of the same name that names the pool comes into being; its reconciles take over what is there. */
  predicate Adopts(e: Event, k: Key, p: string) { e.Created? && PodKey(e.pod) == k && Wants(e.pod, p) }

  /** Within the first `m` events pod `k` lost pool `p`, and no adopting pod has come since. */
  ghost predicate Lost(states: seq<Cluster>, events: seq<Event>, m: nat, k: Key, p: string)
    requires m <= |events| < |states|
  {
    exists j :: 0 <= j < m && Loses(states[j], events[j], k, p) && forall i :: j < i < m ==> !Adopts(events[i], k, p)
  }

  lemma LostNext(states: seq<Cluster>, events: seq<Event>, m: nat, k: Key, p: string)
    requires m < |events| < |states|
    ensures Lost(states, events, m + 1, k, p) <==>
            Loses(states[m], events[m], k, p) || (Lost(states, events, m, k, p) && !Adopts(events[m], k, p))
  {
    hide Loses, Adopts;
    if Lost(states, events, m, k, p) && !Adopts(events[m], k, p) {
      var j :| 0 <= j < m && Loses(states[j], events[j], k, p) && forall i :: j < i < m ==> !Adopts(events[i], k, p);
      assert forall i :: j < i < m + 1 ==> !Adopts(events[i], k, p);
    }
    if Lost(states, events, m + 1, k, p) && !Loses(states[m], events[m], k, p) {
      var j :| && 0 <= j < m + 1 && Loses(states[j], events[j], k, p)
               && forall i :: j < i < m + 1 ==> !Adopts(events[i], k, p);
      assert j < m && !Adopts(events[m], k, p);
    }
  }

  // ---------- What holds between steps ----------

  /** A pod read as being deleted still is the one read: it cannot go before our finalizer does. */
  ghost predicate Retiring(pods: Pods, pod: Pod) {
    var k := PodKey(pod);
    && FINALIZER in pod.finalizers
    && k in pods && pods[k].deleting && FINALIZER in pods[k].finalizers
    && pods[k].enable == pod.enable && pods[k].pools == pod.pools
  }

  /** Nothing of the pod is active in the named pools, but where its release met a fault. */
  ghost predicate ClearedBut(objects: Objects, names: seq<string>, faulted: set<string>, pod: Pod) {
    forall x :: x in objects && objects[x].ServesPod(pod.name, pod.namespace)
                && objects[x].poolLabel in names && objects[x].poolLabel !in faulted
      ==> objects[x].terminating
  }

  /** The object under the pod's derived name in the pool at hand. */
  function KeyAt(pod: Pod, next: nat): Key { ReleaseKey(RequestAt(pod, next)) }

  /** What a job plans for its pod in the pool at hand. */
  predicate PlannedAt(a: Allocation, pod: Pod, next: nat) {
    && next < |Annotated(pod)|
    && a.ObjectKey() == KeyAt(pod, next) && a.poolLabel == PoolAt(pod, next)
    && a.podLabel == a.podName && a.ServesPod(pod.name, pod.namespace) && !a.terminating
  }

  /** What is stored under the name about to be deleted is the pod's own, unless it belongs to another pool. */
  ghost predicate OwnOrForeign(objects: Objects, pod: Pod, next: nat) {
    var x := KeyAt(pod, next);
    x in objects && objects[x].poolLabel == PoolAt(pod, next) ==> objects[x].ServesPod(pod.name, pod.namespace)
  }

  ghost predicate JobOk(w: World, job: Job) {
    var pod := job.pod;
    && ShouldManage(pod)
    && match job
       case Planning(_, next, _) => next < |Annotated(pod)|
       case Creating(_, next, _, a) => PlannedAt(a, pod, next)
       case Releasing(_, next, faulted) =>
         && Retiring(w.pods, pod) && next <= |Annotated(pod)|
         && ClearedBut(w.objects, Annotated(pod)[..next], faulted, pod)
       case Deleting(_, next, faulted) =>
         && Retiring(w.pods, pod) && next < |Annotated(pod)|
         && ClearedBut(w.objects, Annotated(pod)[..next], faulted, pod)
         && OwnOrForeign(w.objects, pod, next)
       case Dropping(_, faulted) => Retiring(w.pods, pod) && ClearedBut(w.objects, Annotated(pod), faulted, pod)
       case _ => true
  }

  ghost predicate LocksOk(v: Cluster) {
    forall j, k :: j in v.jobs && k in v.jobs && j != k && Holding(v.jobs[j]).Some? ==>
      Holding(v.jobs[j]) != Holding(v.jobs[k])
  }

  ghost predicate JobsOk(v: Cluster) {
    forall k :: k in v.jobs ==> PodKey(v.jobs[k].pod) == k && JobOk(v.world, v.jobs[k])
  }

  ghost predicate Inv(v: Cluster) {
    PodsKeyed(v.world.pods) && WellNamed(v.world.objects, CLUSTER_SCOPED) && LocksOk(v) && JobsOk(v)
  }

  /** Pod `k` has gained no allocation, and nobody one in pool `locked`. */
  ghost predicate NoneNew(objects: Objects, objects': Objects, k: Key, locked: Option<string>) {
    forall x :: x in objects' ==>
      if x in objects then SameRecord(objects[x], objects'[x])
      else !IsFor(objects'[x], k) && locked != Some(objects'[x].poolLabel)
  }

  /** Pod `k` has kept our finalizer and its annotations through its deletion. */
  ghost predicate KeptRetiring(pods: Pods, pods': Pods, k: Key) {
    k in pods && pods[k].deleting && FINALIZER in pods[k].finalizers ==>
      && k in pods' && pods'[k].deleting && FINALIZER in pods'[k].finalizers
      && pods'[k].enable == pods[k].enable && pods'[k].pools == pods[k].pools
  }

  lemma JobKept(w: World, w': World, job: Job)
    requires JobOk(w, job) && NoneNew(w.objects, w'.objects, PodKey(job.pod), Holding(job))
    requires KeptRetiring(w.pods, w'.pods, PodKey(job.pod))
    ensures JobOk(w', job)
  {
    hide CleanNames;
  }

  // ---------- One turn ----------

  lemma PreparedIs(strategy: Strategy, pools: Pools, w: World, pod: Pod, next: nat)
    requires PoolsAgree(pools, CLUSTER_SCOPED) && next < |Annotated(pod)|
    ensures var planned := Prepare(strategy, w.objects, pools, w.cursors, RequestAt(pod, next), PortsOf(pod));
            planned.result.Ok? ==> PlannedAt(planned.result.value, pod, next)
  {
    hide Plan, CleanNames;
    var req, ports := RequestAt(pod, next), PortsOf(pod);
    if Prepare(strategy, w.objects, pools, w.cursors, req, ports).result.Ok? {
      var pool := pools[req.pool];
      PlanShape(strategy, RR.CursorOf(w.cursors, CursorKey(pool)), Snapshot(pool, Ledger.Listing(w.objects, pool.name)),
                req, ports);
    }
  }

  lemma CreateEffect(w: World, pod: Pod, next: nat, succeeded: nat, a: Allocation)
    requires WellNamed(w.objects, CLUSTER_SCOPED) && PlannedAt(a, pod, next)
    ensures var objects' := CreateTurn(w, pod, next, succeeded, a).world.objects;
            && WellNamed(objects', CLUSTER_SCOPED)
            && (forall x :: x in w.objects ==> x in objects' && objects'[x] == w.objects[x])
            && (forall x :: x in objects' && x !in w.objects ==> objects'[x] == a)
  {
  }

  lemma DeleteEffect(w: World, pod: Pod, next: nat, faulted: set<string>)
    requires WellNamed(w.objects, CLUSTER_SCOPED)
    ensures var objects' := DeleteTurn(w, pod, next, faulted).world.objects;
            && WellNamed(objects', CLUSTER_SCOPED) && Shrinks(w.objects, objects')
            && (forall x :: x in w.objects && x != KeyAt(pod, next) ==> x in objects' && objects'[x] == w.objects[x])
  {
    ShrinkKeeps(w.objects, DeleteTurn(w, pod, next, faulted).world.objects, CLUSTER_SCOPED);
  }

  /** A turn creates at most what was planned for its pod in the pool at hand, and takes away or marks at most
      the object under its pod's derived name there, only when deleting. */
  lemma TurnObjects(strategy: Strategy, pools: Pools, w: World, job: Job, ans: Answer)
    requires WellNamed(w.objects, CLUSTER_SCOPED) && JobOk(w, job)
    ensures var objects' := Turn(strategy, pools, w, job, ans).world.objects; var pod := job.pod;
            && WellNamed(objects', CLUSTER_SCOPED)
            && (forall x :: x in objects' && x in w.objects ==> SameRecord(w.objects[x], objects'[x]))
            && (forall x :: x in objects' && x !in w.objects ==>
                  job.Creating? && IsFor(objects'[x], PodKey(pod)) && objects'[x].poolLabel == PoolAt(pod, job.next)
                  && objects'[x].poolLabel in Annotated(pod))
            && (forall x :: x in w.objects && !(job.Deleting? && !ans.Fault? && x == KeyAt(pod, job.next))
                  ==> x in objects' && objects'[x] == w.objects[x])
  {
    hide Prepare, Holds, CleanNames, CreateTurn, DeleteTurn, WellNamed;
    match job
    case Creating(pod, next, succeeded, a) => CreateEffect(w, pod, next, succeeded, a);
    case Deleting(pod, next, faulted) => DeleteEffect(w, pod, next, faulted);
    case _ =>
  }

  /** A turn patches its own pod's finalizers at most; ours is set on a living pod only, and dropped by a
      `Dropping` job only. */
  lemma TurnPods(strategy: Strategy, pools: Pools, w: World, job: Job, ans: Answer)
    ensures var pods, pods', k := w.pods, Turn(strategy, pools, w, job, ans).world.pods, PodKey(job.pod);
            && pods'.Keys == pods.Keys
            && (forall other :: other in pods && other != k ==> pods'[other] == pods[other])
            && (k in pods ==> pods'[k] == pods[k].(finalizers := pods'[k].finalizers))
            && (k in pods && pods[k].deleting && FINALIZER !in pods[k].finalizers ==> FINALIZER !in pods'[k].finalizers)
            && (k in pods && FINALIZER in pods[k].finalizers && FINALIZER !in pods'[k].finalizers ==>
                  job.Dropping? && !ans.Fault? && ClearFinalizer(pods, job.pod).Ok?)
  {
    hide Prepare, Holds, Annotated;
  }

  /** What follows which step. */
  lemma TurnKind(strategy: Strategy, pools: Pools, w: World, job: Job, ans: Answer)
    ensures var turned := Turn(strategy, pools, w, job, ans);
            && (turned.job.Some? ==> turned.job.value.pod == job.pod && (Growing(turned.job.value) ==> Growing(job)))
            && (job.Dropping? ==> turned.job.None? && turned.world.objects == w.objects)
            && (turned.job.Some? && Holding(turned.job.value).Some? ==>
                  || Holding(turned.job.value) == Holding(job)
                  || (TakesLock(job) && Holding(turned.job.value) == Some(PoolAt(job.pod, job.next))))
  {
    hide Prepare, Holds, CleanNames;
  }

  /** The job may still create allocations for its pod. */
  predicate Growing(job: Job) { job.Checking? || job.Allocating? || job.Planning? || job.Creating? }

  lemma FetchKeepsOk(w: World, pod: Pod, next: nat, faulted: set<string>)
    requires WellNamed(w.objects, CLUSTER_SCOPED) && JobOk(w, Releasing(pod, next, faulted)) && next < |Annotated(pod)|
    ensures var turned := FetchTurn(w, pod, next, faulted);
            turned.world == w && turned.job.Some? && JobOk(w, turned.job.value)
  {
    hide CleanNames;
    assert Annotated(pod)[..next + 1] == Annotated(pod)[..next] + [PoolAt(pod, next)];
  }

  lemma DeleteKeepsOk(w: World, pod: Pod, next: nat, faulted: set<string>)
    requires WellNamed(w.objects, CLUSTER_SCOPED) && JobOk(w, Deleting(pod, next, faulted))
    ensures var turned := DeleteTurn(w, pod, next, faulted); JobOk(turned.world, turned.job.value)
  {
    hide CleanNames;
    assert Annotated(pod)[..next + 1] == Annotated(pod)[..next] + [PoolAt(pod, next)];
  }

  lemma SkipKeepsOk(w: World, pod: Pod, next: nat, faulted: set<string>)
    requires JobOk(w, Releasing(pod, next, faulted)) && next < |Annotated(pod)|
    ensures JobOk(w, Releasing(pod, next + 1, faulted + {PoolAt(pod, next)}))
  {
    hide CleanNames;
    assert Annotated(pod)[..next + 1] == Annotated(pod)[..next] + [PoolAt(pod, next)];
  }

  lemma OwnJobKept(strategy: Strategy, pools: Pools, w: World, job: Job, ans: Answer)
    requires PoolsAgree(pools, CLUSTER_SCOPED) && WellNamed(w.objects, CLUSTER_SCOPED) && JobOk(w, job)
    ensures var turned := Turn(strategy, pools, w, job, ans);
            turned.job.Some? ==> JobOk(turned.world, turned.job.value)
  {
    hide Prepare, Holds, WellNamed, CleanNames, FetchTurn, DeleteTurn;
    var pod := job.pod;
    match job
    case Planning(_, next, _) => PreparedIs(strategy, pools, w, pod, next);
    case Creating(_, next, _, _) => PreparedIs(strategy, pools, w, pod, next);
    case Releasing(_, next, faulted) =>
      if next < |Annotated(pod)| {
        FetchKeepsOk(w, pod, next, faulted);
        SkipKeepsOk(w, pod, next, faulted);
      } else {
        assert Annotated(pod)[..next] == Annotated(pod);
      }
    case Deleting(_, next, faulted) =>
      DeleteKeepsOk(w, pod, next, faulted);
      SkipKeepsOk(w, pod, next, faulted);
    case _ =>
  }

  // ---------- Every event keeps the invariant ----------

  lemma AdvanceKeepsLocks(strategy: Strategy, pools: Pools, v: Cluster, k: Key, ans: Answer)
    requires LocksOk(v) && Possible(v, Advance(k, ans))
    ensures LocksOk(Exec(strategy, pools, v, Advance(k, ans)))
  {
    hide Turn, Annotated;
    TurnKind(strategy, pools, v.world, v.jobs[k], ans);
  }

  lemma AdvanceKeepsInv(strategy: Strategy, pools: Pools, v: Cluster, k: Key, ans: Answer)
    requires Inv(v) && PoolsAgree(pools, CLUSTER_SCOPED) && Possible(v, Advance(k, ans))
    ensures Inv(Exec(strategy, pools, v, Advance(k, ans)))
  {
    hide Turn, JobOk, WellNamed, Annotated, ShouldManage;
    var v' := Exec(strategy, pools, v, Advance(k, ans));
    AdvanceKeepsLocks(strategy, pools, v, k, ans);
    TurnObjects(strategy, pools, v.world, v.jobs[k], ans);
    TurnPods(strategy, pools, v.world, v.jobs[k], ans);
    TurnKind(strategy, pools, v.world, v.jobs[k], ans);
    OwnJobKept(strategy, pools, v.world, v.jobs[k], ans);
    forall other | other in v.jobs && other != k ensures JobOk(v'.world, v.jobs[other]) {
      JobKept(v.world, v'.world, v.jobs[other]);
    }
  }

  lemma FirstJobOk(w: World, k: Key)
    requires k in w.pods && PodKey(w.pods[k]) == k && FirstJob(w.pods[k]).Some?
    ensures var job := FirstJob(w.pods[k]).value; job.pod == w.pods[k] && JobOk(w, job) && Holding(job) == None
  {
    hide CleanNames;
  }

  /** Events other than steps of jobs. */
  lemma OtherKeepsInv(strategy: Strategy, pools: Pools, v: Cluster, e: Event)
    requires Inv(v) && Possible(v, e) && !e.Advance?
    ensures Inv(Exec(strategy, pools, v, e))
  {
    hide WellNamed, CleanNames, JobOk, FirstJob, Holding;
    var v' := Exec(strategy, pools, v, e);
    if e.Outside? { ShrinkKeeps(v.world.objects, e.objects, CLUSTER_SCOPED); }
    if e.Begin? { FirstJobOk(v.world, e.k); }
    forall k | k in v.jobs && k in v'.jobs ensures JobOk(v'.world, v.jobs[k]) {
      JobKept(v.world, v'.world, v.jobs[k]);
    }
  }

  lemma InvPreserved(strategy: Strategy, pools: Pools, v: Cluster, e: Event)
    requires Inv(v) && PoolsAgree(pools, CLUSTER_SCOPED) && Possible(v, e)
    ensures Inv(Exec(strategy, pools, v, e))
  {
    hide Inv, Turn;
    if e.Advance? {
      AdvanceKeepsInv(strategy, pools, v, e.k, e.ans);
    } else {
      OtherKeepsInv(strategy, pools, v, e);
    }
  }

  lemma {:induction false} InvReached(strategy: Strategy, pools: seq<Pools>, states: seq<Cluster>, events: seq<Event>,
                                      m: nat)
    requires History(strategy, pools, states, events) && m < |states|
    ensures Inv(states[m])
  {
    if m > 0 {
      InvReached(strategy, pools, states, events, m - 1);
      assert Leads(strategy, pools[m - 1], states[m - 1], events[m - 1], states[m]);
      InvPreserved(strategy, pools[m - 1], states[m - 1], events[m - 1]);
    }
  }

  // ---------- Lost and unattended ----------

  /** Nothing is active, and nothing will be until an adopting pod comes. */
  ghost predicate Settled(v: Cluster, k: Key, p: string) {
    !AnyActive(v.world.objects, k, p) && (k in v.jobs && Growing(v.jobs[k]) ==> p !in Annotated(v.jobs[k].pod))
  }

  /** What a lost pool means for its pod, and what an unattended pool means when it is not lost. */
  ghost predicate Fact(v: Cluster, k: Key, p: string, lost: bool) {
    && (lost ==> Unattended(v.world.pods, k, p))
    && (Unattended(v.world.pods, k, p) && !lost ==> Settled(v, k, p))
  }

  lemma FactAdvance(strategy: Strategy, pools: Pools, v: Cluster, own: Key, ans: Answer, k: Key, p: string, lost: bool)
    requires Inv(v) && PoolsAgree(pools, CLUSTER_SCOPED) && Possible(v, Advance(own, ans)) && Fact(v, k, p, lost)
    ensures Fact(Exec(strategy, pools, v, Advance(own, ans)), k, p, Loses(v, Advance(own, ans), k, p) || lost)
  {
    hide WellNamed, CleanNames, Settled, Turn, LocksOk;
    var job, v' := v.jobs[own], Exec(strategy, pools, v, Advance(own, ans));
    TurnObjects(strategy, pools, v.world, job, ans);
    TurnPods(strategy, pools, v.world, job, ans);
    TurnKind(strategy, pools, v.world, job, ans);
    if Loses(v, Advance(own, ans), k, p) {
      DropLeavesUnattended(strategy, pools, v.world, job, ans, p);
    } else if Unattended(v'.world.pods, k, p) && !lost {
      if Unattended(v.world.pods, k, p) {
        SettledKept(v, v', own, k, p);
      } else {
        DropSettles(v, v', k, p);
      }
    }
  }

  lemma DropLeavesUnattended(strategy: Strategy, pools: Pools, w: World, job: Job, ans: Answer, p: string)
    requires job.Dropping? && !ans.Fault? && ClearFinalizer(w.pods, job.pod).Ok? && JobOk(w, job)
    ensures Unattended(Turn(strategy, pools, w, job, ans).world.pods, PodKey(job.pod), p)
  {
    hide CleanNames;
  }

  lemma SettledKept(v: Cluster, v': Cluster, own: Key, k: Key, p: string)
    requires own in v.jobs && PodKey(v.jobs[own].pod) == own && Settled(v, k, p)
    requires forall x :: x in v'.world.objects && x in v.world.objects ==>
               SameRecord(v.world.objects[x], v'.world.objects[x])
    requires forall x :: x in v'.world.objects && x !in v.world.objects ==>
               v.jobs[own].Creating? && IsFor(v'.world.objects[x], own)
               && v'.world.objects[x].poolLabel in Annotated(v.jobs[own].pod)
    requires forall other :: other != own ==>
               (other in v'.jobs <==> other in v.jobs) && (other in v.jobs ==> v'.jobs[other] == v.jobs[other])
    requires own in v'.jobs ==> v'.jobs[own].pod == v.jobs[own].pod && (Growing(v'.jobs[own]) ==> Growing(v.jobs[own]))
    ensures Settled(v', k, p)
  {
    hide Annotated;
  }

  /** The patch that drops the finalizer comes after everything is released or has met a fault. */
  lemma DropSettles(v: Cluster, v': Cluster, k: Key, p: string)
    requires Inv(v) && k in v.jobs && v.jobs[k].Dropping? && !Unattended(v.world.pods, k, p) && p !in v.jobs[k].faulted
    requires v'.world.objects == v.world.objects && k !in v'.jobs
    ensures Settled(v', k, p)
  {
    hide WellNamed, CleanNames;
    var pod := v.jobs[k].pod;
    assert JobOk(v.world, v.jobs[k]) && Annotated(v.world.pods[k]) == Annotated(pod);
  }

  lemma FactStep(strategy: Strategy, pools: Pools, v: Cluster, e: Event, k: Key, p: string, lost: bool)
    requires Inv(v) && PoolsAgree(pools, CLUSTER_SCOPED) && Possible(v, e) && Fact(v, k, p, lost)
    ensures Fact(Exec(strategy, pools, v, e), k, p, Loses(v, e, k, p) || (lost && !Adopts(e, k, p)))
  {
    hide Inv, Fact, Turn;
    if e.Advance? {
      FactAdvance(strategy, pools, v, e.k, e.ans, k, p, lost);
    } else {
      PodEvent(strategy, pools, v, e, k, p, lost);
    }
  }

  lemma PodEvent(strategy: Strategy, pools: Pools, v: Cluster, e: Event, k: Key, p: string, lost: bool)
    requires Inv(v) && Possible(v, e) && Fact(v, k, p, lost) && !e.Advance?
    ensures Fact(Exec(strategy, pools, v, e), k, p, Loses(v, e, k, p) || (lost && !Adopts(e, k, p)))
  {
    hide WellNamed, CleanNames, AnyActive, JobOk;
    var v' := Exec(strategy, pools, v, e);
    assert !e.Outside? ==> v'.world.objects == v.world.objects;
    if e.Outside? { ShrinksActive(v.world.objects, e.objects, k, p); }
  }

  lemma ShrinksActive(objects: Objects, objects': Objects, k: Key, p: string)
    requires Shrinks(objects, objects')
    ensures AnyActive(objects', k, p) ==> AnyActive(objects, k, p)
  {
  }

  lemma FactInit(states: seq<Cluster>, events: seq<Event>, k: Key, p: string)
    requires |events| < |states|
    ensures Fact(EMPTY, k, p, Lost(states, events, 0, k, p))
  {
  }

  lemma {:induction false} FactReached(strategy: Strategy, pools: seq<Pools>, states: seq<Cluster>, events: seq<Event>,
                                       m: nat, k: Key, p: string)
    requires History(strategy, pools, states, events) && m < |states|
    ensures Fact(states[m], k, p, Lost(states, events, m, k, p))
  {
    hide Fact, Inv, Exec, Lost;
    if m == 0 {
      FactInit(states, events, k, p);
    } else {
      FactReached(strategy, pools, states, events, m - 1, k, p);
      InvReached(strategy, pools, states, events, m - 1);
      assert Leads(strategy, pools[m - 1], states[m - 1], events[m - 1], states[m]);
      FactStep(strategy, pools[m - 1], states[m - 1], events[m - 1], k, p, Lost(states, events, m - 1, k, p));
      LostNext(states, events, m - 1, k, p);
    }
  }

  // ---------- Main results ----------

  /** Exactly when ports leak: at every point of every history, faults included, an active allocation is left
      without a pod that will release it if and only if its pod was deleted unguarded, or dropped its finalizer
      after a fault met its release, and no pod of its name that names the pool has come since. */
  lemma StrandedExactly(strategy: Strategy, pools: seq<Pools>, states: seq<Cluster>, events: seq<Event>, m: nat, x: Key)
    requires History(strategy, pools, states, events) && m < |states|
    requires x in states[m].world.objects && !states[m].world.objects[x].terminating
    ensures var a := states[m].world.objects[x]; var k := Key(a.podNamespace, a.podName);
            Unattended(states[m].world.pods, k, a.poolLabel) <==> Lost(states, events, m, k, a.poolLabel)
  {
    var a := states[m].world.objects[x];
    var k := Key(a.podNamespace, a.podName);
    FactReached(strategy, pools, states, events, m, k, a.poolLabel);
    assert AnyActive(states[m].world.objects, k, a.poolLabel);
  }

  /** Event `m` takes our finalizer from pod `k`. */
  ghost predicate LosesFinalizer(states: seq<Cluster>, m: nat, k: Key) {
    m + 1 < |states| && Finalized(states[m].world.pods, k) && !Finalized(states[m + 1].world.pods, k)
  }

  lemma OnlyDropping(strategy: Strategy, pools: Pools, v: Cluster, e: Event, k: Key)
    requires Inv(v) && Possible(v, e) && Finalized(v.world.pods, k)
    requires !Finalized(Exec(strategy, pools, v, e).world.pods, k)
    ensures e.Advance? && e.k == k && !e.ans.Fault? && v.jobs[k].Dropping?
            && ClearFinalizer(v.world.pods, v.jobs[k].pod).Ok?
    ensures Exec(strategy, pools, v, e).world.objects == v.world.objects
  {
    hide JobOk, WellNamed, LocksOk, Turn;
    if e.Advance? {
      TurnPods(strategy, pools, v.world, v.jobs[e.k], e.ans);
      TurnKind(strategy, pools, v.world, v.jobs[e.k], e.ans);
    }
  }

  /** When a pod loses our finalizer, what is active of it in a pool it names has met a fault in the reconcile
      that drops it, and what is active in another pool was lost by an earlier pod of that name. */
  lemma FinalizerOutlivesPorts(strategy: Strategy, pools: seq<Pools>, states: seq<Cluster>, events: seq<Event>, m: nat,
                               k: Key, p: string)
    requires History(strategy, pools, states, events) && LosesFinalizer(states, m, k)
    requires AnyActive(states[m + 1].world.objects, k, p)
    ensures if Wants(states[m].world.pods[k], p) then DropsFaulted(states[m], events[m], k, p)
            else Lost(states, events, m, k, p)
  {
    hide Lost, Turn, LocksOk, WellNamed, CleanNames;
    InvReached(strategy, pools, states, events, m);
    assert Leads(strategy, pools[m], states[m], events[m], states[m + 1]);
    OnlyDropping(strategy, pools[m], states[m], events[m], k);
    var pod := states[m].jobs[k].pod;
    assert JobOk(states[m].world, states[m].jobs[k]) && Annotated(pod) == Annotated(states[m].world.pods[k]);
    FactReached(strategy, pools, states, events, m, k, p);
  }

  ghost predicate NothingActive(objects: Objects, k: Key) {
    forall x :: x in objects && IsFor(objects[x], k) ==> objects[x].terminating
  }

  /** Nothing leaks in a history without unguarded deletions and without faulted releases before a drop. */
  ghost predicate Careful(states: seq<Cluster>, events: seq<Event>) {
    |events| < |states| && forall j, k, p :: 0 <= j < |events| ==> !Loses(states[j], events[j], k, p)
  }

  lemma CarefulNotLost(states: seq<Cluster>, events: seq<Event>, m: nat, k: Key, p: string)
    requires Careful(states, events) && m <= |events|
    ensures !Lost(states, events, m, k, p)
  {
    hide Loses;
  }

  /** Then every active allocation has its pod, which names the pool and is alive or carries the finalizer, and a
      pod that loses the finalizer leaves nothing active anywhere. */
  lemma NoLeakedPorts(strategy: Strategy, pools: seq<Pools>, states: seq<Cluster>, events: seq<Event>, m: nat)
    requires History(strategy, pools, states, events) && m < |states| && Careful(states, events)
    ensures forall x :: x in states[m].world.objects && !states[m].world.objects[x].terminating ==>
              var a := states[m].world.objects[x];
              !Unattended(states[m].world.pods, Key(a.podNamespace, a.podName), a.poolLabel)
    ensures m < |events| ==> forall k :: LosesFinalizer(states, m, k) ==> NothingActive(states[m + 1].world.objects, k)
  {
    hide Unattended, DropsFaulted, Unguarded, Leads;
    forall x | x in states[m].world.objects && !states[m].world.objects[x].terminating
      ensures var a := states[m].world.objects[x];
              !Unattended(states[m].world.pods, Key(a.podNamespace, a.podName), a.poolLabel)
    {
      var a := states[m].world.objects[x];
      StrandedExactly(strategy, pools, states, events, m, x);
      CarefulNotLost(states, events, m, Key(a.podNamespace, a.podName), a.poolLabel);
    }
    if m < |events| {
      var objects := states[m + 1].world.objects;
      forall k | LosesFinalizer(states, m, k) ensures NothingActive(objects, k) {
        forall x | x in objects && IsFor(objects[x], k) ensures objects[x].terminating {
          if !objects[x].terminating {
            assert AnyActive(objects, k, objects[x].poolLabel);
            FinalizerOutlivesPorts(strategy, pools, states, events, m, k, objects[x].poolLabel);
            assert !Loses(states[m], events[m], k, objects[x].poolLabel);
            CarefulNotLost(states, events, m, k, objects[x].poolLabel);
            assert false;
          }
        }
      }
    }
  }

  // ---------- Lost allocations stay ----------

  /** A release of another pool, about to delete the name under which `x` is stored. */
  ghost predicate Misdirects(v: Cluster, e: Event, x: Key) {
    && e.Advance? && !e.ans.Fault? && e.k in v.jobs && v.jobs[e.k].Deleting?
    && x in v.world.objects && x == KeyAt(v.jobs[e.k].pod, v.jobs[e.k].next)
    && v.world.objects[x].poolLabel != PoolAt(v.jobs[e.k].pod, v.jobs[e.k].next)
  }

  /** A lost allocation stays: until an adopting pod comes or someone deletes it from outside, it remains
      unattended, and an event leaves it untouched if and only if it is not the delete of another pool's release
      that derives the same name. */
  lemma StrandedStays(strategy: Strategy, pools: Pools, v: Cluster, e: Event, x: Key)
    requires Inv(v) && PoolsAgree(pools, CLUSTER_SCOPED) && Possible(v, e)
    requires x in v.world.objects && !v.world.objects[x].terminating
    requires var a := v.world.objects[x]; var k := Key(a.podNamespace, a.podName);
             && Unattended(v.world.pods, k, a.poolLabel) && !Adopts(e, k, a.poolLabel)
             && (e.Outside? ==> x in e.objects && e.objects[x] == a)
    ensures var v' := Exec(strategy, pools, v, e); var a := v.world.objects[x];
            && (x in v'.world.objects && v'.world.objects[x] == a <==> !Misdirects(v, e, x))
            && Unattended(v'.world.pods, Key(a.podNamespace, a.podName), a.poolLabel)
  {
    hide Inv, Exec, Unattended, Misdirects;
    StaysUnattended(strategy, pools, v, e, Key(v.world.objects[x].podNamespace, v.world.objects[x].podName),
                    v.world.objects[x].poolLabel);
    if e.Advance? {
      StrandedTurn(strategy, pools, v, e.k, e.ans, x);
    } else {
      OtherEventsKeep(strategy, pools, v, e, x);
    }
  }

  lemma OtherEventsKeep(strategy: Strategy, pools: Pools, v: Cluster, e: Event, x: Key)
    requires Possible(v, e) && !e.Advance? && x in v.world.objects
    requires e.Outside? ==> x in e.objects && e.objects[x] == v.world.objects[x]
    ensures var v' := Exec(strategy, pools, v, e); x in v'.world.objects && v'.world.objects[x] == v.world.objects[x]
    ensures !Misdirects(v, e, x)
  {
  }

  lemma StaysUnattended(strategy: Strategy, pools: Pools, v: Cluster, e: Event, k: Key, p: string)
    requires Inv(v) && Possible(v, e) && Unattended(v.world.pods, k, p) && !Adopts(e, k, p)
    ensures Unattended(Exec(strategy, pools, v, e).world.pods, k, p)
  {
    hide WellNamed, CleanNames, LocksOk, JobOk, Turn;
    if e.Advance? {
      TurnPods(strategy, pools, v.world, v.jobs[e.k], e.ans);
    }
  }

  /** A turn leaves an unattended allocation alone unless it is misdirected. */
  lemma StrandedTurn(strategy: Strategy, pools: Pools, v: Cluster, own: Key, ans: Answer, x: Key)
    requires Inv(v) && Possible(v, Advance(own, ans)) && x in v.world.objects && !v.world.objects[x].terminating
    requires var a := v.world.objects[x]; Unattended(v.world.pods, Key(a.podNamespace, a.podName), a.poolLabel)
    ensures var v' := Exec(strategy, pools, v, Advance(own, ans));
            x in v'.world.objects && v'.world.objects[x] == v.world.objects[x] <==> !Misdirects(v, Advance(own, ans), x)
  {
    var job := v.jobs[own];
    assert JobOk(v.world, job) && PodKey(job.pod) == own;
    hide Inv, JobOk, CleanNames, Unattended;
    TurnObjects(strategy, pools, v.world, job, ans);
    if job.Deleting? && !ans.Fault? && x == KeyAt(job.pod, job.next) {
      DeleteHits(v.world, job.pod, job.next, job.faulted);
      if v.world.objects[x].poolLabel == PoolAt(job.pod, job.next) { OwnIsAttended(v.world, job, x); }
    }
  }

  lemma DeleteHits(w: World, pod: Pod, next: nat, faulted: set<string>)
    requires KeyAt(pod, next) in w.objects && !w.objects[KeyAt(pod, next)].terminating
    ensures var objects', x := DeleteTurn(w, pod, next, faulted).world.objects, KeyAt(pod, next);
            x !in objects' || objects'[x] != w.objects[x]
  {
  }

  /** What a release finds under its name in its own pool has its pod to attend to it. */
  lemma OwnIsAttended(w: World, job: Job, x: Key)
    requires JobOk(w, job) && job.Deleting? && x == KeyAt(job.pod, job.next) && x in w.objects
    requires w.objects[x].poolLabel == PoolAt(job.pod, job.next)
    ensures Key(w.objects[x].podNamespace, w.objects[x].podName) == PodKey(job.pod)
    ensures !Unattended(w.pods, PodKey(job.pod), w.objects[x].poolLabel)
  {
    hide CleanNames;
  }
}
