/** Pod reconciles step by step. A job works on its pod as read; between its steps other jobs run, pods come
    and go, other controllers patch them, and allocations are deleted from outside. The work queue keeps at
    most one job per pod in flight, and a pool's lock lets one job at a time change the pool. */
module PodJobs {
  import opened Types
  import opened Operations
  import opened PodLifecycle

  datatype Job =
    | Checking(pod: Pod, next: nat)                       // does every pool hold an allocation already?
    | Allocating(pod: Pod, next: nat, succeeded: nat)     // does the next pool?
    | Planning(pod: Pod, next: nat, succeeded: nat)       // before the pool's lock is taken
    | Creating(pod: Pod, next: nat, succeeded: nat, a: Allocation)
    | Guarding(pod: Pod)                                  // about to set the finalizer
    | Releasing(pod: Pod, next: nat, faulted: set<string>)
    | Deleting(pod: Pod, next: nat, faulted: set<string>) // has fetched and checked its allocation
    | Dropping(pod: Pod, faulted: set<string>)            // about to drop the finalizer

  /** How the API server answers a step: as asked, with an optimistic-lock conflict, or with a failure. */
  datatype Answer = Normal | Conflict | Fault

  datatype Cluster = Cluster(world: World, jobs: map<Key, Job>)

  /** What a reconcile that reads `pod` sets out to do. */
  function FirstJob(pod: Pod): Option<Job> {
    if !ShouldManage(pod) then None
    else if pod.deleting then if FINALIZER in pod.finalizers then Some(Releasing(pod, 0, {})) else None
    else if PoolsOf(pod).Err? || pod.ports.Err? then None
    else Some(Checking(pod, 0))
  }

  /** The pool at hand, if any is left. */
  function PoolAt(pod: Pod, next: nat): string { if next < |Annotated(pod)| then Annotated(pod)[next] else "" }

  function RequestAt(pod: Pod, next: nat): Request { PodRequest(PoolAt(pod, next), pod.name, pod.namespace) }

  datatype Turned = Turned(world: World, job: Option<Job>)

  /** Reading and planning under the pool's lock. */
  ghost function PlanTurn(strategy: Strategy, pools: Pools, w: World, pod: Pod, next: nat, succeeded: nat): Turned {
    var planned := Prepare(strategy, w.objects, pools, w.cursors, RequestAt(pod, next), PortsOf(pod));
    Turned(w.(cursors := planned.cursors),
           match planned.result
           case Ok(a) => Some(Creating(pod, next, succeeded, a))
           case Err(_) => Some(Allocating(pod, next + 1, succeeded)))
  }

  function CreateTurn(w: World, pod: Pod, next: nat, succeeded: nat, a: Allocation): Turned {
    if a.ObjectKey() in w.objects then Turned(w, Some(Allocating(pod, next + 1, succeeded)))
    else Turned(w.(objects := w.objects[a.ObjectKey() := a]), Some(Allocating(pod, next + 1, succeeded + 1)))
  }

  /** Fetching the allocation under its derived name and checking whose it is. */
  function FetchTurn(w: World, pod: Pod, next: nat, faulted: set<string>): Turned {
    var k := ReleaseKey(RequestAt(pod, next));
    var found := k in w.objects && ReleaseCheck(w.objects[k], RequestAt(pod, next)) == None;
    Turned(w, Some(if found then Deleting(pod, next, faulted) else Releasing(pod, next + 1, faulted)))
  }

  /** Deleting by name, whatever is stored there by now. */
  function DeleteTurn(w: World, pod: Pod, next: nat, faulted: set<string>): Turned {
    var k := ReleaseKey(RequestAt(pod, next));
    Turned(if k in w.objects then w.(objects := Deleted(w.objects, k)) else w, Some(Releasing(pod, next + 1, faulted)))
  }

  /** One step of a job. A failed existence check or patch ends the job; a pool that fails is passed over. */
  ghost function Turn(strategy: Strategy, pools: Pools, w: World, job: Job, ans: Answer): Turned {
    var pod, n := job.pod, |Annotated(job.pod)|;
    match job
    case Checking(_, next) =>
      if next >= n then Turned(w, Some(Guarding(pod)))
      else if ans.Fault? then Turned(w, None)
      else if Holds(w.objects, PoolAt(pod, next), pod.name, pod.namespace) then Turned(w, Some(Checking(pod, next + 1)))
      else Turned(w, Some(Allocating(pod, 0, 0)))
    case Allocating(_, next, succeeded) =>
      if next >= n then Turned(w, if succeeded > 0 then Some(Guarding(pod)) else None)
      else if ans.Fault? then Turned(w, Some(Allocating(pod, next + 1, succeeded)))
      else if Holds(w.objects, PoolAt(pod, next), pod.name, pod.namespace) then
        Turned(w, Some(Allocating(pod, next + 1, succeeded + 1)))
      else Turned(w, Some(Planning(pod, next, succeeded)))
    case Planning(_, next, succeeded) =>
      if ans.Fault? then Turned(w, Some(Allocating(pod, next + 1, succeeded)))
      else PlanTurn(strategy, pools, w, pod, next, succeeded)
    case Creating(_, next, succeeded, a) =>
      if ans.Fault? then Turned(w, Some(Allocating(pod, next + 1, succeeded)))
      else if ans.Conflict? then PlanTurn(strategy, pools, w, pod, next, succeeded)
      else CreateTurn(w, pod, next, succeeded, a)
    case Guarding(_) => Turned(if ans.Fault? then w else WithPods(w, SetFinalizer(w.pods, pod)).world, None)
    case Releasing(_, next, faulted) =>
      if next >= n then Turned(w, Some(Dropping(pod, faulted)))
      else if ans.Fault? then Turned(w, Some(Releasing(pod, next + 1, faulted + {PoolAt(pod, next)})))
      else FetchTurn(w, pod, next, faulted)
    case Deleting(_, next, faulted) =>
      if ans.Fault? then Turned(w, Some(Releasing(pod, next + 1, faulted + {PoolAt(pod, next)})))
      else DeleteTurn(w, pod, next, faulted)
    case Dropping(_, _) => Turned(if ans.Fault? then w else WithPods(w, ClearFinalizer(w.pods, pod)).world, None)
  }

  // ---------- Pool locks ----------

  /** The pool whose lock the job holds. */
  function Holding(job: Job): Option<string> {
    if job.Creating? || job.Deleting? then Some(PoolAt(job.pod, job.next)) else None
  }

  predicate TakesLock(job: Job) { job.Planning? || (job.Releasing? && job.next < |Annotated(job.pod)|) }

  /** No other job holds the lock of the pool at hand. */
  ghost predicate LockFree(v: Cluster, k: Key)
    requires k in v.jobs && TakesLock(v.jobs[k])
  {
    forall other :: other in v.jobs && other != k ==>
      Holding(v.jobs[other]) != Some(PoolAt(v.jobs[k].pod, v.jobs[k].next))
  }

  // ---------- Events ----------

  datatype Event =
    | Begin(k: Key)
    | Advance(k: Key, ans: Answer)
    | Abandon(k: Key)                                    // a job ends early, as after a restart
    | Created(pod: Pod)
    | DeleteRequested(k: Key)
    | Removed(k: Key)                                    // a deleted pod without finalizers disappears
    | OthersFinalizers(k: Key, finalizers: set<string>)  // other controllers set or clear theirs
    | Outside(objects: Objects)                          // deletions and marks behind the allocator's back

  ghost predicate Possible(v: Cluster, e: Event) {
    var pods := v.world.pods;
    match e
    case Begin(k) => k !in v.jobs && k in pods && FirstJob(pods[k]).Some?
    case Advance(k, _) => k in v.jobs && (TakesLock(v.jobs[k]) ==> LockFree(v, k))
    case Abandon(k) => k in v.jobs
    case Created(pod) => PodKey(pod) !in pods && !pod.deleting && FINALIZER !in pod.finalizers
    case DeleteRequested(k) => k in pods && !pods[k].deleting
    case Removed(k) => k in pods && pods[k].deleting && pods[k].finalizers == {}
    case OthersFinalizers(k, finalizers) => k in pods && (FINALIZER in finalizers <==> FINALIZER in pods[k].finalizers)
    case Outside(objects) => Shrinks(v.world.objects, objects)
  }

  function WithJob(jobs: map<Key, Job>, k: Key, job: Option<Job>): map<Key, Job> {
    match job
    case Some(j) => jobs[k := j]
    case None => jobs - {k}
  }

  ghost function Exec(strategy: Strategy, pools: Pools, v: Cluster, e: Event): Cluster
    requires Possible(v, e)
  {
    var pods := v.world.pods;
    match e
    case Begin(k) => v.(jobs := WithJob(v.jobs, k, FirstJob(pods[k])))
    case Advance(k, ans) =>
      var turned := Turn(strategy, pools, v.world, v.jobs[k], ans);
      Cluster(turned.world, WithJob(v.jobs, k, turned.job))
    case Abandon(k) => v.(jobs := v.jobs - {k})
    case Created(pod) => v.(world := v.world.(pods := pods[PodKey(pod) := pod]))
    case DeleteRequested(k) => v.(world := v.world.(pods := pods[k := pods[k].(deleting := true)]))
    case Removed(k) => v.(world := v.world.(pods := pods - {k}))
    case OthersFinalizers(k, finalizers) => v.(world := v.world.(pods := pods[k := pods[k].(finalizers := finalizers)]))
    case Outside(objects) => v.(world := v.world.(objects := objects))
  }

  /** Pools are cluster-scoped: their objects carry no namespace. */
  const CLUSTER_SCOPED: Namespaces := (_: string) => ""

  const EMPTY := Cluster(World(map[], map[], map[]), map[])

  /** A history of the cluster from the empty one; pools may change from event to event, but stay
      cluster-scoped. */
  ghost predicate History(strategy: Strategy, pools: seq<Pools>, states: seq<Cluster>, events: seq<Event>) {
    && |states| == |events| + 1 && |pools| == |events|
    && states[0] == EMPTY
    && forall i :: 0 <= i < |events| ==> Leads(strategy, pools[i], states[i], events[i], states[i + 1])
  }

  ghost predicate Leads(strategy: Strategy, pools: Pools, v: Cluster, e: Event, v': Cluster) {
    PoolsAgree(pools, CLUSTER_SCOPED) && Possible(v, e) && v' == Exec(strategy, pools, v, e)
  }

  // ---------- A job left alone is an atomic reconcile ----------

  /** A bound on the steps a job still has to take while the API server answers normally. */
  function Left(job: Job): nat {
    var n := |Annotated(job.pod)|;
    match job
    case Checking(_, next) => 4 * n + 5 - if next < n then next else n
    case Allocating(_, next, _) => 3 + if next < n then 3 * (n - next) else 0
    case Planning(_, next, _) => 2 + if next < n then 3 * (n - next) else 3
    case Creating(_, next, _, _) => 1 + if next < n then 3 * (n - next) else 3
    case Guarding(_) => 1
    case Releasing(_, next, _) => 3 + if next < n then 2 * (n - next) else 0
    case Deleting(_, next, _) => 2 + if next < n then 2 * (n - next) else 2
    case Dropping(_, _) => 1
  }

  lemma TurnDescends(strategy: Strategy, pools: Pools, w: World, job: Job)
    ensures var job' := Turn(strategy, pools, w, job, Normal).job; job'.Some? ==> Left(job'.value) < Left(job)
  {
    hide Prepare, Holds, Annotated, PortsOf, RequestAt, ReleaseCheck, Deleted, WithPods, SetFinalizer, ClearFinalizer;
  }

  /** The world after running a job to its end with nothing in between. */
  ghost function Finish(strategy: Strategy, pools: Pools, w: World, job: Job): World
    decreases Left(job)
  {
    TurnDescends(strategy, pools, w, job);
    var turned := Turn(strategy, pools, w, job, Normal);
    match turned.job
    case None => turned.world
    case Some(job') => Finish(strategy, pools, turned.world, job')
  }

  lemma FinishStep(strategy: Strategy, pools: Pools, w: World, job: Job)
    ensures var turned := Turn(strategy, pools, w, job, Normal);
            Finish(strategy, pools, w, job) == match turned.job
                                               case None => turned.world
                                               case Some(job') => Finish(strategy, pools, turned.world, job')
  {
  }

  /** How far allocating has come after `next` pools. */
  ghost function Done(strategy: Strategy, pools: Pools, w: World, pod: Pod, next: nat): Progress
    requires next <= |Annotated(pod)|
  {
    AllocateAll(strategy, pools, w.objects, w.cursors, Annotated(pod)[..next], pod, PortsOf(pod))
  }

  ghost function DoneWorld(strategy: Strategy, pools: Pools, w: World, pod: Pod, next: nat): World
    requires next <= |Annotated(pod)|
  {
    var done := Done(strategy, pools, w, pod, next);
    World(done.objects, done.cursors, w.pods)
  }

  /** Find, plan and create in one pool make up its turn in the atomic loop. */
  lemma FinishPool(strategy: Strategy, pools: Pools, u: World, pod: Pod, next: nat, succeeded: nat, failed: nat)
    requires next < |Annotated(pod)|
    ensures var before := Progress(u.objects, u.cursors, succeeded, failed);
            var after := AllocateNext(strategy, pools, before, Annotated(pod)[next], pod, PortsOf(pod));
            Finish(strategy, pools, u, Allocating(pod, next, succeeded))
            == Finish(strategy, pools, World(after.objects, after.cursors, u.pods),
                      Allocating(pod, next + 1, after.succeeded))
  {
    hide Prepare, Finish, Holds, Annotated, PortsOf, WithPods, FetchTurn, DeleteTurn;
    FinishStep(strategy, pools, u, Allocating(pod, next, succeeded));
    if !Holds(u.objects, PoolAt(pod, next), pod.name, pod.namespace) {
      FinishAttempt(strategy, pools, u, pod, next, succeeded);
      hide Attempt;
    }
  }

  lemma FinishAttempt(strategy: Strategy, pools: Pools, u: World, pod: Pod, next: nat, succeeded: nat)
    ensures var o := Attempt(strategy, u.objects, pools, u.cursors, RequestAt(pod, next), PortsOf(pod));
            Finish(strategy, pools, u, Planning(pod, next, succeeded))
            == Finish(strategy, pools, World(o.objects, o.cursors, u.pods),
                      Allocating(pod, next + 1, if o.result.Ok? then succeeded + 1 else succeeded))
  {
    hide Prepare, Finish, RequestAt, PortsOf;
    FinishStep(strategy, pools, u, Planning(pod, next, succeeded));
    var planned := Prepare(strategy, u.objects, pools, u.cursors, RequestAt(pod, next), PortsOf(pod));
    if planned.result.Ok? {
      FinishStep(strategy, pools, u.(cursors := planned.cursors), Creating(pod, next, succeeded, planned.result.value));
    }
  }

  lemma NextDone(strategy: Strategy, pools: Pools, w: World, pod: Pod, next: nat)
    requires next < |Annotated(pod)|
    ensures Done(strategy, pools, w, pod, next + 1)
            == AllocateNext(strategy, pools, Done(strategy, pools, w, pod, next), Annotated(pod)[next], pod,
                            PortsOf(pod))
  {
    hide AllocateNext;
    assert Annotated(pod)[..next + 1][..next] == Annotated(pod)[..next];
  }

  lemma {:induction false} FinishAllocating(strategy: Strategy, pools: Pools, w: World, pod: Pod, next: nat)
    requires PoolsOf(pod).Ok? && pod.ports.Ok? && next <= |Annotated(pod)|
    ensures Finish(strategy, pools, DoneWorld(strategy, pools, w, pod, next),
                   Allocating(pod, next, Done(strategy, pools, w, pod, next).succeeded))
            == ReconcileAllocation(strategy, pools, w, pod).world
    decreases |Annotated(pod)| - next
  {
    hide AllocateAll, AllocateNext, Finish;
    if next < |Annotated(pod)| {
      var done := Done(strategy, pools, w, pod, next);
      FinishPool(strategy, pools, DoneWorld(strategy, pools, w, pod, next), pod, next, done.succeeded, done.failed);
      NextDone(strategy, pools, w, pod, next);
      FinishAllocating(strategy, pools, w, pod, next + 1);
    } else {
      assert Annotated(pod)[..next] == Annotated(pod);
      var u := DoneWorld(strategy, pools, w, pod, next);
      FinishStep(strategy, pools, u, Allocating(pod, next, Done(strategy, pools, w, pod, next).succeeded));
      FinishStep(strategy, pools, u, Guarding(pod));
    }
  }

  lemma {:induction false} FinishChecking(strategy: Strategy, pools: Pools, w: World, pod: Pod, next: nat)
    requires PoolsOf(pod).Ok? && pod.ports.Ok? && next <= |Annotated(pod)|
    requires forall j :: 0 <= j < next ==> Holds(w.objects, Annotated(pod)[j], pod.name, pod.namespace)
    ensures Finish(strategy, pools, w, Checking(pod, next)) == ReconcileAllocation(strategy, pools, w, pod).world
    decreases |Annotated(pod)| - next
  {
    hide CleanNames, Attempt, Finish, AllocateNext;
    var names := Annotated(pod);
    FinishStep(strategy, pools, w, Checking(pod, next));
    if next == |names| {
      AllocateAllIdle(strategy, pools, w.objects, w.cursors, names, pod, PortsOf(pod));
      FinishStep(strategy, pools, w, Guarding(pod));
    } else if Holds(w.objects, names[next], pod.name, pod.namespace) {
      FinishChecking(strategy, pools, w, pod, next + 1);
    } else {
      assert names[..0] == [];
      FinishAllocating(strategy, pools, w, pod, 0);
    }
  }

  ghost function ReleasedWorld(w: World, pod: Pod, next: nat): World
    requires next <= |Annotated(pod)|
  {
    w.(objects := ReleaseAll(w.objects, Annotated(pod)[..next], pod))
  }

  /** Fetch and delete in one pool make up its release. */
  lemma FinishRelease(strategy: Strategy, pools: Pools, w: World, pod: Pod, next: nat)
    requires next < |Annotated(pod)|
    ensures Finish(strategy, pools, ReleasedWorld(w, pod, next), Releasing(pod, next, {}))
            == Finish(strategy, pools, ReleasedWorld(w, pod, next + 1), Releasing(pod, next + 1, {}))
  {
    hide Finish, Deleted;
    var u := ReleasedWorld(w, pod, next);
    assert Annotated(pod)[..next + 1][..next] == Annotated(pod)[..next];
    FinishStep(strategy, pools, u, Releasing(pod, next, {}));
    FinishStep(strategy, pools, u, Deleting(pod, next, {}));
  }

  lemma {:induction false} FinishReleasing(strategy: Strategy, pools: Pools, w: World, pod: Pod, next: nat)
    requires FINALIZER in pod.finalizers && next <= |Annotated(pod)|
    ensures Finish(strategy, pools, ReleasedWorld(w, pod, next), Releasing(pod, next, {})) ==
              ReconcileDeletion(w, pod).world
    decreases |Annotated(pod)| - next
  {
    hide Finish, Release, ReleaseAll;
    if next < |Annotated(pod)| {
      FinishRelease(strategy, pools, w, pod, next);
      FinishReleasing(strategy, pools, w, pod, next + 1);
    } else {
      assert Annotated(pod)[..next] == Annotated(pod);
      var u := ReleasedWorld(w, pod, next);
      FinishStep(strategy, pools, u, Releasing(pod, next, {}));
      FinishStep(strategy, pools, u, Dropping(pod, {}));
    }
  }

  /** Run without interruption or fault, the steps of a job make up the reconcile. */
  lemma Uninterrupted(strategy: Strategy, pools: Pools, w: World, k: Key)
    requires k in w.pods
    ensures match FirstJob(w.pods[k])
            case Some(job) => Finish(strategy, pools, w, job) == Reconcile(strategy, pools, w, k).world
            case None => Reconcile(strategy, pools, w, k).world == w
  {
    hide Finish;
    var pod := w.pods[k];
    match FirstJob(pod)
    case None =>
    case Some(job) =>
      if pod.deleting {
        assert Annotated(pod)[..0] == [];
        FinishReleasing(strategy, pools, w, pod, 0);
      } else {
        FinishChecking(strategy, pools, w, pod, 0);
      }
  }

  // ---------- Jobs under faults and conflicts ----------

  /** A job in the loop over the annotated pools, allocating or releasing. */
  predicate InLoop(job: Job) {
    job.Allocating? || job.Planning? || job.Creating? || job.Releasing? || job.Deleting?
  }

  predicate Allocates(job: Job) { job.Allocating? || job.Planning? || job.Creating? }

  /** A step of a loop over the pools stays in its pool or goes on to the next one, whatever the answer. It goes
      on with one pool more to its credit only if that pool now holds an allocation of the pod, and leaves a pool
      after a conflict only if planning again has failed. */
  lemma LoopTurn(strategy: Strategy, pools: Pools, w: World, job: Job, ans: Answer)
    requires InLoop(job) && job.next < |Annotated(job.pod)|
    requires job.Creating? ==> job.a.poolLabel == PoolAt(job.pod, job.next)
                               && job.a.ServesPod(job.pod.name, job.pod.namespace)
    ensures var turned := Turn(strategy, pools, w, job, ans);
            && turned.job.Some? && InLoop(turned.job.value)
            && var job' := turned.job.value;
               && job'.pod == job.pod && (Allocates(job') <==> Allocates(job))
               && (if job'.next == job.next then turned.world.objects == w.objects
                   else job'.next == job.next + 1 && (job'.Allocating? || job'.Releasing?))
               && (Allocates(job) ==>
                     && job.succeeded <= job'.succeeded <= job.succeeded + 1
                     && (job'.succeeded == job.succeeded + 1 ==>
                           job'.next == job.next + 1 && !ans.Fault?
                           && Holds(turned.world.objects, PoolAt(job.pod, job.next), job.pod.name, job.pod.namespace)))
               && (job.Creating? && ans.Conflict? && job'.next != job.next ==>
                     Prepare(strategy, w.objects, pools, w.cursors, RequestAt(job.pod, job.next),
                             PortsOf(job.pod)).result.Err?)
  {
    hide Prepare, Annotated;
    if job.Creating? && job.a.ObjectKey() !in w.objects {
      var k := job.a.ObjectKey();
      assert CreateTurn(w, job.pod, job.next, job.succeeded, job.a).world.objects[k] == job.a;
    }
  }

  /** A job ends where its work is done, or where its first look at the pools meets a fault; in no other step. It
      enters the loop over the pools at the first one, and a step that meets a fault changes nothing but the job. */
  lemma EndsWhenDone(strategy: Strategy, pools: Pools, w: World, job: Job, ans: Answer)
    ensures Turn(strategy, pools, w, job, ans).job == None <==>
            || job.Guarding? || job.Dropping?
            || (job.Checking? && job.next < |Annotated(job.pod)| && ans.Fault?)
            || (job.Allocating? && job.next >= |Annotated(job.pod)| && job.succeeded == 0)
    ensures var job' := Turn(strategy, pools, w, job, ans).job;
            !InLoop(job) && job'.Some? && InLoop(job'.value) ==> job' == Some(Allocating(job.pod, 0, 0))
    ensures Turn(strategy, pools, w, job, Fault).world == w
  {
    hide Prepare, Holds, Annotated;
  }

  /** The jobs one job goes through, in whatever worlds and with whatever answers its steps find. */
  ghost predicate Course(strategy: Strategy, pools: seq<Pools>, worlds: seq<World>, answers: seq<Answer>,
                         jobs: seq<Job>) {
    && |jobs| > 0 && |pools| == |worlds| == |answers| == |jobs| - 1
    && forall i :: 0 <= i < |jobs| - 1 ==>
         Turn(strategy, pools[i], worlds[i], jobs[i], answers[i]).job == Some(jobs[i + 1])
  }

  lemma LoopOrDone(strategy: Strategy, pools: Pools, w: World, job: Job, ans: Answer)
    requires InLoop(job) || job.Guarding? || job.Dropping?
    ensures match Turn(strategy, pools, w, job, ans).job
            case None => true
            case Some(job') =>
              && InLoop(job) && job'.pod == job.pod
              && (if InLoop(job') then job'.next <= job.next + 1
                  else (job'.Guarding? || job'.Dropping?) && job.next >= |Annotated(job.pod)|)
  {
    hide Prepare, Holds, Annotated;
  }

  lemma {:induction false} CourseInLoop(strategy: Strategy, pools: seq<Pools>, worlds: seq<World>,
                                        answers: seq<Answer>, jobs: seq<Job>, m: nat)
    requires Course(strategy, pools, worlds, answers, jobs) && m < |jobs| && InLoop(jobs[0])
    ensures jobs[m].pod == jobs[0].pod && (InLoop(jobs[m]) || jobs[m].Guarding? || jobs[m].Dropping?)
  {
    hide Turn;
    if m > 0 {
      CourseInLoop(strategy, pools, worlds, answers, jobs, m - 1);
      LoopOrDone(strategy, pools[m - 1], worlds[m - 1], jobs[m - 1], answers[m - 1]);
    }
  }

  /** No pool is skipped: a job that has come past a pool in its loop, or through the loop, has been at it,
      whatever failed on the way. */
  lemma {:induction false} NoPoolSkipped(strategy: Strategy, pools: seq<Pools>, worlds: seq<World>,
                                         answers: seq<Answer>, jobs: seq<Job>, m: nat, p: nat)
    requires Course(strategy, pools, worlds, answers, jobs) && m < |jobs|
    requires InLoop(jobs[0]) && jobs[0].next <= p < |Annotated(jobs[0].pod)|
    requires InLoop(jobs[m]) ==> p < jobs[m].next
    ensures exists i :: 0 <= i < m && InLoop(jobs[i]) && jobs[i].next == p
  {
    hide Turn, Annotated;
    if m > 0 {
      CourseInLoop(strategy, pools, worlds, answers, jobs, m - 1);
      LoopOrDone(strategy, pools[m - 1], worlds[m - 1], jobs[m - 1], answers[m - 1]);
      if jobs[m - 1].next > p {
        NoPoolSkipped(strategy, pools, worlds, answers, jobs, m - 1, p);
      }
    }
  }
}
