# Port allocation across load balancers: a verified model

The controller hands out load-balancer ports to pods. A network pool lists load balancers and one port range with
exclusions. A request for n ports is placed on one load balancer, round-robin or least-used, given the first n free
ports there, and recorded as a named `PortAllocation` object in the API server; a release deletes that object. There
is no other ledger. Calls for one pool exclude each other by a mutex, the round-robin cursors have their own. A pod
reconciler drives the allocator over the pools a pod is annotated with and guards the result with a finalizer; a pool
reconciler recomputes counts from the same objects.

The model proves what these parts promise together: no port is ever booked twice under any interleaving, selection is
never wasted and never gives up while a load balancer has room, both strategies share the load, interleaved calls act
one at a time, releases hit their own allocation only, and calls always finish. Some promises depend on something the
code does not enforce; for each of these the exact condition is proved, together with a run or an input that breaks it:
callers agreeing on a namespace, names not colliding, counts not underflowing, pools being cluster-scoped, allocations
not being deleted under a pod, and pods being neither deleted between their first allocation and their finalizer nor
released under API faults, which is when ports outlive their pod.

## Layout

| files | content |
|---|---|
| `Types`, `Ledger` | entities, keys, 32-bit truncation; counting and set views of recorded bindings |
| `PortSearch`, `RoundRobin`, `LeastUsed`, `Rotation` | counting test, first-fit search, the two strategies and their guarantees over runs |
| `Operations`, `Runs` | one attempt and one release as functions of the store; sequential histories |
| `ScanSafety`, `ApiServer`, `Allocator` | why the port scan does not wrap; the object store and the allocator as classes, proved against `Operations` |
| `Protocol`, `ProtocolSafety`, `ProtocolLedger`, `ProtocolProgress`, `ProtocolRetries` | concurrent calls as a state machine; safety, naming, exactness, progress, retries and faults |
| `ProtocolAtomicity`, `ProtocolLinear`, `ProtocolHistories`, `ProtocolRotation`, `ProtocolBalance` | interleaved calls against sequential ones: replies, store, cursors, rotation, balance |
| `ProtocolRelease`, `ProtocolSchedules`, `ProtocolCollision`, `ProtocolNamespaces` | releases under interleaving, and the exact conditions on names and namespace arguments with the schedules that show them |
| `PoolStatus` | the pool reconciler's counts and the conflict detector |
| `PodLifecycle`, `PodController` | one pod reconcile as a function and as a class |
| `PodJobs`, `PodHistory`, `PodLeaks` | pod reconciles step by step, interleaved with pod and outside events; when ports leak, and histories in which they do |

`dafny verify dfyconfig.toml` checks the whole project.

## Assumptions

- Reads of the API server are linearizable. A stale informer cache would break port uniqueness.
- One allocator instance serves all calls, and only `AllocatePort` creates a pool's allocations. Anyone may delete them,
  set deletion marks and finalizers, and edit pools at any time, unless a statement says otherwise. A deletion mark is
  never taken back.
- All calls for one pool pass the same namespace argument. This is a hypothesis (`Protocol.OneNamespace`) where it is
  needed, and `ProtocolSafety.MutualExclusionExactly` and `ProtocolNamespaces.UniquenessExactly` show it cannot be
  dropped; for unique ports it suffices that the calls that want ports agree (`ProtocolSafety.PortsAgree`).
- Pools are looked up by name. The code passes the pod's namespace to the pool lookup (`pkg/allocator/allocate.go:23`),
  which is harmless because pools are cluster-scoped (`api/v1/network_pool_types.go:151-153`).
- Uniqueness is per pool: two pools naming the same load balancer do not see each other's ledger, and nothing is
  claimed across them.
- Usage counters, the capacity difference and the scan's counter are truncated to 32 bits as in the code. The allocator
  class takes ranges with 32-bit bounds and calls for fewer than 2^31 ports; for a range that ends at 2^31 - 1 it relies
  on counts that do not underflow, which every call preserves (`ScanSafety`).
- The work queue runs at most one reconcile per pod at a time. A deleted pod stays until its last finalizer is gone,
  and may stay longer. A pod's annotations do not change during its life.
- A class constructed with `reliable` set meets no API fault. Without it every request may fail and every create may
  report a conflict.
- The reconciler is constructed with an allocator, as its tests do; the manager's entry point does not set one.

## Where code and expectation differ

- The comment at the lock and cursor tables (`pkg/allocator/core.go:28-32`) names the pool name as key; the code keys
  by namespace argument and pool name (`pkg/allocator/core.go:146`). Two callers with different namespace arguments
  are not excluded from each other.
- Derived names `pool-pod` are not injective. Pool "a" with pod "b-c" and pool "a-b" with pod "c" compete for one
  object: the second is refused in a pool with room (`Runs.ServedExactly`, `Runs.RefusedAcrossPools`), and with a
  deletion from outside in between a release can delete the wrong one (`ProtocolCollision.IsolationExactly`,
  `PodLeaks.StrandedTaken`).
- Pods of the same name in different namespaces compete for one object per pool, since the name leaves the pod's
  namespace out (`Operations.OnePerPodName`, `Runs.RefusedNamesake`).
- The conflict detector compares port numbers without their load balancers, so it fires on sound ledgers of pools with
  several load balancers (`PoolStatus.DetectorOnSoundLedger`, `PoolStatus.DetectorFires`).
- An inverted range of extreme width makes the 32-bit capacity positive and the counting test unsound
  (`PortSearch.CountingTestSoundExactly`, `PortSearch.SpuriousAcceptance`).
- The existence check of the pod reconciler counts allocations that are being deleted, so it can report success for a
  pod without an active allocation (`PodLifecycle.NilReturnServesExactly`, `PodLifecycle.NilReturnUnserved`).
- The pod reconciler allocates first and sets the finalizer afterwards. A pod deleted in between is skipped by the
  deletion handler, and its ports stay (`PodHistory.StrandedExactly`, `PodLeaks.LeakReached`). The deletion handler
  drops the finalizer even if releases failed, with the same effect (`PodLeaks.FaultLeakReached`).
- A finalizer patch carries the whole list as read, so a finalizer that another controller sets between the read and
  the patch is lost (`PodLifecycle.PatchesFromRead`).
- Allocations are namespaced objects (`config/crd/bases/apollo.io_portallocations.yaml:17`), but are created in the
  namespace of their pool, which for a cluster-scoped pool is empty. An API server refuses such a create; a reliable
  client of the model accepts it.
- The requested `LBPort` of a container port is ignored (`pkg/allocator/allocate.go:48-57`).

## Model

| member | source | states |
|---|---|---|
| `ProtocolSafety.NoDoubleAllocation` | pkg/allocator/core.go:94-124 | In every state of every interleaving of any number of allocate and release calls on any pools, with API faults, conflicts, outside deletions and pool-spec edits, no two bindings stored under one pool label share load balancer and port, provided the calls that want ports in one pool pass one namespace argument |
| `ProtocolSafety.BasePreserved` | pkg/allocator/core.go:94-124 | Every possible step keeps locks, program counters, the threads' own variables and object keys consistent, whatever namespaces callers pass |
| `ProtocolSafety.InvPreserved` | pkg/allocator/core.go:94-124 | Every possible step keeps the invariant whose core is that the snapshot of a lock holder that wants ports covers the pool's recorded ports until its create |
| `ProtocolSafety.LocksPreserved` | pkg/allocator/core.go:94-100 | Every step of every thread keeps lock table, index lock and program counters consistent, without any assumption on the callers |
| `ProtocolSafety.CoverKept` | pkg/allocator/allocate.go:15-88 | After any thread's step, every thread that wants ports and has taken a snapshot still sees all ports recorded for its pool |
| `ProtocolSafety.MutualExclusionExactly` | pkg/allocator/core.go:145-159 | For any set of calls: all runs keep at most one call inside each pool if and only if all calls for a pool pass the same namespace argument; the mutex key contains that argument, although the comment at the lock table names only the pool |
| `ProtocolSafety.BothEnter` | pkg/allocator/core.go:145-148 | Two calls for one pool under different namespace arguments have a run in which both are inside at once |
| `ProtocolNamespaces.UniquenessExactly` | pkg/allocator/core.go:94-124 | For every strategy and any set of calls, all runs keep ports unique if and only if the calls that want ports in one pool pass the same namespace |
| `ProtocolNamespaces.DoubleBooking` | pkg/allocator/core.go:145-159 | For any two calls for ports of one pool under different namespaces, whatever they ask for, constructs the run that books one port twice |
| `ProtocolLedger.NamingReached` | pkg/allocator/allocate.go:61-79 | While pools keep their namespaces, every interleaving of any calls stores each allocation under the key derived from its pool and pod name, with labels repeating them |
| `ProtocolLedger.QueryAgreesEverywhere` | internal/controller/pod_controller.go:376-395 | In every reachable state the two-label query has at most one hit and finds an allocation of the pod exactly when the duplicate check does |
| `ProtocolLedger.TidyReached` | pkg/allocator/allocate.go:115-147 | In every reachable state of a pool with a fixed well-formed spec, recorded ports are distinct per load balancer, in range and not excluded |
| `ProtocolLedger.ExactEverywhere` | pkg/allocator/allocate.go:106-112 | In every reachable state a load balancer passes the counting test for n ports if and only if n ports are free on it, and selection fails if and only if no load balancer has n free ports |
| `ProtocolProgress.LockDiscipline` | pkg/allocator/lb.go:30-31 | In every reachable state a thread holds at most its own pool lock, exactly while its call is under way, and the index lock only inside it; least-used calls never take the index lock |
| `ProtocolProgress.NoDeadlock` | pkg/allocator/core.go:94-100 | While some call is unfinished, some thread can step on a normal answer of the API server, in every reachable state |
| `ProtocolProgress.OwnStepsBounded` | pkg/allocator/core.go:106-125 | Every call takes at most 47 steps of its own, whatever other threads, outside actors and faults do |
| `ProtocolProgress.StepDescends` | pkg/allocator/core.go:106-125 | Every step of a thread lowers its bound on remaining steps; so does a conflict on one of its first four creates, which sends it back to its first check for one more attempt |
| `ProtocolProgress.AllCallsFinish` | pkg/allocator/core.go:94-100 | A run has at most 47 steps per call, and where no thread can step any more every call has finished and every lock is returned |
| `ProtocolRetries.GivesUpExactly` | pkg/allocator/core.go:106-125 | In every run a call replies with a conflict if and only if five of its own creates have been answered with one |
| `ProtocolRetries.RetriesAfterConflict` | pkg/allocator/core.go:106-125 | In every run one of the first four conflicts sends the call back to its duplicate check for another attempt, with its lock held and the store as it was; the fifth ends it |
| `ProtocolRetries.FaultsAreReal` | pkg/allocator/core.go:106-125 | In every run a call reports a fault only after a request that failed, and a conflict only after a create that met one |
| `ProtocolRetries.FaultsEndCalls` | pkg/allocator/allocate.go:15-185 | A failed request, whichever it was, ends the call with a fault unless it was a create that met a conflict, and leaves the store alone |
| `ProtocolRetries.ChecksDecide` | pkg/allocator/allocate.go:15-185 | In every run a call goes on past its duplicate check, its pool lookup, its probe of the name and the fetch of a release if and only if the check passes in the current state; a failed one ends it at once, and a release reports success if and only if its delete found the object |
| `ProtocolRelease.ReleaseTouchesOwn` | pkg/allocator/release.go:21-57 | Under interleaving a release takes away or marks nothing but the allocation of its own pod in its own pool, if nobody deletes behind the allocator's back or no call of another pool derives the name of a release that can have something to release |
| `ProtocolRelease.IdleReached` | pkg/allocator/release.go:21-52 | A release whose allocation is not active at the start and is created by no call never reaches its delete, in any run |
| `ProtocolCollision.IsolationExactly` | pkg/allocator/release.go:21-57 | With outside deletions and pool edits allowed, that isolation holds in all runs if and only if no allocating call of another pool derives the object name of a release whose allocation is active at the start or may be created by some call; calls for a pool pass one namespace, without a slash |
| `ProtocolCollision.Misdirected` | pkg/allocator/release.go:54-57 | For any such colliding pair of calls, under every strategy and whatever the other calls, constructs the run in which the delete hits the other pod's allocation |
| `ProtocolCollision.ReachDelete` | pkg/allocator/release.go:21-57 | Constructs the run that brings such a release to its delete, letting the other call create its allocation first where need be |
| `ProtocolCollision.NamesCollide` | pkg/allocator/allocate.go:63 | Pool "a" with pod "b-c" and pool "a-b" with pod "c" derive one name |
| `ProtocolAtomicity.ExactlyOneRelease` | pkg/allocator/release.go:13-60 | Of any number of interleaved releases of one active allocation, without reallocation, outside deletion or fault, at most one has succeeded at any time and exactly one once any has ended |
| `ProtocolAtomicity.CreateIsAtomic` | pkg/allocator/core.go:106-125 | Without outside interference the create of any interleaved call changes the store exactly as the whole sequential attempt would at that instant |
| `ProtocolAtomicity.OthersKeepLedger` | pkg/allocator/core.go:31-32 | While a thread is inside a pool, no step of another thread changes the set of that pool's allocations, in states reached without outside deletions and with one namespace per pool |
| `ProtocolLinear.RepliesAreSequential` | pkg/allocator/core.go:106-142 | Without outside interference every reply of every interleaved call, success or failure other than a fault, and its effect on the store are those of the whole sequential attempt or release made at that instant, with the cursor the call had read; steps without a reply leave the store alone |
| `ProtocolLinear.Linearized` | pkg/allocator/core.go:94-124 | Without outside interference, faults included, every run leaves behind the store that its calls leave one at a time, in the order of their replies, each with some cursors |
| `ProtocolHistories.SequentialHistory` | pkg/allocator/core.go:94-124 | Where every answer is normal and pool namespaces hold no slash, the store of every state is that of one sequential history of the calls in the order of their replies, and where no call is under way so are the cursors |
| `ProtocolHistories.OneMoreOp` | pkg/allocator/lb.go:28-41 | Every step keeps the history's cursors equal to the allocator's but where a call has moved one and not replied, and a reply is that of the operation on the history's own cursors |
| `PortSearch.FindPortsExactly` | pkg/allocator/allocate.go:115-147 | The search succeeds if and only if enough ports are in range, unexcluded and unused on the load balancer; its answer is the one increasing list of the n smallest |
| `PortSearch.CountRefused` | pkg/allocator/allocate.go:118-120 | The search refuses a count as invalid if and only if it is not positive |
| `PortSearch.CountUnderestimates` | pkg/allocator/allocate.go:107-112 | For every ledger and exclusion list, duplicates and out-of-range entries included, counting never overstates the free ports |
| `PortSearch.CountingTestSound` | pkg/allocator/allocate.go:107-147 | A load balancer accepted by the counting test always passes the search on the same snapshot, unless the 32-bit difference underflowed |
| `PortSearch.CountingTestSoundExactly` | pkg/allocator/allocate.go:109-111 | The test is sound for all request sizes if and only if the true difference is not in the window between -2^32 and -2^31 where 32 bits turn it positive |
| `PortSearch.SpuriousAcceptance` | pkg/allocator/allocate.go:109-111 | An inverted range in that window: an empty load balancer without a single port passes the test |
| `ScanSafety.AcceptedScanEnds` | pkg/allocator/allocate.go:133-139 | After an accepted counting test the scan has its ports before its counter could wrap, also in a range that ends at the largest 32-bit integer |
| `ScanSafety.AttemptKeepsSafe` | pkg/allocator/allocate.go:107-147 | An attempt never pushes a load balancer's difference of counts below the 32-bit minimum |
| `ScanSafety.ReleaseKeepsSafe` | pkg/allocator/release.go:54-57 | Neither does a release |
| `PortSearch.CountingTestExact` | pkg/allocator/allocate.go:107-147 | On distinct, in-range, unexcluded ports and a well-formed range the difference is the number of free ports, so test, free count and search agree |
| `Ledger.CountIsCardinality` | pkg/allocator/allocate.go:91-104 | The usage counter is the number of binding slots on the load balancer |
| `Ledger.Pigeonhole` | api/v1/port_allocation_types.go:202-212 | The set view has at most as many ports as the counter, and as many if and only if no port is bound twice there |
| `Ledger.ListOrderIrrelevant` | pkg/allocator/allocate.go:91-104 | Usage and used ports do not depend on the order of the list the API server returns |
| `Ledger.ListingUnique` | api/v1/port_allocation_types.go:202-212 | Any listing of a pool in a store without double bookings is itself free of them |
| `RoundRobin.PickNearest` | pkg/allocator/lb.go:33-47 | The choice is the available load balancer at least cyclic distance from the cursor; there is none if and only if none is available |
| `RoundRobin.PickAgain` | pkg/allocator/lb.go:39-41 | The next choice with unchanged availability is the same if and only if no other load balancer is available |
| `RoundRobin.BoundedWaiting` | pkg/allocator/lb.go:33-45 | A load balancer able to serve every request is chosen no later than its cyclic distance from the cursor, hence within n requests, whatever happens to the others |
| `RoundRobin.PicksRotate` | pkg/allocator/lb.go:33-41 | While all have room, the k-th choice is (start + k) mod n |
| `RoundRobin.Fairness` | pkg/allocator/lb.go:33-45 | While all have room, of two load balancers the one nearer the cursor is chosen as often as the other or once more, over any window |
| `RoundRobin.Independence` | pkg/allocator/lb.go:28-41 | Interleaved selections of other pools never change a pool's sequence of choices |
| `Rotation.ChoicesAreOwn` | pkg/allocator/lb.go:23-48 | On real snapshots of arbitrarily interleaved pools the choices of one pool are those of its own requests alone |
| `Rotation.ServedInTurn` | pkg/allocator/lb.go:33-45 | Bounded waiting for the allocator's own selections: within as many of the pool's requests as it has load balancers, one that always passes the counting test is selected |
| `Rotation.FairShares` | pkg/allocator/lb.go:33-45 | Fairness for the allocator's own selections: selection counts of any two load balancers differ by at most one |
| `ProtocolRotation.RecordedAreChoices` | pkg/allocator/lb.go:28-45 | In every interleaving the positions threads select under the index lock, and the cursors they leave, are those of the sequential rotation over the same requests |
| `ProtocolRotation.ServedInTurnAlways` | pkg/allocator/lb.go:33-45 | Bounded waiting in every interleaving |
| `ProtocolRotation.FairSharesAlways` | pkg/allocator/lb.go:33-45 | Fairness in every interleaving |
| `LeastUsed.ScanMinimum` | pkg/allocator/lb.go:56-67 | The running minimum is the first accepted load balancer of least 32-bit usage |
| `LeastUsed.PickGlobalMinimum` | pkg/allocator/lb.go:51-73 | The choice has the least usage of all load balancers, earliest on ties, and selection fails if and only if none has room |
| `LeastUsed.ServedBalanced` | pkg/allocator/lb.go:51-74 | Serving one request of at most k ports keeps all usages within k of each other |
| `LeastUsed.BoundedImbalance` | pkg/allocator/lb.go:51-74 | Over any run without releases, requests of at most k ports keep usages within k |
| `Runs.LeastUsedStaysBalanced` | pkg/allocator/lb.go:51-74 | The same over whole histories of the allocator: attempts on all pools, releases elsewhere, failures included |
| `Runs.SinglePortsWithinOne` | pkg/allocator/lb.go:51-74 | From an empty store single-port requests never put two load balancers more than one port apart |
| `ProtocolBalance.BalancedAlways` | pkg/allocator/lb.go:51-74 | Bounded imbalance in every interleaving of calls without releases in the pool and without outside interference |
| `ProtocolBalance.EventServes` | pkg/allocator/lb.go:51-74 | Every step either serves a least-used request on the pool's current ledger or leaves its usage as it is |
| `Runs.HistorySound` | pkg/allocator/core.go:83-142 | Every sequential history keeps derived names, unique ports and allowed ports |
| `Runs.ExhaustionIsReal` | pkg/allocator/lb.go:23-74 | On a tidy ledger selection fails, under each strategy, if and only if no load balancer has enough free ports |
| `Operations.SelectionNeverWasted` | pkg/allocator/allocate.go:35-44 | If 32-bit differences do not underflow, planning fails only because no load balancer passes the test, never in the search after one was selected |
| `Operations.PlanShape` | pkg/allocator/allocate.go:46-79 | A plan is named pool-pod in the namespace of its pool, labelled with both, made for the pod of the request and active, and binds distinct ports that are free on a load balancer of the pool |
| `Operations.PlanDelivers` | pkg/allocator/allocate.go:34-58 | Container port i is bound to the i-th smallest free port of the selected load balancer, with its own pod port, protocol and name and the default binding type |
| `Operations.PlanOrderIrrelevant` | pkg/allocator/allocate.go:15-88 | A plan and its cursor movement do not depend on listing order |
| `Runs.ServedExactly` | pkg/allocator/core.go:106-142 | In a pool with a tidy ledger a request gets an allocation if and only if the pod holds none there, its derived name is free, and, unless it wants no port, some load balancer has as many free ports as it wants |
| `Runs.RefusedAcrossPools` | pkg/allocator/allocate.go:63-66 | A pod that holds nothing is refused in a pool with room, because a pod of another pool has its derived name |
| `Runs.RefusedNamesake` | pkg/allocator/allocate.go:63-66 | So is a pod that shares its name with a pod of another namespace |
| `Operations.AttemptFrom` | pkg/allocator/core.go:106-142 | An attempt by a pod holding nothing in the pool, with a plan from any listing and a free derived name, succeeds and stores exactly the plan |
| `Operations.AttemptCreates` | pkg/allocator/core.go:106-142 | A successful attempt found no allocation of the pod, planned from the complete current ledger under a name not taken, and stored that plan |
| `Operations.AttemptKeeps` | pkg/allocator/core.go:106-125 | An attempt keeps names derived, ports unique, and every pool's ports in range and unexcluded |
| `Operations.AttemptEffect` | pkg/allocator/core.go:106-142 | Success adds one new object, named and labelled for this pod and pool; failure changes no object |
| `Operations.AttemptMovesOwnCursor` | pkg/allocator/lb.go:28-41 | An attempt leaves every other pool's cursor alone |
| `Operations.AttemptSelects` | pkg/allocator/lb.go:28-41 | A round-robin request that succeeds is served by the first load balancer with room from the stored cursor on, around the ring, and in a pool that has no cursor yet by the earliest one with room; the cursor is left just past it |
| `Operations.RefusedKeepsCursors` | pkg/allocator/lb.go:35-47 | An attempt refused before or in selection leaves every cursor where it was |
| `Operations.RetriesRotate` | pkg/allocator/core.go:106-125 | With room everywhere each conflicted pass moves the cursor by one, so after k conflicts the request goes k places past where it would have gone at once |
| `Operations.RefusalsExactly` | pkg/allocator/allocate.go:15-185 | Which cause an attempt reports: an allocation of the pod, else a missing pool, else a pool without load balancers where ports are wanted; a taken name only under the derived key |
| `Operations.CreateKeepsUnique` | pkg/allocator/allocate.go:150-182 | Creating what was planned from a covering snapshot cannot book a port twice |
| `Operations.OnePerPodName` | pkg/allocator/allocate.go:63-67 | Two allocations of one pool and pod name are the same object, even across pod namespaces, although names are not injective |
| `Operations.LabelQueryAgrees` | internal/controller/pod_controller.go:376-395 | The two-label query has at most one hit, so a page of 100 loses nothing, and it finds the pod if and only if the duplicate check does |
| `Operations.ReleaseIsolated` | pkg/allocator/release.go:21-59 | Release succeeds if and only if the derived key holds an active allocation of this pod in this pool; that object is then gone, or marked and kept if it has finalizers, and no other is touched; each refusal has its exact cause and changes nothing |
| `Operations.ReleaseOnce` | pkg/allocator/release.go:49-52 | Releasing again after a success fails |
| `Operations.ReleaseFinds` | pkg/allocator/release.go:21-57 | With derived names and the pool's namespace, release succeeds if and only if the pod has an active allocation in the pool, and leaves none |
| `Operations.RoundTrip` | pkg/allocator/release.go:13-60 | After a successful attempt, releasing with the same arguments succeeds and restores the store if and only if the namespace argument is the pool's |
| `Operations.RepeatedRequest` | pkg/allocator/core.go:83-142 | For a pool with distinct load-balancer IDs, counts that do not underflow and at least one port asked for: repeating the request after the round trip gives the identical allocation if and only if the strategy is least-used or only one load balancer has room |
| `Allocator.GetAllocatedPortsByLB` | api/v1/port_allocation_types.go:202-212 | The nested loops return exactly the set of ports recorded on the load balancer |
| `Allocator.PoolAllocator.constructor` | pkg/allocator/core.go:36-42 | A new allocator has no cursors and holds no lock |
| `Allocator.PoolAllocator.GetLBPortUsage` | pkg/allocator/allocate.go:91-104 | The 32-bit counter is the number of bindings on the load balancer, truncated |
| `Allocator.PoolAllocator.HasAvailablePorts` | pkg/allocator/allocate.go:107-112 | The step-by-step 32-bit computation equals one truncation of the exact difference, compared with the truncated request |
| `Allocator.PoolAllocator.CollectBlocked` | pkg/allocator/allocate.go:122-131 | The set built for the search is used ports on this load balancer plus exclusions |
| `Allocator.PoolAllocator.FindAvailablePorts` | pkg/allocator/allocate.go:115-147 | The scan loop with its 32-bit counter returns the first-fit list, or the error for a bad count or too few ports, if the range ends below 2^31 - 1 or has the ports asked for |
| `Allocator.PoolAllocator.ScanFromCursor` | pkg/allocator/lb.go:36-46 | The cyclic loop finds the position `RoundRobin.PickNearest` characterises |
| `Allocator.PoolAllocator.SelectRoundRobin` | pkg/allocator/lb.go:23-48 | Returns the first load balancer with room from the cursor on, the earliest one in a pool not selected from before, and leaves the cursor just past it; without room anywhere it fails and moves no cursor; the index lock is returned on every path |
| `Allocator.PoolAllocator.SelectLeastUsed` | pkg/allocator/lb.go:51-74 | The loop returns the load balancer `LeastUsed.PickGlobalMinimum` characterises, or the right error |
| `Allocator.PoolAllocator.SelectLoadBalancer` | pkg/allocator/lb.go:11-20 | Dispatches: least-used leaves cursors alone, every other strategy is round-robin |
| `Allocator.PoolAllocator.CheckForDuplicateAllocation` | pkg/allocator/allocate.go:186-211 | Passes only if the pod holds nothing in the pool, terminating allocations included; otherwise reports a duplicate or an API fault |
| `Allocator.PoolAllocator.GetPoolAndAllocations` | pkg/allocator/core.go:50-80 | The snapshot is the stored pool with a complete listing of its allocations |
| `Allocator.PoolAllocator.TryAllocatePort` | pkg/allocator/allocate.go:15-88 | Result and cursor movement are those of the sequential preparation, unless an API fault stopped it |
| `Allocator.PoolAllocator.CreateAllocation` | pkg/allocator/allocate.go:150-182 | Adds exactly the given object under a free key, or changes nothing |
| `Allocator.PoolAllocator.Pass` | pkg/allocator/core.go:107-125 | One pass of the closure is one attempt; store unchanged on any error, cursor moved as prepared on a conflict |
| `Allocator.PoolAllocator.RetryOnConflict` | pkg/allocator/core.go:106-125 | At most five passes; the outcome is one attempt made with the cursors its conflicted predecessors left; a conflict is returned only after the fifth |
| `Allocator.PoolAllocator.AllocatePort` | pkg/allocator/core.go:83-142 | The same, for a call that finds its pool lock free, with the lock returned on every path |
| `Allocator.PoolAllocator.ReleasePort` | pkg/allocator/release.go:13-60 | For a call that finds its pool lock free, unless an API fault stops it, result and new store are those of the release function characterised by `Operations.ReleaseIsolated`; the lock is returned on every path |
| `ApiServer.Client.Get` | pkg/allocator/allocate.go:155-163 | Returns the stored object, NotFound exactly for a missing key, or a fault |
| `ApiServer.Client.List` | pkg/allocator/allocate.go:187-192 | Returns each allocation carrying the pool label once, in any order |
| `ApiServer.Client.ListByLabels` | internal/controller/pod_controller.go:378-382 | Returns only objects carrying both labels, and all of them when they fit the page |
| `ApiServer.Client.Create` | pkg/allocator/allocate.go:165-169 | Creates under a free key only; every failure leaves the store unchanged; a refusal of the namespace counts as a fault |
| `ApiServer.Client.Delete` | pkg/allocator/release.go:54-57 | Removes the object, or only marks it when finalizers hold it back |
| `Types.PoolKeyInjective` | pkg/allocator/core.go:145-148 | Mutex and cursor keys of different pools differ as long as namespaces hold no slash |
| `PoolStatus.CalculateLBStatus` | internal/controller/apollonetworkpool_controller.go:136-189 | Loops and 32-bit arithmetic give the allocations touching the load balancer in list order, the usage counter, the capacity, the buffer and the available count characterised by `PoolStatus.AvailableAgreesWithTest` |
| `PoolStatus.FilterConcat` | internal/controller/apollonetworkpool_controller.go:145-158 | The listed allocations of a load balancer are filtered in list order, piece by piece |
| `PoolStatus.FilterSingle` | internal/controller/apollonetworkpool_controller.go:145-158 | An allocation is listed under a load balancer if and only if some binding of it is there, whatever its phase |
| `PoolStatus.CollectAllocated` | internal/controller/apollonetworkpool_controller.go:142-158 | The filter keeps exactly the allocations with a binding on the load balancer, and the counter agrees with the allocator's |
| `PoolStatus.AvailableAgreesWithTest` | internal/controller/apollonetworkpool_controller.go:158-177 | The reported available count is never negative; without prewarming it is >= n if and only if the allocator's counting test accepts n, overflow included; with a buffer, counts permitting, if and only if the test accepts n plus the buffer, and it is what the range holds less exclusions, usage and buffer |
| `PoolStatus.ReportIsExact` | internal/controller/apollonetworkpool_controller.go:160-177 | On a tidy ledger the available count is the number of free ports and allocated plus available is the total |
| `PoolStatus.ReportExactEverywhere` | internal/controller/apollonetworkpool_controller.go:136-189 | The same in every reachable state of every interleaving; with one load-balancer ID the conflict detector is silent too |
| `PoolStatus.UpdatePoolStatus` | internal/controller/apollonetworkpool_controller.go:99-113 | Every listed load balancer gets its recomputed entry in all fields; entries of unlisted ones stay as they were |
| `PoolStatus.HasPortConflicts` | api/v1/port_allocation_types.go:349-362 | True if and only if some port number is bound twice, regardless of load balancer |
| `PoolStatus.NoConflictCountsExactly` | api/v1/port_allocation_types.go:349-362 | A clean report makes counter and set view agree on every load balancer |
| `PoolStatus.DetectorOnSoundLedger` | api/v1/port_allocation_types.go:349-362 | On a ledger without double bookings the detector fires if and only if a port number is used on two different load balancers |
| `PoolStatus.DetectorFires` | api/v1/port_allocation_types.go:349-362 | Two single-port requests fill a pool of two load balancers, under every strategy, and the detector fires on the sound ledger they leave |
| `PoolStatus.SingleBalancerNeverConflicts` | api/v1/port_allocation_types.go:349-362 | In a pool using one load-balancer ID no sound ledger makes it fire |
| `PodLifecycle.TrimExactly` | internal/controller/pod_controller.go:141 | The trimmed name is the one stretch of the entry with white space only on both sides of it and none at its own ends |
| `PodLifecycle.SpaceExactly` | internal/controller/pod_controller.go:141 | White space is what Unicode calls so, by code point |
| `PodLifecycle.CleanNamesAre` | internal/controller/pod_controller.go:136-154 | The parsed pool list is exactly the distinct non-empty names left when the entries are stripped of white space, in the order of their first occurrence; it is empty if and only if every entry is blank |
| `PodLifecycle.AllocateAllDelivers` | internal/controller/pod_controller.go:249-280 | Each pool is counted once; some pool succeeds if and only if the pod ends up holding an allocation in one; without failures it holds one in every pool; nothing but this pod's allocations is added |
| `PodLifecycle.AllocateAllIdle` | internal/controller/pod_controller.go:224-247 | Where the pod already holds everything, allocating again changes neither store nor cursors |
| `PodLifecycle.AllocationComplete` | internal/controller/pod_controller.go:205-303 | A reconcile without error has set the finalizer and left the pod an allocation in some annotated pool; without per-pool failure in every one |
| `PodLifecycle.ErrorsExactly` | internal/controller/pod_controller.go:205-303 | What a reconcile of a living pod reports, exactly: unreadable annotations first, with nothing changed; a failure if and only if no annotated pool ends up with an allocation of the pod; otherwise, however many pools failed, the outcome of the finalizer patch |
| `PodLifecycle.AllocationIdle` | internal/controller/pod_controller.go:224-247 | Where the pod holds everything and carries the finalizer, a reconcile changes neither store, cursors nor pods |
| `PodLifecycle.ReconcileTwice` | internal/controller/pod_controller.go:205-303 | After a reconcile of a living pod without error in which no pool failed, reconciling again leaves store, cursors and pods unchanged |
| `PodLifecycle.ActiveExactly` | internal/controller/pod_controller.go:253-279 | After allocating everywhere without failure, the pod holds an active allocation in a named pool if and only if it held no terminating one there before; with failures, if it holds any there and held no terminating one |
| `PodLifecycle.NilReturnServesExactly` | internal/controller/pod_controller.go:205-303 | Told from the cluster before it, a reconcile that returns nil leaves the pod an active allocation in exactly those annotated pools where nothing of it is being deleted and it holds an active one already or an attempt on the store as it was would succeed; pool namespaces hold no slash |
| `PodLifecycle.HoldsByPool` | internal/controller/pod_controller.go:253-279 | After the loop the pod holds an allocation in a pool if and only if it held one before or an attempt there at once would have succeeded: earlier pools of the loop do not matter |
| `PodLifecycle.NilReturnUnserved` | internal/controller/pod_controller.go:239-247 | A pod whose only allocation is being deleted: nil return, finalizer set, nothing active |
| `PodLifecycle.ReleaseAllKeepsOthers` | internal/controller/pod_controller.go:177-190 | Releasing a pod's pools touches no allocation of another pod or pool |
| `PodLifecycle.ReleaseAllClears` | internal/controller/pod_controller.go:177-190 | Afterwards no active allocation of the pod remains in any of them, for cluster-scoped pools |
| `PodLifecycle.LeakExactlyWhenNamespaced` | internal/controller/pod_controller.go:182-183 | The reconciler's empty namespace argument leaves an active allocation in place if and only if its pool object has a namespace |
| `PodLifecycle.NamespacedLeak` | internal/controller/pod_controller.go:182-183 | A namespaced pool in which an allocation is made and, with the same arguments, not found again |
| `PodLifecycle.ReconcileByFields` | internal/controller/pod_controller.go:61-110 | Only a pod whose enable annotation is "true" and that carries the pools annotation is reconciled, by the deletion function if it is being deleted and by the allocation function otherwise; any other or missing pod gives no error and an unchanged world |
| `PodLifecycle.ReconcileByState` | internal/controller/pod_controller.go:61-94 | For an active pod a reconcile only adds active allocations of that pod in its own pools and loses no finalizer; for a deleted managed pod it only removes or marks allocations and leaves it without our finalizer; pods not enabled or not annotated change nothing, other pods are never touched |
| `PodLifecycle.PatchesFromRead` | internal/controller/pod_controller.go:342-372 | A finalizer patch sets the pod's finalizers to those of the pod as read, with ours or without it, so what other controllers set since is lost; when it is refused, exactly; no patch where ours is already set or already gone |
| `PodJobs.Uninterrupted` | internal/controller/pod_controller.go:61-94 | The steps of a reconcile, run with nothing in between and no fault, change the cluster exactly as the reconcile function the class is proved against |
| `PodJobs.LoopTurn` | internal/controller/pod_controller.go:249-280 | Whatever the answer, a step of a loop over the pools stays in its pool without changing the store or goes on to the next; it counts a success only for a pool that now holds an allocation of the pod, and leaves a pool after a conflict only if planning again failed |
| `PodJobs.EndsWhenDone` | internal/controller/pod_controller.go:224-303 | A reconcile ends only in its last patch, after a loop without success, or where its first look at the pools meets a fault; it enters the loop at the first pool, and a faulted step changes nothing |
| `PodJobs.NoPoolSkipped` | internal/controller/pod_controller.go:177-280 | Whatever fails and whatever happens in between, a reconcile that has come past a pool in its loop, or through the loop, has been at that pool |
| `PodHistory.TurnObjects` | internal/controller/pod_controller.go:160-303 | A step of a reconcile creates at most what was planned for its pod in the pool at hand, and takes away or marks at most the object under its pod's derived name there, only when deleting |
| `PodHistory.TurnPods` | internal/controller/pod_controller.go:342-372 | A step patches finalizers of its own pod only; ours appears on living pods only and goes by the dropping patch only |
| `PodHistory.InvPreserved` | internal/controller/pod_controller.go:160-201 | Every event keeps: a pod whose release is under way still is the deleted pod that was read, with our finalizer; nothing of it is active in the pools already passed but where a fault was met; what is about to be deleted by name is its own or belongs to another pool; one job holds a pool's lock |
| `PodHistory.StrandedExactly` | internal/controller/pod_controller.go:163-200 | At every point of every history, with deletions, patches and faults between any two steps, an active allocation is left without a pod that will release it if and only if its pod's deletion was requested while it lacked the finalizer, or its finalizer was dropped by a reconcile whose release met a fault, and no pod of that name naming the pool was created since |
| `PodHistory.FinalizerOutlivesPorts` | internal/controller/pod_controller.go:160-201 | When a pod loses our finalizer, what is active of it in a pool it names has met a fault in the reconcile that drops it, and what is active elsewhere was lost by an earlier pod of that name |
| `PodHistory.StrandedStays` | internal/controller/pod_controller.go:163-167 | Until an adopting pod comes or it is deleted from outside, a stranded allocation remains unattended, and an event leaves it untouched if and only if it is not the pending delete of another pool's release that derives the same name |
| `PodLeaks.LeakReached` | internal/controller/pod_controller.go:249-288 | For every managed pod with readable annotations, constructs the history without fault in which it is deleted after its first allocation and before its finalizer, and its ports stay behind in its first pool |
| `PodLeaks.FaultLeakReached` | internal/controller/pod_controller.go:191-200 | For every such pod, constructs the history in which its releases meet faults, its finalizer is dropped all the same, and its ports stay behind |
| `PodLeaks.StrandedTaken` | pkg/allocator/release.go:54-57 | For any two pods whose first pools differ but give them one derived name, constructs the history that strands an allocation of one and lets the other's pending delete take it away |
| `PodHistory.NoLeakedPorts` | internal/controller/pod_controller.go:160-201 | In histories without a deletion in that window and without a drop after a faulted release, every active allocation has its pod at every point, and a pod that loses the finalizer leaves nothing active |
| `PodController.PodReconciler.ParseNetworkPools` | internal/controller/pod_controller.go:117-156 | The deduplicating loop returns the trimmed, non-empty names in order of first occurrence, or the error if and only if the annotation is missing, undecodable or blank throughout |
| `PodController.PodReconciler.FindExistingAllocation` | internal/controller/pod_controller.go:376-395 | Finds an allocation if and only if the pod holds one in the pool, terminating ones included |
| `PodController.PodReconciler.PatchFinalizers` | internal/controller/pod_controller.go:350-354 | A patch replaces the finalizers of the pod as it is now; it is refused for a pod that is gone, or that is being deleted and would gain a finalizer; a failed patch changes nothing |
| `PodController.PodReconciler.EnsureFinalizer` | internal/controller/pod_controller.go:342-355 | No patch if the pod as read carries the finalizer; otherwise the patch that adds it, with its refusals |
| `PodController.PodReconciler.RemoveFinalizer` | internal/controller/pod_controller.go:358-372 | No patch if the pod as read lacks the finalizer; otherwise the patch that takes it away, with its refusals |
| `PodController.PodReconciler.AllExist` | internal/controller/pod_controller.go:224-237 | True if and only if the pod holds an allocation in every pool |
| `PodController.PodReconciler.AllocateIn` | internal/controller/pod_controller.go:253-279 | One turn of the loop: only this pod's allocation in this pool can appear, and success means it is there |
| `PodController.PodReconciler.AllocateEverywhere` | internal/controller/pod_controller.go:249-280 | Under faults too, counts add up and a success means some pool serves the pod; fault-free, it is the function `PodLifecycle.AllocateAllDelivers` describes |
| `PodController.PodReconciler.AllocateAndGuard` | internal/controller/pod_controller.go:224-303 | A nil return means the finalizer is set and some pool serves the pod, faults or not |
| `PodController.PodReconciler.HandlePodAllocation` | internal/controller/pod_controller.go:205-303 | The same from the annotations on, and nothing but this pod's allocations in its pools appears; fault-free it is the reconcile function of `PodLifecycle.AllocationComplete` |
| `PodController.PodReconciler.ReleaseEverywhere` | internal/controller/pod_controller.go:177-190 | Whatever fails, only this pod's allocations in these pools are touched; in cluster-scoped pools exactly what was active and met a fault is active still; fault-free every pool is released |
| `PodController.PodReconciler.ReleaseIn` | internal/controller/pod_controller.go:183-189 | One release: its effect is that of the release function, or none if a fault stopped it |
| `PodController.PodReconciler.HandlePodDeletion` | internal/controller/pod_controller.go:160-201 | Without our finalizer nothing changes; with it, a nil return has dropped it whether or not releases failed, no other allocation is touched whatever fails, and in cluster-scoped pools exactly what met a fault stays active; fault-free it is the reconcile function |
| `PodController.PodReconciler.ReconcilePod` | internal/controller/pod_controller.go:61-110 | A pod that is missing, not enabled with "true" or not annotated changes nothing; whatever fails, an active pod's reconcile only adds its own allocations and a deleted one's only touches its own, and no other pod changes; a nil return means the finalizer is set and some pool serves the pod, or the finalizer is gone; fault-free, an enabled and annotated pod gets exactly the allocation function or, if deleted, the deletion function |

## Left out

- Allocator.PoolAllocator.FindAvailablePorts: is not called for a range ending at 2^31 - 1 with too few ports free, where the original counter wraps and the loop goes on to negative ports; after an accepted counting test the allocator never does that.
- Allocator.PoolAllocator.AllocatePort: is called only when its pool lock is free and does not model waiting for it; waiting and interleaving are the subject of `Protocol`.
- Allocator.PoolAllocator.ReleasePort: is called only when its pool lock is free, likewise.
- ApiServer.Client.Create: does not tell the refusal of an empty namespace from other faults; a reliable client never refuses one.
- ProtocolAtomicity.CreateIsAtomic: holds without outside actors only; with them a create can follow a pool edit it did not see. The same goes for `ProtocolLinear`, `ProtocolHistories` and `ProtocolBalance`.
- PodHistory.StrandedExactly: takes the reads that lead to one plan as one step, and so the get and the create that follow; a plan made from older reads has the same name, labels and pod, which is all that matters there. A failed existence check ends the job, a failed pool is passed over, as in the source.
- PodJobs.LoopTurn: does not bound the conflicts a create may meet, so its histories include all those with at most five; that bound is `ProtocolRetries.GivesUpExactly`.
- PodHistory.NoLeakedPorts: is about cluster-scoped pools; `PodLifecycle.LeakExactlyWhenNamespaced` shows that is needed.
- Loops of one source function are split over several methods where that keeps proofs small (`CollectBlocked`, `ScanFromCursor`, `CollectBindings`, `CollectAllocated`, `AllocateIn`, `AllExist`, `AllocateEverywhere`, `AllocateAndGuard`, `ReleaseIn`, `ReleaseEverywhere`).
- Error messages and wrapping: the two duplicate errors and the two name-taken errors, which differ only in their text for a terminating object, are one constructor each.
- Decoding of annotations: JSON and comma splitting; the decoded list of names, and the result of parsing container ports, are inputs.
- Kubernetes client, informer cache, watch mapping, rate limiting and backoff delays; a label query is a complete listing of the store.
- Label maps are two strings, annotations of an allocation are not modelled; neither are pod UID, pod IP and binding configuration.
- Allocation phases beyond Pending, timestamps, log lines, status phases and sync flags, and the retry around the pool status update.
- Prewarming beyond subtracting the configured buffer, which is all the code does.
- The weighted strategy as such: it falls through to round-robin, and every statement about strategies covers it that way.
- Counters and phase filters of allocation lists, pod transformation for the cache, deep copies: each is settled by one loop or by copying fields.
- Manager setup, flags, TLS, metrics, health checks, resource definitions, access rules and deployment files.
