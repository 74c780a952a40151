/** One attempt to allocate and one release, as functions of the object store, the pools and the
    round-robin cursors; what each keeps, and what one undoes of the other. */
module Operations {
  import opened Types
  import opened Ledger
  import opened PortSearch
  import RR = RoundRobin
  import LU = LeastUsed

  type Cursors = RR.Cursors

  type Pools = map<string, Pool>

  // ---------- Planning an allocation from a snapshot ----------

  /** Position of the chosen load balancer when the cursor stands at `index`. */
  function Select(strategy: Strategy, index: nat, s: Snapshot, n: int): (r: Result<nat>)
    ensures r.Ok? ==> r.value < |s.pool.loadBalancers|
                      && HasAvailable(s, s.pool.loadBalancers[r.value].id, n)
  {
    if s.pool.loadBalancers == [] then Err(NoLoadBalancers)
    else
      match (if strategy.LeastUsed? then LU.Pick(s, n) else RR.Pick(index, LU.Avail(s, n)))
      case None => Err(NoCapacity)
      case Some(p) => Ok(p)
  }

  function CursorKey(pool: Pool): string { PoolKey(pool.namespace, pool.name) }

  /** The cursor map after a selection; only the round-robin scan moves it. */
  function CursorsAfter(strategy: Strategy, cursors: Cursors, s: Snapshot, n: int): Cursors {
    if strategy.LeastUsed? || s.pool.loadBalancers == [] then cursors
    else RR.Advance(cursors, CursorKey(s.pool), LU.Avail(s, n))
  }

  /** Container port `i` is bound to the `i`-th port found. */
  function Bind(ports: seq<ContainerPort>, lbPorts: seq<int>, lb: LoadBalancerRef): seq<PortBinding>
    requires |ports| <= |lbPorts|
  {
    seq(|ports|, i requires 0 <= i < |ports| =>
      PortBinding(ports[i].podPort, lbPorts[i], ports[i].protocol, ports[i].portName, DEFAULT_BINDING_TYPE, lb))
  }

  function NewAllocation(pool: Pool, podName: string, podNamespace: string, bindings: seq<PortBinding>): Allocation {
    Allocation(pool.namespace, AllocationName(pool.name, podName), pool.name, podName,
               podName, podNamespace, bindings, false, false)
  }

  /** The allocation an attempt would create after reading `s` with the cursor at `index`. */
  function Plan(strategy: Strategy, index: nat, s: Snapshot, req: Request,
                ports: seq<ContainerPort>): Result<Allocation> {
    if ports == [] then Ok(NewAllocation(s.pool, req.podName, req.podNamespace, []))
    else
      match Select(strategy, index, s, |ports|)
      case Err(e) => Err(e)
      case Ok(p) => PlanOn(s, p, req, ports)
  }

  function PlanOn(s: Snapshot, p: nat, req: Request, ports: seq<ContainerPort>): Result<Allocation>
    requires p < |s.pool.loadBalancers|
  {
    var lb := s.pool.loadBalancers[p];
    match FindPorts(s, lb.id, |ports|)
    case Err(e) => Err(e)
    case Ok(found) =>
      if |found| < |ports| then Err(TooFewPorts)
      else Ok(NewAllocation(s.pool, req.podName, req.podNamespace, Bind(ports, found, lb)))
  }

  /** What a planned allocation promises about its bindings: distinct ports, free on the load balancer
      they are bound on, which is one of the pool's. */
  ghost predicate FreshOn(a: Allocation, s: Snapshot) {
    && (forall i :: 0 <= i < |a.bindings| ==> a.bindings[i].lb in s.pool.loadBalancers)
    && (forall i, j :: 0 <= i < j < |a.bindings| ==> !SameSlot(a.bindings[i], a.bindings[j]))
    && (forall i :: 0 <= i < |a.bindings| ==> a.bindings[i].lbPort in FreePorts(s, a.bindings[i].lb.id))
  }

  /** A planned allocation carries the derived name and matching labels, and its ports are free. */
  lemma PlanShape(strategy: Strategy, index: nat, s: Snapshot, req: Request, ports: seq<ContainerPort>)
    requires Plan(strategy, index, s, req, ports).Ok?
    ensures var a := Plan(strategy, index, s, req, ports).value;
            && a == NewAllocation(s.pool, req.podName, req.podNamespace, a.bindings)
            && a.ObjectKey() == Key(s.pool.namespace, s.pool.name + "-" + req.podName)
            && a.poolLabel == s.pool.name && a.podLabel == req.podName && a.ServesPod(req.podName, req.podNamespace)
            && !a.terminating && !a.hasFinalizers
            && FreshOn(a, s)
  {
    if ports != [] {
      var p := Select(strategy, index, s, |ports|).value;
      FindPortsExactly(s, s.pool.loadBalancers[p].id, |ports|);
    }
  }

  /** A plan answers every container port, in order, on the selected load balancer, with the smallest
      ports free there. */
  lemma PlanDelivers(strategy: Strategy, index: nat, s: Snapshot, req: Request, ports: seq<ContainerPort>)
    returns (p: nat, found: seq<int>)
    requires ports != [] && Plan(strategy, index, s, req, ports).Ok?
    ensures Select(strategy, index, s, |ports|) == Ok(p)
    ensures p < |s.pool.loadBalancers| && HasAvailable(s, s.pool.loadBalancers[p].id, |ports|)
    ensures IsSmallest(found, FreePorts(s, s.pool.loadBalancers[p].id), |ports|)
    ensures var bs := Plan(strategy, index, s, req, ports).value.bindings;
            |bs| == |ports| && forall i :: 0 <= i < |ports| ==>
              bs[i] == PortBinding(ports[i].podPort, found[i], ports[i].protocol, ports[i].portName,
                                   "volcengine-clb", s.pool.loadBalancers[p])
  {
    p := Select(strategy, index, s, |ports|).value;
    var lb := s.pool.loadBalancers[p];
    FindPortsExactly(s, lb.id, |ports|);
    found := FindPorts(s, lb.id, |ports|).value;
  }

  /** With sane counts a selection is never followed by a failed search: planning fails only when
      no load balancer passes the test. */
  lemma SelectionNeverWasted(strategy: Strategy, index: nat, s: Snapshot, req: Request, ports: seq<ContainerPort>)
    requires |ports| <= MAX_INT32
    requires forall i :: 0 <= i < |s.pool.loadBalancers| ==>
               Capacity(s.pool.portRange) - Usage(s.items, s.pool.loadBalancers[i].id) >= -MAX_INT32 - 1
    ensures ports != [] ==>
              (Plan(strategy, index, s, req, ports).Ok? <==> Select(strategy, index, s, |ports|).Ok?)
    ensures Plan(strategy, index, s, req, ports).Err? ==>
              Plan(strategy, index, s, req, ports).error in {NoLoadBalancers, NoCapacity}
  {
    if ports != [] && Select(strategy, index, s, |ports|).Ok? {
      var p := Select(strategy, index, s, |ports|).value;
      CountingTestSound(s, s.pool.loadBalancers[p].id, |ports|);
    }
  }

  /** A plan and its cursor movement do not depend on the order of the listing. */
  lemma PlanOrderIrrelevant(strategy: Strategy, index: nat, s: Snapshot, s': Snapshot, req: Request,
                            ports: seq<ContainerPort>, cursors: Cursors)
    requires s'.pool == s.pool && multiset(s'.items) == multiset(s.items)
    ensures Plan(strategy, index, s, req, ports) == Plan(strategy, index, s', req, ports)
    ensures CursorsAfter(strategy, cursors, s, |ports|) == CursorsAfter(strategy, cursors, s', |ports|)
  {
    AvailOrderIrrelevant(s, s', |ports|);
    if ports != [] && Select(strategy, index, s, |ports|).Ok? {
      var p := Select(strategy, index, s, |ports|).value;
      ListOrderIrrelevant(s.items, s'.items, s.pool.loadBalancers[p].id);
      assert Blocked(s, s.pool.loadBalancers[p].id) == Blocked(s', s.pool.loadBalancers[p].id);
    }
  }

  lemma AvailOrderIrrelevant(s: Snapshot, s': Snapshot, n: int)
    requires s'.pool == s.pool && multiset(s'.items) == multiset(s.items)
    ensures LU.Avail(s, n) == LU.Avail(s', n) && LU.Usages(s) == LU.Usages(s')
  {
    forall i | 0 <= i < |s.pool.loadBalancers|
      ensures LU.Avail(s, n)[i] == LU.Avail(s', n)[i] && LU.Usages(s)[i] == LU.Usages(s')[i]
    {
      ListOrderIrrelevant(s.items, s'.items, s.pool.loadBalancers[i].id);
    }
  }

  // ---------- A pool with just enough room ----------

  function RoomyPool(name: string, namespace: string, n: nat): Pool {
    Pool(name, namespace, [LoadBalancerRef("", "", "", "")], PortRange(1, n, []), false, 0)
  }

  /** In an empty pool with exactly the ports asked for, planning succeeds under every strategy, and binds
      port 1. */
  lemma PlanInRoom(strategy: Strategy, index: nat, namespace: string, req: Request, ports: seq<ContainerPort>)
    ensures var s := Snapshot(RoomyPool(req.pool, namespace, |ports|), []);
            var plan := Plan(strategy, index, s, req, ports);
            && (ports != [] ==> Select(strategy, index, s, |ports|) == Ok(0))
            && plan.Ok?
            && (ports != [] ==> |plan.value.bindings| > 0 && plan.value.bindings[0].lb.id == ""
                                && plan.value.bindings[0].lbPort == 1)
  {
    var s := Snapshot(RoomyPool(req.pool, namespace, |ports|), []);
    if ports != [] {
      SelectInRoom(strategy, index, s, |ports|);
      var id := s.pool.loadBalancers[0].id;
      assert Blocked(s, id) == {};
      SpanSize(1, |ports|);
      assert FreePorts(s, id) == Span(1, |ports|);
      FindPortsExactly(s, id, |ports|);
    }
  }

  lemma SelectInRoom(strategy: Strategy, index: nat, s: Snapshot, n: nat)
    requires n > 0 && s == Snapshot(RoomyPool(s.pool.name, s.pool.namespace, n), [])
    ensures Select(strategy, index, s, n) == Ok(0)
  {
    var avail := LU.Avail(s, n);
    assert HasAvailable(s, s.pool.loadBalancers[0].id, n) && avail == [true];
    if strategy.LeastUsed? {
      LU.ScanMinimum(LU.Usages(s), avail, 1);
    } else {
      RR.PickNearest(index, avail);
    }
  }

  lemma PlanCounts(strategy: Strategy, index: nat, s: Snapshot, req: Request, ports: seq<ContainerPort>)
    requires Plan(strategy, index, s, req, ports).Ok?
    ensures |Plan(strategy, index, s, req, ports).value.bindings| == |ports|
  {
    if ports != [] { var p, found := PlanDelivers(strategy, index, s, req, ports); }
  }

  // ---------- One attempt, one release ----------

  /** The duplicate check: does some allocation labelled with the pool serve this pod? */
  ghost predicate Holds(objects: Objects, pool: string, podName: string, podNamespace: string) {
    exists k :: k in objects && objects[k].poolLabel == pool && objects[k].ServesPod(podName, podNamespace)
  }

  datatype Planned = Planned(result: Result<Allocation>, cursors: Cursors)

  /** The reads and choices of one attempt, up to the allocation it would create. */
  ghost function Prepare(strategy: Strategy, objects: Objects, pools: Pools, cursors: Cursors,
                         req: Request, ports: seq<ContainerPort>): Planned
  {
    if Holds(objects, req.pool, req.podName, req.podNamespace) then Planned(Err(Duplicate), cursors)
    else if req.pool !in pools then Planned(Err(PoolNotFound), cursors)
    else
      var s := Snapshot(pools[req.pool], Listing(objects, pools[req.pool].name));
      Planned(Plan(strategy, RR.CursorOf(cursors, CursorKey(s.pool)), s, req, ports),
              if ports == [] then cursors else CursorsAfter(strategy, cursors, s, |ports|))
  }

  datatype Outcome = Outcome(result: Result<Allocation>, objects: Objects, cursors: Cursors)

  /** One fault-free pass of the retry loop of `AllocatePort`. */
  ghost function Attempt(strategy: Strategy, objects: Objects, pools: Pools, cursors: Cursors,
                         req: Request, ports: seq<ContainerPort>): Outcome
  {
    var planned := Prepare(strategy, objects, pools, cursors, req, ports);
    match planned.result
    case Err(e) => Outcome(Err(e), objects, planned.cursors)
    case Ok(a) =>
      if a.ObjectKey() in objects then Outcome(Err(NameTaken), objects, planned.cursors)
      else Outcome(Ok(a), objects[a.ObjectKey() := a], planned.cursors)
  }

  /** Number of times the retry wrapper runs its closure at most. */
  const MAX_ATTEMPTS := 5

  /** The cursors after `k` passes that ended in a conflict; each has moved the cursor. */
  ghost function Retried(strategy: Strategy, objects: Objects, pools: Pools, cursors: Cursors,
                         req: Request, ports: seq<ContainerPort>, k: nat): Cursors
  {
    if k == 0 then cursors
    else
      var before := Retried(strategy, objects, pools, cursors, req, ports, k - 1);
      Prepare(strategy, objects, pools, before, req, ports).cursors
  }

  /** Any listing of the pool leads to the same preparation. */
  lemma PrepareFrom(strategy: Strategy, objects: Objects, pools: Pools, cursors: Cursors,
                    req: Request, ports: seq<ContainerPort>, items: seq<Allocation>)
    requires !Holds(objects, req.pool, req.podName, req.podNamespace) && req.pool in pools
    requires IsListing(items, objects, pools[req.pool].name)
    ensures var s := Snapshot(pools[req.pool], items);
            Prepare(strategy, objects, pools, cursors, req, ports) ==
            Planned(Plan(strategy, RR.CursorOf(cursors, CursorKey(s.pool)), s, req, ports),
                    if ports == [] then cursors else CursorsAfter(strategy, cursors, s, |ports|))
  {
    var pool := pools[req.pool];
    PlanOrderIrrelevant(strategy, RR.CursorOf(cursors, CursorKey(pool)), Snapshot(pool, items),
                        Snapshot(pool, Listing(objects, pool.name)), req, ports, cursors);
  }

  /** An attempt that can plan, under a name not taken, creates its plan. */
  lemma AttemptFrom(strategy: Strategy, objects: Objects, pools: Pools, cursors: Cursors,
                    req: Request, ports: seq<ContainerPort>, items: seq<Allocation>, a: Allocation)
    requires !Holds(objects, req.pool, req.podName, req.podNamespace) && req.pool in pools
    requires IsListing(items, objects, pools[req.pool].name)
    requires var s := Snapshot(pools[req.pool], items);
             Plan(strategy, RR.CursorOf(cursors, CursorKey(s.pool)), s, req, ports) == Ok(a)
    requires a.ObjectKey() !in objects
    ensures Attempt(strategy, objects, pools, cursors, req, ports).result == Ok(a)
    ensures Attempt(strategy, objects, pools, cursors, req, ports).objects == objects[a.ObjectKey() := a]
  {
    PrepareFrom(strategy, objects, pools, cursors, req, ports, items);
  }

  /** Why an attempt fails, cause by cause: an allocation of the pod comes before a missing pool, which comes
      before a pool without load balancers; a name is only found taken by what would have been created. */
  lemma RefusalsExactly(strategy: Strategy, objects: Objects, pools: Pools, cursors: Cursors,
                        req: Request, ports: seq<ContainerPort>)
    ensures var r := Attempt(strategy, objects, pools, cursors, req, ports).result;
            var held := Holds(objects, req.pool, req.podName, req.podNamespace);
            && (r == Err(Duplicate) <==> held)
            && (r == Err(PoolNotFound) <==> !held && req.pool !in pools)
            && (r == Err(NoLoadBalancers) <==>
                  !held && req.pool in pools && ports != [] && pools[req.pool].loadBalancers == [])
            && (r == Err(NameTaken) ==>
                  && !held && req.pool in pools
                  && Key(pools[req.pool].namespace, pools[req.pool].name + "-" + req.podName) in objects)
            && (r.Err? ==> r.error !in {InvalidAnnotation, AllFailed, Conflict, Refused, ApiFault})
  {
    hide Holds, Plan, NewAllocation, CursorsAfter;
    if req.pool in pools {
      var s := Snapshot(pools[req.pool], Listing(objects, pools[req.pool].name));
      var index := RR.CursorOf(cursors, CursorKey(s.pool));
      PlanRefusals(strategy, index, s, req, ports);
      if Plan(strategy, index, s, req, ports).Ok? { PlanShape(strategy, index, s, req, ports); }
    }
  }

  lemma PlanRefusals(strategy: Strategy, index: nat, s: Snapshot, req: Request, ports: seq<ContainerPort>)
    ensures var plan := Plan(strategy, index, s, req, ports);
            && (plan == Err(NoLoadBalancers) <==> ports != [] && s.pool.loadBalancers == [])
            && (plan == Err(NoCapacity) ==> ports != [] && Select(strategy, index, s, |ports|) == Err(NoCapacity))
            && (plan.Err? ==> plan.error in {NoLoadBalancers, NoCapacity, InvalidCount, TooFewPorts})
  {
    hide LU.Avail, LU.Pick, RR.Pick, Blocked, FirstFit;
  }

  function ReleaseKey(req: Request): Key { Key(req.namespace, AllocationName(req.pool, req.podName)) }

  /** A delete call removes an object, or only marks it when finalizers hold it back. */
  function Deleted(objects: Objects, k: Key): Objects
    requires k in objects
  {
    if objects[k].hasFinalizers then objects[k := objects[k].(terminating := true)] else objects - {k}
  }

  /** The checks `ReleasePort` makes on the object it fetched. */
  function ReleaseCheck(a: Allocation, req: Request): Option<Error> {
    if !a.ServesPod(req.podName, req.podNamespace) then Some(WrongPod)
    else if a.poolLabel != req.pool then Some(WrongPool)
    else if a.terminating then Some(AlreadyDeleting)
    else None
  }

  datatype Released = Released(result: Result<()>, objects: Objects)

  function Release(objects: Objects, req: Request): Released {
    var k := ReleaseKey(req);
    if k !in objects then Released(Err(NotFound), objects)
    else
      match ReleaseCheck(objects[k], req)
      case Some(e) => Released(Err(e), objects)
      case None => Released(Ok(()), Deleted(objects, k))
  }

  // ---------- Naming ----------

  /** The pool object's namespace, by pool name; pools are looked up by name. */
  type Namespaces = string -> string

  ghost predicate PoolsAgree(pools: Pools, ns: Namespaces) {
    forall p :: p in pools ==> pools[p].name == p && pools[p].namespace == ns(p)
  }

  /** Every allocation is stored under (namespace of its pool, pool "-" pod name), and its pod label
      repeats the pod it serves. */
  ghost predicate WellNamed(objects: Objects, ns: Namespaces) {
    forall k :: k in objects ==>
      && objects[k].ObjectKey() == k
      && k == Key(ns(objects[k].poolLabel), AllocationName(objects[k].poolLabel, objects[k].podName))
      && objects[k].podLabel == objects[k].podName
  }

  /** Names are not injective, yet there is at most one allocation per pool and pod name, even
      across pod namespaces. */
  lemma OnePerPodName(objects: Objects, ns: Namespaces, k1: Key, k2: Key)
    requires WellNamed(objects, ns) && k1 in objects && k2 in objects
    requires objects[k1].poolLabel == objects[k2].poolLabel && objects[k1].podName == objects[k2].podName
    ensures k1 == k2
  {
  }

  /** The objects the reconciler's two-label query can return. */
  ghost function LabelMatches(objects: Objects, pool: string, pod: string): set<Key> {
    set k | k in objects && objects[k].poolLabel == pool && objects[k].podLabel == pod
  }

  /** The reconciler's two-label query returns at most one object, so a page of 100 loses nothing, and
      it finds an allocation of the pod exactly when the allocator's duplicate check does. */
  lemma LabelQueryAgrees(objects: Objects, ns: Namespaces, pool: string, podName: string, podNamespace: string)
    requires WellNamed(objects, ns)
    ensures |LabelMatches(objects, pool, podName)| <= 1
    ensures (exists k :: k in LabelMatches(objects, pool, podName) && objects[k].ServesPod(podName, podNamespace))
            <==> Holds(objects, pool, podName, podNamespace)
  {
    var matches := LabelMatches(objects, pool, podName);
    if matches != {} {
      var k :| k in matches;
      forall k' | k' in matches ensures k' == k {
        OnePerPodName(objects, ns, k, k');
      }
      assert matches == {k};
    }
    if Holds(objects, pool, podName, podNamespace) {
      var k :| k in objects && objects[k].poolLabel == pool && objects[k].ServesPod(podName, podNamespace);
      assert k in matches;
    }
  }

  // ---------- What the operations keep ----------

  /** All bindings recorded for the pool are on its load balancers, in its range and not excluded. */
  ghost predicate InRange(objects: Objects, pool: Pool) {
    forall k, i :: k in objects && objects[k].poolLabel == pool.name && 0 <= i < |objects[k].bindings| ==>
      objects[k].bindings[i].lb in pool.loadBalancers && PortAllowed(pool, objects[k].bindings[i].lbPort)
  }

  predicate PortAllowed(pool: Pool, port: int) {
    pool.portRange.min <= port <= pool.portRange.max && port !in Excluded(pool.portRange)
  }

  /** Every binding stored under the pool's label appears in the list of used ports. */
  ghost predicate Covers(items: seq<Allocation>, objects: Objects, pool: string) {
    forall k, i :: k in objects && objects[k].poolLabel == pool && 0 <= i < |objects[k].bindings| ==>
      objects[k].bindings[i].lbPort in UsedPorts(items, objects[k].bindings[i].lb.id)
  }

  lemma ListingCovers(items: seq<Allocation>, objects: Objects, pool: string)
    requires IsListing(items, objects, pool)
    ensures Covers(items, objects, pool)
  {
    forall k, i | k in objects && objects[k].poolLabel == pool && 0 <= i < |objects[k].bindings|
      ensures objects[k].bindings[i].lbPort in UsedPorts(items, objects[k].bindings[i].lb.id)
    {
      var b := objects[k].bindings[i];
      ListingMember(items, objects, pool, objects[k]);
      BindingsMember(items, b);
      var j :| 0 <= j < |Bindings(items)| && Bindings(items)[j] == b;
    }
  }

  /** Creating an allocation planned from a covering snapshot, or one without bindings, cannot bind a port
      twice. */
  lemma CreateKeepsUnique(objects: Objects, a: Allocation, s: Snapshot)
    requires UniquePorts(objects) && FreshOn(a, s) && (a.bindings == [] || Covers(s.items, objects, a.poolLabel))
    requires a.ObjectKey() !in objects
    ensures UniquePorts(objects[a.ObjectKey() := a])
  {
    var key := a.ObjectKey();
    var objects' := objects[key := a];
    forall k1, k2, i, j |
      k1 in objects' && k2 in objects' && objects'[k1].poolLabel == objects'[k2].poolLabel
      && 0 <= i < |objects'[k1].bindings| && 0 <= j < |objects'[k2].bindings| && (k1 != k2 || i != j)
      ensures !SameSlot(objects'[k1].bindings[i], objects'[k2].bindings[j])
    {
      var b1, b2 := objects'[k1].bindings[i], objects'[k2].bindings[j];
      if k1 == key && k2 == key {
        assert !SameSlot(a.bindings[if i < j then i else j], a.bindings[if i < j then j else i]);
      } else if k1 == key {
        assert b2.lbPort in UsedPorts(s.items, b2.lb.id) && b1.lbPort in FreePorts(s, b1.lb.id);
      } else if k2 == key {
        assert b1.lbPort in UsedPorts(s.items, b1.lb.id) && b2.lbPort in FreePorts(s, b2.lb.id);
      }
    }
  }

  /** `objects'` holds no allocation that `objects` does not hold, up to deletion marks and finalizers; a
      deletion mark is never taken back. */
  ghost predicate Shrinks(objects: Objects, objects': Objects) {
    forall k :: k in objects' ==> k in objects && SameRecord(objects[k], objects'[k])
  }

  predicate SameRecord(a: Allocation, b: Allocation) {
    b == a.(terminating := b.terminating, hasFinalizers := b.hasFinalizers) && (a.terminating ==> b.terminating)
  }

  lemma ShrinkKeeps(objects: Objects, objects': Objects, ns: Namespaces)
    requires Shrinks(objects, objects')
    ensures KeysAgree(objects) ==> KeysAgree(objects')
    ensures WellNamed(objects, ns) ==> WellNamed(objects', ns)
    ensures UniquePorts(objects) ==> UniquePorts(objects')
    ensures forall pool :: InRange(objects, pool) ==> InRange(objects', pool)
    ensures forall items, pool :: Covers(items, objects, pool) ==> Covers(items, objects', pool)
  {
  }

  lemma ReleaseShrinks(objects: Objects, req: Request)
    ensures Shrinks(objects, Release(objects, req).objects)
  {
  }

  lemma CreateKeeps(objects: Objects, a: Allocation, s: Snapshot, ns: Namespaces)
    requires WellNamed(objects, ns) && a.ObjectKey() !in objects
    requires a == NewAllocation(s.pool, a.podName, a.podNamespace, a.bindings) && s.pool.namespace == ns(s.pool.name)
    ensures WellNamed(objects[a.ObjectKey() := a], ns)
  {
  }

  lemma CreateInRange(objects: Objects, a: Allocation, s: Snapshot, pool: Pool)
    requires InRange(objects, pool) && FreshOn(a, s) && (a.poolLabel == pool.name ==> s.pool == pool)
    ensures InRange(objects[a.ObjectKey() := a], pool)
  {
  }

  /** What a successful attempt planned, and from which snapshot. */
  lemma AttemptCreates(strategy: Strategy, objects: Objects, pools: Pools, cursors: Cursors,
                       req: Request, ports: seq<ContainerPort>, ns: Namespaces) returns (a: Allocation, s: Snapshot)
    requires PoolsAgree(pools, ns)
    requires Attempt(strategy, objects, pools, cursors, req, ports).result.Ok?
    ensures req.pool in pools && s == Snapshot(pools[req.pool], Listing(objects, req.pool))
    ensures a == NewAllocation(s.pool, req.podName, req.podNamespace, a.bindings) && FreshOn(a, s)
    ensures a.ObjectKey() !in objects
    ensures Plan(strategy, RR.CursorOf(cursors, CursorKey(s.pool)), s, req, ports) == Ok(a)
    ensures !Holds(objects, req.pool, req.podName, req.podNamespace)
    ensures Attempt(strategy, objects, pools, cursors, req, ports)
            == Outcome(Ok(a), objects[a.ObjectKey() := a],
                       if ports == [] then cursors else CursorsAfter(strategy, cursors, s, |ports|))
  {
    s := Snapshot(pools[req.pool], Listing(objects, req.pool));
    a := Attempt(strategy, objects, pools, cursors, req, ports).result.value;
    PlanShape(strategy, RR.CursorOf(cursors, CursorKey(s.pool)), s, req, ports);
  }

  /** An attempt keeps names derived, ports unique and ports allowed. */
  lemma AttemptKeeps(strategy: Strategy, objects: Objects, pools: Pools, cursors: Cursors,
                     req: Request, ports: seq<ContainerPort>, ns: Namespaces)
    requires PoolsAgree(pools, ns) && WellNamed(objects, ns) && UniquePorts(objects)
    ensures var objects' := Attempt(strategy, objects, pools, cursors, req, ports).objects;
            && WellNamed(objects', ns) && UniquePorts(objects')
            && (forall p :: p in pools && InRange(objects, pools[p]) ==> InRange(objects', pools[p]))
  {
    if Attempt(strategy, objects, pools, cursors, req, ports).result.Ok? {
      var a, s := AttemptCreates(strategy, objects, pools, cursors, req, ports, ns);
      ListingCovers(s.items, objects, req.pool);
      CreateKeepsUnique(objects, a, s);
      CreateKeeps(objects, a, s, ns);
      forall p | p in pools && InRange(objects, pools[p]) ensures InRange(objects[a.ObjectKey() := a], pools[p]) {
        CreateInRange(objects, a, s, pools[p]);
      }
    }
  }

  /** A successful attempt adds one new object and leaves the pod holding an allocation in the pool;
      a failed one changes no object. */
  lemma AttemptEffect(strategy: Strategy, objects: Objects, pools: Pools, cursors: Cursors,
                      req: Request, ports: seq<ContainerPort>, ns: Namespaces)
    requires PoolsAgree(pools, ns)
    ensures var o := Attempt(strategy, objects, pools, cursors, req, ports);
            && (o.result.Ok? ==>
                  && o.result.value.ObjectKey() !in objects
                  && o.result.value.ObjectKey() == Key(ns(req.pool), AllocationName(req.pool, req.podName))
                  && o.objects == objects[o.result.value.ObjectKey() := o.result.value]
                  && !o.result.value.terminating && !o.result.value.hasFinalizers
                  && o.result.value.poolLabel == req.pool
                  && o.result.value.ServesPod(req.podName, req.podNamespace)
                  && Holds(o.objects, req.pool, req.podName, req.podNamespace))
            && (o.result.Err? ==> o.objects == objects)
  {
    var o := Attempt(strategy, objects, pools, cursors, req, ports);
    if o.result.Ok? {
      var a, s := AttemptCreates(strategy, objects, pools, cursors, req, ports, ns);
      assert o.objects[a.ObjectKey()] == a;
    }
  }

  /** An attempt moves no other pool's cursor. */
  lemma AttemptMovesOwnCursor(strategy: Strategy, objects: Objects, pools: Pools, cursors: Cursors,
                              req: Request, ports: seq<ContainerPort>, ns: Namespaces, key: string)
    requires PoolsAgree(pools, ns) && key != PoolKey(ns(req.pool), req.pool)
    ensures RR.CursorOf(Attempt(strategy, objects, pools, cursors, req, ports).cursors, key) ==
              RR.CursorOf(cursors, key)
  {
  }

  /** Where a round-robin request goes, told from the cursor map: to the first load balancer with room from the
      cursor on, from the first one in a pool not selected from before; the cursor is left just past it. */
  lemma AttemptSelects(strategy: Strategy, objects: Objects, pools: Pools, cursors: Cursors,
                       req: Request, ports: seq<ContainerPort>, ns: Namespaces) returns (p: nat)
    requires PoolsAgree(pools, ns) && !strategy.LeastUsed? && ports != []
    requires Attempt(strategy, objects, pools, cursors, req, ports).result.Ok?
    ensures req.pool in pools
    ensures var s, key := Snapshot(pools[req.pool], Listing(objects, req.pool)), PoolKey(ns(req.pool), req.pool);
            var lbs, o := s.pool.loadBalancers, Attempt(strategy, objects, pools, cursors, req, ports);
            && p < |lbs| && HasAvailable(s, lbs[p].id, |ports|)
            && (forall i :: 0 <= i < |o.result.value.bindings| ==> o.result.value.bindings[i].lb == lbs[p])
            && RR.FirstAround(if key in cursors then cursors[key] else 0, LU.Avail(s, |ports|), p)
            && (key !in cursors ==> forall q :: 0 <= q < p ==> !HasAvailable(s, lbs[q].id, |ports|))
            && o.cursors == cursors[key := if p + 1 == |lbs| then 0 else p + 1]
  {
    hide RR.Pick, RR.FirstAround, HasAvailable;
    var a, s := AttemptCreates(strategy, objects, pools, cursors, req, ports, ns);
    assert forall q :: 0 <= q < |s.pool.loadBalancers| ==>
      LU.Avail(s, |ports|)[q] == HasAvailable(s, s.pool.loadBalancers[q].id, |ports|);
    var index := RR.CursorOf(cursors, CursorKey(s.pool));
    var found;
    p, found := PlanDelivers(strategy, index, s, req, ports);
    RR.AdvanceExactly(cursors, CursorKey(s.pool), LU.Avail(s, |ports|));
  }

  /** An attempt refused before it has selected a load balancer leaves every cursor where it was; so does a
      selection that finds no room. */
  lemma RefusedKeepsCursors(strategy: Strategy, objects: Objects, pools: Pools, cursors: Cursors,
                            req: Request, ports: seq<ContainerPort>)
    requires Attempt(strategy, objects, pools, cursors, req, ports).result.Err?
    requires Attempt(strategy, objects, pools, cursors, req, ports).result.error
             in {Duplicate, PoolNotFound, NoLoadBalancers, NoCapacity}
    ensures Attempt(strategy, objects, pools, cursors, req, ports).cursors == cursors
  {
    hide Holds, Plan, Select, CursorsAfter;
    if req.pool in pools {
      var s := Snapshot(pools[req.pool], Listing(objects, pools[req.pool].name));
      var index := RR.CursorOf(cursors, CursorKey(s.pool));
      PlanRefusals(strategy, index, s, req, ports);
      if Select(strategy, index, s, |ports|).Err? || s.pool.loadBalancers == [] {
        NoChoiceNoMove(strategy, cursors, s, |ports|);
      }
    }
  }

  lemma NoChoiceNoMove(strategy: Strategy, cursors: Cursors, s: Snapshot, n: int)
    requires Select(strategy, RR.CursorOf(cursors, CursorKey(s.pool)), s, n).Err? || s.pool.loadBalancers == []
    ensures CursorsAfter(strategy, cursors, s, n) == cursors
  {
    hide LU.Avail, LU.Pick, RR.Pick;
    RR.AdvanceExactly(cursors, CursorKey(s.pool), LU.Avail(s, n));
  }

  /** Every load balancer of the pool has room for the request, and nothing of the pod is there yet. */
  ghost predicate RoomEverywhere(objects: Objects, pools: Pools, req: Request, n: nat) {
    && !Holds(objects, req.pool, req.podName, req.podNamespace) && req.pool in pools
    && var s := Snapshot(pools[req.pool], Listing(objects, pools[req.pool].name));
       s.pool.loadBalancers != [] && forall lb :: lb in s.pool.loadBalancers ==> HasAvailable(s, lb.id, n)
  }

  /** With room everywhere each conflicted pass moves the cursor one load balancer on, so a call that succeeds
      after `k` conflicts is served `k` places past where it would have been served at once. */
  lemma RetriesRotate(strategy: Strategy, objects: Objects, pools: Pools, cursors: Cursors,
                      req: Request, ports: seq<ContainerPort>, k: nat)
    requires !strategy.LeastUsed? && ports != [] && RoomEverywhere(objects, pools, req, |ports|)
    ensures var s := Snapshot(pools[req.pool], Listing(objects, pools[req.pool].name));
            var key, n := CursorKey(s.pool), |s.pool.loadBalancers|;
            var start := if key in cursors then cursors[key] else 0;
            var before := Retried(strategy, objects, pools, cursors, req, ports, k);
            && (k > 0 ==> before == cursors[key := RR.Position(start, k, n)])
            && Select(strategy, if key in before then before[key] else 0, s, |ports|) == Ok(RR.Position(start, k, n))
  {
    PassMoves(strategy, objects, pools, Retried(strategy, objects, pools, cursors, req, ports, k), req, ports);
    var pool := pools[req.pool];
    var start := if CursorKey(pool) in cursors then cursors[CursorKey(pool)] else 0;
    if k > 0 {
      RetriesFrom(strategy, objects, pools, cursors, req, ports, k);
      StepOn(start, k, |pool.loadBalancers|);
    }
  }

  lemma {:induction false} RetriesFrom(strategy: Strategy, objects: Objects, pools: Pools, cursors: Cursors,
                                       req: Request, ports: seq<ContainerPort>, k: nat)
    requires !strategy.LeastUsed? && ports != [] && RoomEverywhere(objects, pools, req, |ports|) && k > 0
    ensures var key, n := CursorKey(pools[req.pool]), |pools[req.pool].loadBalancers|;
            var start := if key in cursors then cursors[key] else 0;
            n > 0
            && Retried(strategy, objects, pools, cursors, req, ports, k) == cursors[key := RR.Position(start, k, n)]
    decreases k
  {
    var key, n := CursorKey(pools[req.pool]), |pools[req.pool].loadBalancers|;
    var start := if key in cursors then cursors[key] else 0;
    var before := Retried(strategy, objects, pools, cursors, req, ports, k - 1);
    PassMoves(strategy, objects, pools, before, req, ports);
    hide Prepare, RR.Position;
    if k > 1 {
      RetriesFrom(strategy, objects, pools, cursors, req, ports, k - 1);
      StepOn(start, k - 1, n);
      SetTwice(cursors, key, RR.Position(start, k - 1, n), RR.Position(start, k, n));
    }
  }

  lemma SetTwice(cursors: Cursors, key: string, x: nat, y: nat)
    ensures cursors[key := x][key := y] == cursors[key := y]
  {
  }

  lemma PassMoves(strategy: Strategy, objects: Objects, pools: Pools, before: Cursors,
                  req: Request, ports: seq<ContainerPort>)
    requires !strategy.LeastUsed? && ports != [] && RoomEverywhere(objects, pools, req, |ports|)
    ensures var s := Snapshot(pools[req.pool], Listing(objects, pools[req.pool].name));
            var key, n := CursorKey(s.pool), |s.pool.loadBalancers|;
            var index := if key in before then before[key] else 0;
            && n > 0 && Select(strategy, index, s, |ports|) == Ok(RR.Position(index, 0, n))
            && Prepare(strategy, objects, pools, before, req, ports).cursors == before[key := RR.Position(index, 1, n)]
  {
    var s := Snapshot(pools[req.pool], Listing(objects, pools[req.pool].name));
    SelectInTurn(strategy, before, s, |ports|);
    hide CursorsAfter, Select, Holds, HasAvailable, Plan, RR.Position;
  }

  /** With room everywhere, the selection falls on the cursor and moves it one load balancer on. */
  lemma SelectInTurn(strategy: Strategy, cursors: Cursors, s: Snapshot, n: int)
    requires !strategy.LeastUsed? && s.pool.loadBalancers != []
    requires forall lb :: lb in s.pool.loadBalancers ==> HasAvailable(s, lb.id, n)
    ensures var key, m := CursorKey(s.pool), |s.pool.loadBalancers|;
            var index := if key in cursors then cursors[key] else 0;
            && Select(strategy, index, s, n) == Ok(RR.Position(index, 0, m))
            && CursorsAfter(strategy, cursors, s, n) == cursors[key := RR.Position(index, 1, m)]
  {
    hide HasAvailable, RR.Pick, RR.Position;
    var avail, m := LU.Avail(s, n), |s.pool.loadBalancers|;
    assert forall i :: 0 <= i < m ==> s.pool.loadBalancers[i] in s.pool.loadBalancers && avail[i];
    var index := RR.CursorOf(cursors, CursorKey(s.pool));
    RR.FirstPick(index, avail, m);
    PositionsFrom(index, m);
  }

  lemma PositionsFrom(index: nat, n: nat)
    requires n > 0
    ensures RR.Position(index, 0, n) == index % n && RR.Position(index, 1, n) == (index % n + 1) % n
  {
    RR.PastChoice(index % n, n);
    RR.ModUnique(index + 1, if index % n + 1 == n then index / n + 1 else index / n,
                 if index % n + 1 == n then 0 else index % n + 1, n);
  }

  lemma StepOn(index: nat, k: nat, n: nat)
    requires n > 0
    ensures RR.Position(RR.Position(index, k, n), 0, n) == RR.Position(index, k, n)
    ensures RR.Position(RR.Position(index, k, n), 1, n) == RR.Position(index, k + 1, n)
  {
    PositionsFrom(index + k, n);
    RR.SmallMod((index + k) % n, n);
  }

  // ---------- Release: isolation and round trip ----------

  /** Release succeeds exactly for an active allocation of this very pod in this very pool. That one object is
      then gone, or marked if finalizers hold it; refused, a release changes nothing. */
  lemma ReleaseIsolated(objects: Objects, req: Request)
    ensures var k, r := ReleaseKey(req), Release(objects, req);
            && (r.result.Ok? <==> k in objects && objects[k].ServesPod(req.podName, req.podNamespace)
                                  && objects[k].poolLabel == req.pool && !objects[k].terminating)
            && (r.result == Err(NotFound) <==> k !in objects)
            && (r.result == Err(WrongPod) <==> k in objects && !objects[k].ServesPod(req.podName, req.podNamespace))
            && (r.result == Err(WrongPool) <==>
                  k in objects && objects[k].ServesPod(req.podName, req.podNamespace)
                  && objects[k].poolLabel != req.pool)
            && (r.result.Err? ==>
                  r.objects == objects && r.result.error in {NotFound, WrongPod, WrongPool, AlreadyDeleting})
            && (forall k' :: k' != k ==> (k' in r.objects <==> k' in objects)
                                         && (k' in objects ==> r.objects[k'] == objects[k']))
            && (r.result.Ok? && objects[k].hasFinalizers ==>
                  k in r.objects && r.objects[k] == objects[k].(terminating := true))
            && (r.result.Ok? && !objects[k].hasFinalizers ==> k !in r.objects)
  {
  }

  /** A second release of the same allocation always fails. */
  lemma ReleaseOnce(objects: Objects, req: Request)
    requires Release(objects, req).result.Ok?
    ensures Release(Release(objects, req).objects, req).result.Err?
  {
  }

  /** Given derived names, releasing finds whatever active allocation the pod has in the pool,
      provided the caller passes the pool's namespace. */
  lemma ReleaseFinds(objects: Objects, req: Request, ns: Namespaces)
    requires WellNamed(objects, ns) && req.namespace == ns(req.pool)
    ensures Release(objects, req).result.Ok? <==>
            exists k :: k in objects && objects[k].poolLabel == req.pool
                        && objects[k].ServesPod(req.podName, req.podNamespace) && !objects[k].terminating
    ensures var objects' := Release(objects, req).objects;
            forall k :: k in objects' && objects'[k].poolLabel == req.pool
                        && objects'[k].ServesPod(req.podName, req.podNamespace)
              ==> objects'[k].terminating
  {
    var r := Release(objects, req);
    forall k | k in objects && objects[k].poolLabel == req.pool && objects[k].ServesPod(req.podName, req.podNamespace)
      ensures k == ReleaseKey(req)
    {
    }
  }

  /** Allocate then release restores the store exactly when the caller passes the pool's namespace. */
  lemma RoundTrip(strategy: Strategy, objects: Objects, pools: Pools, cursors: Cursors,
                  req: Request, ports: seq<ContainerPort>, ns: Namespaces)
    requires PoolsAgree(pools, ns)
    requires Attempt(strategy, objects, pools, cursors, req, ports).result.Ok?
    ensures var o := Attempt(strategy, objects, pools, cursors, req, ports);
            Release(o.objects, req) == Released(Ok(()), objects) <==> req.namespace == ns(req.pool)
  {
    var o := Attempt(strategy, objects, pools, cursors, req, ports);
    AttemptEffect(strategy, objects, pools, cursors, req, ports, ns);
    var key := o.result.value.ObjectKey();
    if key == ReleaseKey(req) {
      assert o.objects - {key} == objects;
    } else {
      ReleaseIsolated(o.objects, req);
      assert key in Release(o.objects, req).objects;
    }
  }

  /** Repeating the request after the round trip gives the identical allocation under least-used, and
      under round-robin exactly when the load balancer chosen was the only one with room. */
  lemma RepeatedRequest(strategy: Strategy, objects: Objects, pools: Pools, cursors: Cursors,
                        req: Request, ports: seq<ContainerPort>, ns: Namespaces)
    requires PoolsAgree(pools, ns)
    requires Attempt(strategy, objects, pools, cursors, req, ports).result.Ok?
    requires 0 < |ports| <= MAX_INT32
    requires DistinctIds(pools[req.pool])
    requires forall i :: 0 <= i < |pools[req.pool].loadBalancers| ==>
               var used := Usage(Listing(objects, req.pool), pools[req.pool].loadBalancers[i].id);
               Capacity(pools[req.pool].portRange) - used >= -MAX_INT32 - 1
    ensures var o := Attempt(strategy, objects, pools, cursors, req, ports);
            var again := Attempt(strategy, objects, pools, o.cursors, req, ports);
            var s := Snapshot(pools[req.pool], Listing(objects, req.pool));
            var avail := LU.Avail(s, |ports|);
            again.result == o.result <==>
            strategy.LeastUsed? || OneAvailable(avail)
  {
    var a, s := AttemptCreates(strategy, objects, pools, cursors, req, ports, ns);
    var index := RR.CursorOf(cursors, CursorKey(s.pool));
    var cursors' := CursorsAfter(strategy, cursors, s, |ports|);
    var index' := RR.CursorOf(cursors', CursorKey(s.pool));
    RepeatedPlan(strategy, index, index', s, req, ports);
    PlanShape(strategy, index', s, req, ports);
    AttemptFrom(strategy, objects, pools, cursors', req, ports, s.items, Plan(strategy, index', s, req, ports).value);
  }

  /** No two load balancers pass the test. */
  ghost predicate OneAvailable(avail: seq<bool>) {
    forall p, q :: 0 <= p < |avail| && 0 <= q < |avail| && avail[p] && avail[q] ==> p == q
  }

  lemma RepeatedPlan(strategy: Strategy, index: nat, index': nat, s: Snapshot, req: Request, ports: seq<ContainerPort>)
    requires Plan(strategy, index, s, req, ports).Ok? && 0 < |ports| <= MAX_INT32 && DistinctIds(s.pool)
    requires forall i :: 0 <= i < |s.pool.loadBalancers| ==>
               Capacity(s.pool.portRange) - Usage(s.items, s.pool.loadBalancers[i].id) >= -MAX_INT32 - 1
    requires !strategy.LeastUsed? ==> index' == RR.NextIndex(index, LU.Avail(s, |ports|))
    ensures var avail := LU.Avail(s, |ports|);
            && Plan(strategy, index', s, req, ports).Ok?
            && (Plan(strategy, index', s, req, ports) == Plan(strategy, index, s, req, ports) <==>
                strategy.LeastUsed? || OneAvailable(avail))
  {
    SelectionNeverWasted(strategy, index, s, req, ports);
    SelectionNeverWasted(strategy, index', s, req, ports);
    if !strategy.LeastUsed? {
      var avail := LU.Avail(s, |ports|);
      RR.PickNearest(index', avail);
      RR.PickAgain(index, avail);
      DifferentTargets(strategy, index, index', s, req, ports);
    }
  }

  predicate DistinctIds(pool: Pool) {
    forall i, j :: 0 <= i < j < |pool.loadBalancers| ==> pool.loadBalancers[i].id != pool.loadBalancers[j].id
  }

  lemma DifferentTargets(strategy: Strategy, index: nat, index': nat, s: Snapshot, req: Request,
                         ports: seq<ContainerPort>)
    requires DistinctIds(s.pool) && ports != []
    requires Plan(strategy, index, s, req, ports).Ok? && Plan(strategy, index', s, req, ports).Ok?
    ensures Plan(strategy, index, s, req, ports) == Plan(strategy, index', s, req, ports)
            <==> Select(strategy, index, s, |ports|) == Select(strategy, index', s, |ports|)
  {
    var p, found := PlanDelivers(strategy, index, s, req, ports);
    var p', found' := PlanDelivers(strategy, index', s, req, ports);
    var a, a' := Plan(strategy, index, s, req, ports).value, Plan(strategy, index', s, req, ports).value;
    assert a.bindings[0].lb == s.pool.loadBalancers[p];
    assert a'.bindings[0].lb == s.pool.loadBalancers[p'];
  }
}
