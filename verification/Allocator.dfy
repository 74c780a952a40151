/** The pool allocator: its loops and state changes, proved against the functions of `Operations`. */
module Allocator {
  import opened Types
  import opened Ledger
  import opened PortSearch
  import opened Operations
  import ApiServer
  import RR = RoundRobin
  import LU = LeastUsed
  import ScanSafety

  /** The set view of the ledger used by the search. */
  method GetAllocatedPortsByLB(items: seq<Allocation>, id: string) returns (ports: set<int>)
    ensures ports == UsedPorts(items, id)
  {
    ports := {};
    for i := 0 to |items|
      invariant ports == UsedPorts(items[..i], id)
    {
      var bindings := items[i].bindings;
      for j := 0 to |bindings|
        invariant ports == UsedPorts(items[..i], id) + PortsOn(bindings[..j], id)
      {
        if bindings[j].lb.id == id {
          ports := ports + {bindings[j].lbPort};
        }
        NextBinding(bindings, j, id);
      }
      NextAllocation(items, i, id);
    }
    assert items[..|items|] == items;
  }

  /** How count and port set grow by one binding. */
  lemma NextBinding(bs: seq<PortBinding>, j: nat, id: string)
    requires j < |bs|
    ensures CountOn(bs[..j + 1], id) == CountOn(bs[..j], id) + (if bs[j].lb.id == id then 1 else 0)
    ensures PortsOn(bs[..j + 1], id) == PortsOn(bs[..j], id) + (if bs[j].lb.id == id then {bs[j].lbPort} else {})
  {
    LastBinding(bs[..j + 1], id);
    assert bs[..j + 1][..j] == bs[..j];
  }

  /** How usage and used ports grow by one allocation. */
  lemma NextAllocation(items: seq<Allocation>, i: nat, id: string)
    requires i < |items|
    ensures var bs := items[i].bindings;
            && Usage(items[..i + 1], id) == Usage(items[..i], id) + CountOn(bs[..|bs|], id)
            && UsedPorts(items[..i + 1], id) == UsedPorts(items[..i], id) + PortsOn(bs[..|bs|], id)
  {
    var bs := items[i].bindings;
    assert items[..i + 1][..i] == items[..i] && bs[..|bs|] == bs;
    CountConcat(Bindings(items[..i]), bs, id);
    PortsConcat(Bindings(items[..i]), bs, id);
  }

  class PoolAllocator {
    const client: ApiServer.Client
    const strategy: Strategy
    var roundRobinIndex: Cursors
    var indexLocked: bool
    var poolLocks: set<string>

    constructor (client: ApiServer.Client, strategy: Strategy)
      ensures this.client == client && this.strategy == strategy
      ensures roundRobinIndex == map[] && !indexLocked && poolLocks == {}
    {
      this.client := client;
      this.strategy := strategy;
      this.roundRobinIndex := map[];
      this.indexLocked := false;
      this.poolLocks := {};
    }

    method GetLBPortUsage(items: seq<Allocation>, lb: LoadBalancerRef) returns (usage: int)
      ensures usage == Wrap32(Usage(items, lb.id))
    {
      hide Wrap32;
      usage := 0;
      for i := 0 to |items|
        invariant usage == Wrap32(Usage(items[..i], lb.id))
      {
        var bindings := items[i].bindings;
        for j := 0 to |bindings|
          invariant usage == Wrap32(Usage(items[..i], lb.id) + CountOn(bindings[..j], lb.id))
        {
          NextBinding(bindings, j, lb.id);
          if bindings[j].lb.id == lb.id {
            WrapSum(Usage(items[..i], lb.id) + CountOn(bindings[..j], lb.id), 1);
            usage := Wrap32(usage + 1);
          }
        }
        NextAllocation(items, i, lb.id);
      }
      assert items[..|items|] == items;
    }

    /** The test, one 32-bit operation at a time. */
    method HasAvailablePorts(s: Snapshot, lb: LoadBalancerRef, portCount: nat) returns (ok: bool)
      ensures ok == HasAvailable(s, lb.id, portCount)
    {
      var usage := GetLBPortUsage(s.items, lb);
      var r := s.pool.portRange;
      var width := Wrap32(Wrap32(r.max - r.min) + 1);
      var totalPorts := Wrap32(width - Wrap32(|r.excluded|));
      var availablePorts := Wrap32(totalPorts - usage);
      CapacityInSteps(r, Usage(s.items, lb.id));
      ok := availablePorts >= Wrap32(portCount);
    }

    /** The ports the search must avoid: used on this load balancer, or excluded for all. */
    method CollectBlocked(s: Snapshot, lb: LoadBalancerRef) returns (allocatedPorts: set<int>)
      ensures allocatedPorts == Blocked(s, lb.id)
    {
      allocatedPorts := {};
      if |s.items| > 0 {
        allocatedPorts := GetAllocatedPortsByLB(s.items, lb.id);
      }
      assert allocatedPorts == UsedPorts(s.items, lb.id);
      var range := s.pool.portRange;
      for i := 0 to |range.excluded|
        invariant allocatedPorts == UsedPorts(s.items, lb.id) + set j | 0 <= j < i :: range.excluded[j]
      {
        allocatedPorts := allocatedPorts + {range.excluded[i]};
      }
    }

    /** The scan, with its 32-bit counter. It is called with a range that ends below the largest integer, or
        with enough ports free for it to stop before the counter wraps. */
    method FindAvailablePorts(s: Snapshot, lb: LoadBalancerRef, count: int) returns (r: Result<seq<int>>)
      requires Fits32(s.pool.portRange.min) && Fits32(s.pool.portRange.max)
      requires s.pool.portRange.max < MAX_INT32 || |FreePorts(s, lb.id)| >= count
      ensures r == FindPorts(s, lb.id, count)
    {
      if count <= 0 { return Err(InvalidCount); }
      var allocatedPorts := CollectBlocked(s, lb);
      var range := s.pool.portRange;
      ghost var all := FirstFit(range.min, range.max, allocatedPorts, count);
      FirstFitSize(range.min, range.max, allocatedPorts, count);
      assert range.max < MAX_INT32 || |all| == count;
      hide Wrap32, Blocked, FreePorts;
      var availablePorts := [];
      var port := range.min;
      while port <= range.max && |availablePorts| < count
        invariant |availablePorts| <= count
        invariant |availablePorts| < count ==>
          Fits32(port) && all == availablePorts + FirstFit(port, range.max, allocatedPorts, count - |availablePorts|)
        invariant |availablePorts| == count ==> all == availablePorts
        decreases count - |availablePorts|, range.max - port
      {
        ScanNext(availablePorts, port, range.max, allocatedPorts, count);
        if port !in allocatedPorts {
          availablePorts := availablePorts + [port];
        }
        port := Wrap32(port + 1);
      }
      assert availablePorts == all;
      if |availablePorts| < count { return Err(TooFewPorts); }
      r := Ok(availablePorts);
    }

    /** The cyclic scan of `SelectRoundRobin`. */
    method ScanFromCursor(s: Snapshot, portCount: nat, currentIndex: nat) returns (pos: Option<nat>)
      ensures pos == RR.Pick(currentIndex, LU.Avail(s, portCount))
    {
      var n := |s.pool.loadBalancers|;
      ghost var avail := LU.Avail(s, portCount);
      for i := 0 to n
        invariant RR.ScanFrom(currentIndex, avail, i) == RR.Pick(currentIndex, avail)
      {
        var lbIndex := RR.Position(currentIndex, i, n);
        var ok := HasAvailablePorts(s, s.pool.loadBalancers[lbIndex], portCount);
        if ok { return Some(lbIndex); }
      }
      return None;
    }

    method SelectRoundRobin(s: Snapshot, portCount: nat) returns (r: Result<LoadBalancerRef>)
      requires !indexLocked
      modifies this`roundRobinIndex, this`indexLocked
      ensures !indexLocked
      ensures s.pool.loadBalancers == [] ==> r == Err(NoLoadBalancers) && roundRobinIndex == old(roundRobinIndex)
      ensures s.pool.loadBalancers != [] ==>
                var avail := LU.Avail(s, portCount);
                && r == At(s, RR.Pick(RR.CursorOf(old(roundRobinIndex), CursorKey(s.pool)), avail))
                && roundRobinIndex == RR.Advance(old(roundRobinIndex), CursorKey(s.pool), avail)
      ensures TakesFirst(s, portCount, old(roundRobinIndex), roundRobinIndex, r)
    {
      hide Wrap32, RR.ScanFrom;
      var n := |s.pool.loadBalancers|;
      if n == 0 { return Err(NoLoadBalancers); }
      var poolKey := PoolKey(s.pool.namespace, s.pool.name);
      RR.AdvanceExactly(roundRobinIndex, poolKey, LU.Avail(s, portCount));
      indexLocked := true;
      var currentIndex := if poolKey in roundRobinIndex then roundRobinIndex[poolKey] else 0;
      var pos := ScanFromCursor(s, portCount, currentIndex);
      match pos {
        case Some(lbIndex) =>
          roundRobinIndex := roundRobinIndex[poolKey := (lbIndex + 1) % n];
          r := Ok(s.pool.loadBalancers[lbIndex]);
        case None =>
          r := Err(NoCapacity);
      }
      indexLocked := false;
    }

    method SelectLeastUsed(s: Snapshot, portCount: nat) returns (r: Result<LoadBalancerRef>)
      requires strategy.LeastUsed?
      ensures Chosen(Select(strategy, RR.CursorOf(roundRobinIndex, CursorKey(s.pool)), s, portCount), s, r)
    {
      if |s.pool.loadBalancers| == 0 { return Err(NoLoadBalancers); }
      var bestLB: Option<nat> := None;
      var minUsage := MAX_INT32;
      for i := 0 to |s.pool.loadBalancers|
        invariant LU.Scan(LU.Usages(s), LU.Avail(s, portCount), i) == LU.Best(minUsage, bestLB)
      {
        var usage := GetLBPortUsage(s.items, s.pool.loadBalancers[i]);
        var ok := HasAvailablePorts(s, s.pool.loadBalancers[i], portCount);
        if usage < minUsage && ok {
          minUsage, bestLB := usage, Some(i);
        }
      }
      r := match bestLB
           case None => Err(NoCapacity)
           case Some(p) => Ok(s.pool.loadBalancers[p]);
    }

    method SelectLoadBalancer(s: Snapshot, portCount: nat) returns (r: Result<LoadBalancerRef>)
      requires !indexLocked
      modifies this`roundRobinIndex, this`indexLocked
      ensures !indexLocked
      ensures Chosen(Select(strategy, RR.CursorOf(old(roundRobinIndex), CursorKey(s.pool)), s, portCount), s, r)
      ensures roundRobinIndex == CursorsAfter(strategy, old(roundRobinIndex), s, portCount)
    {
      if strategy == Strategy.LeastUsed {
        r := SelectLeastUsed(s, portCount);
      } else {
        RoundRobinIsSelect(strategy, RR.CursorOf(roundRobinIndex, CursorKey(s.pool)), roundRobinIndex, s, portCount);
        r := SelectRoundRobin(s, portCount);
      }
    }

    /** `None` when the pod holds nothing in the pool. */
    method CheckForDuplicateAllocation(req: Request) returns (failure: Option<Error>)
      requires KeysAgree(client.objects)
      ensures failure == None ==> !Holds(client.objects, req.pool, req.podName, req.podNamespace)
      ensures failure == Some(Duplicate) ==> Holds(client.objects, req.pool, req.podName, req.podNamespace)
      ensures failure.Some? ==> failure.value == Duplicate || (failure.value == ApiFault && !client.reliable)
    {
      var list := client.List(req.pool);
      if list.Err? { return Some(list.error); }
      var items := list.value;
      for i := 0 to |items|
        invariant forall j :: 0 <= j < i ==> !items[j].ServesPod(req.podName, req.podNamespace)
      {
        if items[i].ServesPod(req.podName, req.podNamespace) {
          ListingMember(items, client.objects, req.pool, items[i]);
          return Some(Duplicate);
        }
      }
      forall k | k in client.objects && client.objects[k].poolLabel == req.pool
        ensures !client.objects[k].ServesPod(req.podName, req.podNamespace)
      {
        ListingMember(items, client.objects, req.pool, client.objects[k]);
      }
      failure := None;
    }

    method GetPoolAndAllocations(pool: string) returns (r: Result<Snapshot>)
      requires KeysAgree(client.objects)
      ensures r.Ok? ==> pool in client.pools && r.value.pool == client.pools[pool]
                        && IsListing(r.value.items, client.objects, client.pools[pool].name)
      ensures r.Err? ==> (r.error == PoolNotFound && pool !in client.pools) || (r.error == ApiFault && !client.reliable)
    {
      var p := client.GetPool(pool);
      if p.Err? { return Err(p.error); }
      var list := client.List(p.value.name);
      if list.Err? { return Err(list.error); }
      r := Ok(Snapshot(p.value, list.value));
    }

    /** Plans an allocation from the current state; only cursors may change. */
    method TryAllocatePort(req: Request, ports: seq<ContainerPort>) returns (r: Result<Allocation>)
      requires KeysAgree(client.objects) && ScanSafety.ScanSafe(client.objects, client.pools) && |ports| <= MAX_INT32
               && !indexLocked
      modifies this`roundRobinIndex, this`indexLocked
      ensures !indexLocked
      ensures
        || (r == Err(ApiFault) && !client.reliable && roundRobinIndex == old(roundRobinIndex))
        || Planned(r, roundRobinIndex) ==
          Prepare(strategy, client.objects, client.pools, old(roundRobinIndex), req, ports)
    {
      hide Select, CursorsAfter, Wrap32, Holds, LU.Avail;
      var duplicate := CheckForDuplicateAllocation(req);
      if duplicate.Some? { return Err(duplicate.value); }
      var snapshot := GetPoolAndAllocations(req.pool);
      if snapshot.Err? { return Err(snapshot.error); }
      var s := snapshot.value;
      PrepareFrom(strategy, client.objects, client.pools, roundRobinIndex, req, ports, s.items);
      var portBindings: seq<PortBinding> := [];
      if |ports| > 0 {
        ghost var index := RR.CursorOf(roundRobinIndex, CursorKey(s.pool));
        var selected := SelectLoadBalancer(s, |ports|);
        if selected.Err? { return Err(selected.error); }
        var lb := selected.value;
        ghost var chosen := Select(strategy, index, s, |ports|).value;
        ScanSafety.AcceptedScanEnds(client.objects, client.pools, req.pool, s.items, chosen, |ports|);
        var found := FindAvailablePorts(s, lb, |ports|);
        if found.Err? { return Err(found.error); }
        var lbPorts := found.value;
        for i := 0 to |ports|
          invariant |portBindings| == i
          invariant forall j :: 0 <= j < i ==>
            portBindings[j] == PortBinding(ports[j].podPort, lbPorts[j], ports[j].protocol, ports[j].portName,
                                           DEFAULT_BINDING_TYPE, lb)
        {
          portBindings := portBindings
            + [PortBinding(ports[i].podPort, lbPorts[i], ports[i].protocol, ports[i].portName, DEFAULT_BINDING_TYPE,
                           lb)];
        }
        assert portBindings == Bind(ports, lbPorts, lb);
      }
      r := Ok(NewAllocation(s.pool, req.podName, req.podNamespace, portBindings));
    }

    method CreateAllocation(a: Allocation) returns (r: Result<()>)
      modifies client`objects
      ensures r.Ok? ==>
                a.ObjectKey() !in old(client.objects) && client.objects == old(client.objects)[a.ObjectKey() := a]
      ensures r.Err? ==> client.objects == old(client.objects)
      ensures r.Err? ==>
                (r.error == NameTaken && a.ObjectKey() in client.objects)
                || (ApiServer.IsFault(r.error) && !client.reliable)
    {
      var existing := client.Get(a.ObjectKey());
      if existing.Ok? { return Err(NameTaken); }
      if existing.error != NotFound { return Err(existing.error); }
      r := client.Create(a);
    }

    /** The closure under retry: plan, then create. */
    method Pass(req: Request, ports: seq<ContainerPort>) returns (r: Result<Allocation>)
      requires KeysAgree(client.objects) && ScanSafety.ScanSafe(client.objects, client.pools) && |ports| <= MAX_INT32
               && !indexLocked
      modifies this`roundRobinIndex, this`indexLocked, client`objects
      ensures !indexLocked && KeysAgree(client.objects)
      ensures r.Ok? || !ApiServer.IsFault(r.error) ==>
                Attempt(strategy, old(client.objects), client.pools, old(roundRobinIndex), req, ports)
                == Outcome(r, client.objects, roundRobinIndex)
      ensures r.Err? ==> client.objects == old(client.objects)
      ensures r.Err? && ApiServer.IsFault(r.error) ==> !client.reliable
      ensures r == Err(Conflict) ==>
                var planned := Prepare(strategy, client.objects, client.pools, old(roundRobinIndex), req, ports);
                roundRobinIndex == planned.cursors
    {
      hide Prepare, ScanSafety.ScanSafe;
      PlansMeetNoFault(strategy, client.objects, client.pools, roundRobinIndex, req, ports);
      r := TryAllocatePort(req, ports);
      if r.Ok? {
        var created := CreateAllocation(r.value);
        if created.Err? { r := Err(created.error); }
      }
    }

    /** The retry wrapper: runs passes until one ends in anything but a conflict, five at most. A run that
        is not stopped by a fault has the outcome of one `Attempt`, made with the cursors its conflicted
        predecessors left behind. */
    method RetryOnConflict(req: Request, ports: seq<ContainerPort>) returns (r: Result<Allocation>, retryCount: nat)
      requires KeysAgree(client.objects) && ScanSafety.ScanSafe(client.objects, client.pools) && |ports| <= MAX_INT32
               && !indexLocked
      modifies this`roundRobinIndex, this`indexLocked, client`objects
      ensures !indexLocked && KeysAgree(client.objects)
      ensures 1 <= retryCount <= MAX_ATTEMPTS
      ensures r.Err? ==> client.objects == old(client.objects)
      ensures r.Ok? || !ApiServer.IsFault(r.error) ==>
                AttemptedAfter(retryCount - 1, strategy, old(client.objects), client.pools, old(roundRobinIndex),
                               req, ports,
                               Outcome(r, client.objects, roundRobinIndex))
      ensures r == Err(Conflict) ==> retryCount == MAX_ATTEMPTS
      ensures client.reliable ==> retryCount == 1 && (r.Ok? || !ApiServer.IsFault(r.error))
    {
      hide Attempt, Prepare;
      retryCount := 0;
      r := Err(Conflict);
      while retryCount < MAX_ATTEMPTS
        invariant retryCount <= MAX_ATTEMPTS && r == Err(Conflict) && !indexLocked
        invariant retryCount > 0 ==> !client.reliable
        invariant client.objects == old(client.objects)
        invariant roundRobinIndex ==
                    Retried(strategy, client.objects, client.pools, old(roundRobinIndex), req, ports, retryCount)
      {
        retryCount := retryCount + 1;
        r := Pass(req, ports);
        if r != Err(Conflict) { return; }
      }
    }

    /** Runs the passes under the pool lock and returns the lock on every path. */
    method AllocatePort(req: Request, ports: seq<ContainerPort>) returns (r: Result<Allocation>, retryCount: nat)
      requires KeysAgree(client.objects) && ScanSafety.ScanSafe(client.objects, client.pools) && |ports| <= MAX_INT32
      requires !indexLocked && PoolKey(req.namespace, req.pool) !in poolLocks
      modifies this`roundRobinIndex, this`indexLocked, this`poolLocks, client`objects
      ensures poolLocks == old(poolLocks) && !indexLocked && KeysAgree(client.objects)
      ensures 1 <= retryCount <= MAX_ATTEMPTS
      ensures r.Err? ==> client.objects == old(client.objects)
      ensures r.Ok? || !ApiServer.IsFault(r.error) ==>
                AttemptedAfter(retryCount - 1, strategy, old(client.objects), client.pools, old(roundRobinIndex),
                               req, ports,
                               Outcome(r, client.objects, roundRobinIndex))
      ensures r == Err(Conflict) ==> retryCount == MAX_ATTEMPTS
      ensures client.reliable ==> retryCount == 1 && (r.Ok? || !ApiServer.IsFault(r.error))
    {
      var poolMutex := PoolKey(req.namespace, req.pool);
      poolLocks := poolLocks + {poolMutex};
      r, retryCount := RetryOnConflict(req, ports);
      poolLocks := poolLocks - {poolMutex};
      assert poolLocks == old(poolLocks);
    }

    /** Releases by derived name, under the pool lock. */
    method ReleasePort(req: Request) returns (r: Result<()>)
      requires PoolKey(req.namespace, req.pool) !in poolLocks
      modifies this`poolLocks, client`objects
      ensures poolLocks == old(poolLocks)
      ensures r == Err(ApiFault) ==> client.objects == old(client.objects) && !client.reliable
      ensures r != Err(ApiFault) ==> Release(old(client.objects), req) == Released(r, client.objects)
    {
      var poolMutex := PoolKey(req.namespace, req.pool);
      poolLocks := poolLocks + {poolMutex};
      var got := client.Get(ReleaseKey(req));
      if got.Err? {
        r := Err(got.error);
      } else if !got.value.ServesPod(req.podName, req.podNamespace) {
        r := Err(WrongPod);
      } else if got.value.poolLabel != req.pool {
        r := Err(WrongPool);
      } else if got.value.terminating {
        r := Err(AlreadyDeleting);
      } else {
        var deleted := client.Delete(ReleaseKey(req));
        r := if deleted.Ok? then Ok(()) else Err(deleted.error);
      }
      poolLocks := poolLocks - {poolMutex};
      assert poolLocks == old(poolLocks);
    }
  }

  /** A round-robin selection, told from the cursor map: the first load balancer with room from the cursor on,
      or from the start in a pool not selected from before, and the cursor just past it; without room anywhere,
      an error, and no cursor moves. */
  ghost predicate TakesFirst(s: Snapshot, n: nat, cursors: Cursors, cursors': Cursors, r: Result<LoadBalancerRef>) {
    var lbs, key, avail := s.pool.loadBalancers, PoolKey(s.pool.namespace, s.pool.name), LU.Avail(s, n);
    match r
    case Ok(lb) =>
      exists p: nat ::
        && p < |lbs| && lb == lbs[p]
        && RR.FirstAround(if key in cursors then cursors[key] else 0, avail, p)
        && (key !in cursors ==> forall q :: 0 <= q < p ==> !avail[q])
        && cursors' == cursors[key := if p + 1 == |lbs| then 0 else p + 1]
    case Err(e) =>
      && e == (if lbs == [] then NoLoadBalancers else NoCapacity)
      && (forall q :: 0 <= q < |avail| ==> !avail[q])
      && cursors' == cursors
  }

  /** Planning itself fails for reasons of the request only. */
  lemma PlansMeetNoFault(strategy: Strategy, objects: Objects, pools: Pools, cursors: Cursors,
                         req: Request, ports: seq<ContainerPort>)
    ensures var result := Prepare(strategy, objects, pools, cursors, req, ports).result;
            result.Err? ==> !ApiServer.IsFault(result.error)
  {
    hide Holds, CursorsAfter;
  }

  /** One step of the scan. */
  lemma ScanNext(found: seq<int>, port: int, hi: int, blocked: set<int>, count: nat)
    requires port <= hi && |found| < count
    ensures var found' := if port in blocked then found else found + [port];
            found + FirstFit(port, hi, blocked, count - |found|)
            == found' + FirstFit(port + 1, hi, blocked, count - |found'|)
    ensures FirstFit(hi + 1, hi, blocked, count - |found|) == []
  {
    if port !in blocked {
      assert found + ([port] + FirstFit(port + 1, hi, blocked, count - |found| - 1))
             == (found + [port]) + FirstFit(port + 1, hi, blocked, count - |found| - 1);
    }
  }

  /** `o` is the outcome of one attempt made with the cursors that `k` conflicted passes left behind. */
  ghost predicate AttemptedAfter(k: nat, strategy: Strategy, objects: Objects, pools: Pools, cursors: Cursors,
                                 req: Request, ports: seq<ContainerPort>, o: Outcome)
  {
    Attempt(strategy, objects, pools, Retried(strategy, objects, pools, cursors, req, ports, k), req, ports) == o
  }

  /** The load balancer at a scanned position. */
  function At(s: Snapshot, pos: Option<nat>): Result<LoadBalancerRef> {
    match pos
    case Some(p) => if p < |s.pool.loadBalancers| then Ok(s.pool.loadBalancers[p]) else Err(NoCapacity)
    case None => Err(NoCapacity)
  }

  lemma RoundRobinIsSelect(strategy: Strategy, index: nat, cursors: Cursors, s: Snapshot, n: nat)
    requires !strategy.LeastUsed?
    ensures if s.pool.loadBalancers == [] then
              Select(strategy, index, s, n) == Err(NoLoadBalancers) && CursorsAfter(strategy, cursors, s, n) == cursors
            else
              Chosen(Select(strategy, index, s, n), s, At(s, RR.Pick(index, LU.Avail(s, n))))
              && CursorsAfter(strategy, cursors, s, n) == RR.Advance(cursors, CursorKey(s.pool), LU.Avail(s, n))
  {
  }

  /** What a select method returns for a selected position. */
  predicate Chosen(position: Result<nat>, s: Snapshot, r: Result<LoadBalancerRef>) {
    match position
    case Err(e) => r == Err(e)
    case Ok(p) => p < |s.pool.loadBalancers| && r == Ok(s.pool.loadBalancers[p])
  }

  lemma CapacityInSteps(r: PortRange, usage: nat)
    ensures var width := Wrap32(Wrap32(r.max - r.min) + 1);
            var totalPorts := Wrap32(width - Wrap32(|r.excluded|));
            totalPorts == Wrap32(Capacity(r)) && Wrap32(totalPorts - Wrap32(usage)) == Wrap32(Capacity(r) - usage)
  {
    WrapChain(r.max - r.min, 1, |r.excluded|, usage);
  }

  lemma WrapChain(a: int, b: int, c: int, d: int)
    ensures Wrap32(Wrap32(Wrap32(a) + b) - Wrap32(c)) == Wrap32(a + b - c)
    ensures Wrap32(Wrap32(a + b - c) - Wrap32(d)) == Wrap32(a + b - c - d)
  {
    WrapSum(a, b);
    WrapDifference(a + b, c);
    WrapDifference(a + b - c, d);
  }

  lemma WrapDifference(x: int, y: int)
    ensures Wrap32(Wrap32(x) - Wrap32(y)) == Wrap32(x - y)
  {
    WrapSum(x, Wrap32(y));
    WrapSum(y, x);
  }
}
