/** The port scan counts in 32 bits and would start over at the negative ports if it ran past the largest
    integer. After an accepted counting test it stops before; allocations and releases keep it that way. */
module ScanSafety {
  import opened Types
  import opened Ledger
  import opened PortSearch
  import opened Operations
  import RR = RoundRobin
  import LU = LeastUsed
  import Runs

  /** On every load balancer of the pool the counting test computes without underflow. */
  ghost predicate NoUnderflow(s: Snapshot) {
    forall i :: 0 <= i < |s.pool.loadBalancers| ==>
      Capacity(s.pool.portRange) - Usage(s.items, s.pool.loadBalancers[i].id) >= -MAX_INT32 - 1
  }

  /** Bounds are 32-bit integers, and where a range ends at the largest, the counting test is reliable. */
  ghost predicate ScanSafe(objects: Objects, pools: Pools) {
    forall p :: p in pools ==>
      && Fits32(pools[p].portRange.min) && Fits32(pools[p].portRange.max)
      && (pools[p].portRange.max < MAX_INT32 || NoUnderflow(Snapshot(pools[p], Listing(objects, pools[p].name))))
  }

  /** The scan finds what it was sent for before it would wrap. */
  lemma AcceptedScanEnds(objects: Objects, pools: Pools, p: string, items: seq<Allocation>, i: nat, n: nat)
    requires ScanSafe(objects, pools) && p in pools && IsListing(items, objects, pools[p].name)
    requires i < |pools[p].loadBalancers| && 0 < n <= MAX_INT32
    requires HasAvailable(Snapshot(pools[p], items), pools[p].loadBalancers[i].id, n)
    ensures pools[p].portRange.max < MAX_INT32
            || |FreePorts(Snapshot(pools[p], items), pools[p].loadBalancers[i].id)| >= n
  {
    if pools[p].portRange.max >= MAX_INT32 {
      var s, id := Snapshot(pools[p], items), pools[p].loadBalancers[i].id;
      ListOrderIrrelevant(items, Listing(objects, pools[p].name), id);
      CountingTestSound(s, id, n);
      FindPortsExactly(s, id, n);
    }
  }

  lemma UsageAfterCreate(objects: Objects, a: Allocation, pool: string, id: string)
    requires KeysAgree(objects) && a.ObjectKey() !in objects
    ensures Usage(Listing(objects[a.ObjectKey() := a], pool), id)
            == Usage(Listing(objects, pool), id) + if a.poolLabel == pool then CountOn(a.bindings, id) else 0
  {
    Runs.CreateView(objects, a, pool);
    if a.poolLabel == pool {
      LU.UsageAdded(Listing(objects, pool), a, Listing(objects[a.ObjectKey() := a], pool), id);
    } else {
      ListOrderIrrelevant(Listing(objects[a.ObjectKey() := a], pool), Listing(objects, pool), id);
    }
  }

  /** An accepted request leaves the count of its load balancer at zero or above. */
  lemma AttemptKeepsSafe(strategy: Strategy, objects: Objects, pools: Pools, cursors: Cursors,
                         req: Request, ports: seq<ContainerPort>, ns: Namespaces)
    requires PoolsAgree(pools, ns) && KeysAgree(objects) && ScanSafe(objects, pools) && |ports| <= MAX_INT32
    ensures ScanSafe(Attempt(strategy, objects, pools, cursors, req, ports).objects, pools)
  {
    if Attempt(strategy, objects, pools, cursors, req, ports).result.Ok? {
      var a, s := AttemptCreates(strategy, objects, pools, cursors, req, ports, ns);
      var objects' := objects[a.ObjectKey() := a];
      forall p, i | p in pools && 0 <= i < |pools[p].loadBalancers| && pools[p].portRange.max >= MAX_INT32
        ensures var used := Usage(Listing(objects', pools[p].name), pools[p].loadBalancers[i].id);
                Capacity(pools[p].portRange) - used >= -MAX_INT32 - 1
      {
        UsageAfterCreate(objects, a, pools[p].name, pools[p].loadBalancers[i].id);
        if pools[p].name == req.pool {
          PlannedFits(strategy, RR.CursorOf(cursors, CursorKey(s.pool)), s, req, ports, pools[p].loadBalancers[i].id);
        }
      }
    } else {
      AttemptEffect(strategy, objects, pools, cursors, req, ports, ns);
    }
  }

  lemma PlannedFits(strategy: Strategy, index: nat, s: Snapshot, req: Request, ports: seq<ContainerPort>, id: string)
    requires Plan(strategy, index, s, req, ports).Ok? && NoUnderflow(s) && |ports| <= MAX_INT32
    requires Capacity(s.pool.portRange) - Usage(s.items, id) >= -MAX_INT32 - 1
    ensures var added := CountOn(Plan(strategy, index, s, req, ports).value.bindings, id);
            Capacity(s.pool.portRange) - Usage(s.items, id) - added >= -MAX_INT32 - 1
  {
    if ports != [] {
      var p, found := PlanDelivers(strategy, index, s, req, ports);
      var bs := Plan(strategy, index, s, req, ports).value.bindings;
      LU.CountAllOn(bs, s.pool.loadBalancers[p].id, id);
      WrapNotAbove(Capacity(s.pool.portRange) - Usage(s.items, s.pool.loadBalancers[p].id));
    }
  }

  /** Releases only lower usage. */
  lemma ReleaseKeepsSafe(objects: Objects, pools: Pools, req: Request)
    requires KeysAgree(objects) && ScanSafe(objects, pools)
    ensures ScanSafe(Release(objects, req).objects, pools)
  {
    if Release(objects, req).result.Ok? {
      forall p, i | p in pools && 0 <= i < |pools[p].loadBalancers|
        ensures Usage(Listing(Release(objects, req).objects, pools[p].name), pools[p].loadBalancers[i].id)
                <= Usage(Listing(objects, pools[p].name), pools[p].loadBalancers[i].id)
      {
        UsageAfterDelete(objects, ReleaseKey(req), pools[p].name, pools[p].loadBalancers[i].id);
      }
    }
  }

  lemma UsageAfterDelete(objects: Objects, k: Key, pool: string, id: string)
    requires KeysAgree(objects) && k in objects
    ensures Usage(Listing(Deleted(objects, k), pool), id) <= Usage(Listing(objects, pool), id)
  {
    var rest, a := objects - {k}, objects[k];
    UsageAfterCreate(rest, a, pool, id);
    assert rest[k := a] == objects;
    if a.hasFinalizers {
      var marked := a.(terminating := true);
      UsageAfterCreate(rest, marked, pool, id);
      assert rest[k := marked] == Deleted(objects, k);
    }
  }
}
