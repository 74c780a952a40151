/** Sequential histories of allocations and releases: the counting test is exact on every reachable
    ledger, and least-used allocation keeps load balancers level. */
module Runs {
  import opened Types
  import opened Ledger
  import opened PortSearch
  import opened Operations
  import RR = RoundRobin
  import LU = LeastUsed

  // ---------- Tidy ledgers ----------

  /** What every reachable ledger satisfies for a pool of fixed, well-formed range. */
  ghost predicate Tidy(objects: Objects, pool: Pool) {
    KeysAgree(objects) && UniquePorts(objects) && InRange(objects, pool) && WellFormedRange(pool.portRange)
  }

  lemma TidyListing(objects: Objects, pool: Pool, items: seq<Allocation>, id: string)
    requires Tidy(objects, pool) && IsListing(items, objects, pool.name)
    ensures TidyOn(Snapshot(pool, items), id)
  {
    ListingUnique(items, objects, pool.name);
    UniqueItemsDistinct(items, id);
    forall p | p in UsedPorts(items, id) ensures PortAllowed(pool, p) {
      var j :| 0 <= j < |Bindings(items)| && Bindings(items)[j].lb.id == id && Bindings(items)[j].lbPort == p;
      var b := Bindings(items)[j];
      BindingsMember(items, b);
      var a :| a in items && b in a.bindings;
      ListingMember(items, objects, pool.name, a);
      var i :| 0 <= i < |a.bindings| && a.bindings[i] == b;
      assert objects[a.ObjectKey()].bindings[i].lbPort == p;
    }
  }

  lemma TidyCountsFit(objects: Objects, pool: Pool, items: seq<Allocation>)
    requires Tidy(objects, pool) && IsListing(items, objects, pool.name)
    ensures LU.CountsFit(Snapshot(pool, items))
  {
    var s := Snapshot(pool, items);
    forall i | 0 <= i < |pool.loadBalancers|
      ensures var u := Usage(s.items, s.pool.loadBalancers[i].id);
              u < MAX_INT32 && Fits32(Capacity(s.pool.portRange) - u)
    {
      var id := pool.loadBalancers[i].id;
      TidyListing(objects, pool, items, id);
      CountingTestExact(s, id);
      SpanSize(pool.portRange.min, pool.portRange.max);
      SetDifferenceSize(Span(pool.portRange.min, pool.portRange.max), Blocked(s, id));
    }
  }

  /** On a tidy ledger the counting test says exactly whether enough ports are free, and selection
      reports exhaustion exactly when no load balancer has enough. */
  lemma ExhaustionIsReal(strategy: Strategy, index: nat, objects: Objects, pool: Pool, items: seq<Allocation>, n: nat)
    requires Tidy(objects, pool) && IsListing(items, objects, pool.name) && 0 < n <= MAX_INT32
    ensures var s := Snapshot(pool, items);
            && (forall i :: 0 <= i < |pool.loadBalancers| ==>
                  (HasAvailable(s, pool.loadBalancers[i].id, n) <==> |FreePorts(s, pool.loadBalancers[i].id)| >= n))
            && (Select(strategy, index, s, n).Err? <==>
                  forall i :: 0 <= i < |pool.loadBalancers| ==> |FreePorts(s, pool.loadBalancers[i].id)| < n)
  {
    var s := Snapshot(pool, items);
    var avail := LU.Avail(s, n);
    forall i | 0 <= i < |pool.loadBalancers|
      ensures HasAvailable(s, pool.loadBalancers[i].id, n) <==> |FreePorts(s, pool.loadBalancers[i].id)| >= n
      ensures avail[i] <==> |FreePorts(s, pool.loadBalancers[i].id)| >= n
    {
      TidyListing(objects, pool, items, pool.loadBalancers[i].id);
      CountingTestExact(s, pool.loadBalancers[i].id);
    }
    if strategy.LeastUsed? {
      TidyCountsFit(objects, pool, items);
      LU.PickGlobalMinimum(s, n);
    } else {
      RR.PickNearest(index, avail);
    }
  }

  // ---------- Who is served ----------

  /** Some load balancer of the pool has `n` free ports. */
  ghost predicate HasRoom(objects: Objects, pool: Pool, n: nat) {
    exists i :: && 0 <= i < |pool.loadBalancers|
                && |FreePorts(Snapshot(pool, Listing(objects, pool.name)), pool.loadBalancers[i].id)| >= n
  }

  /** Exactly who gets an allocation in a pool with a tidy ledger: a pod that holds none there and whose derived
      name is free, if some load balancer has the ports it wants. */
  lemma ServedExactly(strategy: Strategy, objects: Objects, pools: Pools, cursors: Cursors,
                      req: Request, ports: seq<ContainerPort>, ns: Namespaces)
    requires PoolsAgree(pools, ns) && req.pool in pools && |ports| <= MAX_INT32 && Tidy(objects, pools[req.pool])
    ensures Attempt(strategy, objects, pools, cursors, req, ports).result.Ok? <==>
            && !Holds(objects, req.pool, req.podName, req.podNamespace)
            && Key(ns(req.pool), AllocationName(req.pool, req.podName)) !in objects
            && (ports == [] || HasRoom(objects, pools[req.pool], |ports|))
  {
    hide Plan, Select, UniquePorts, InRange, FreePorts, HasAvailable, CursorsAfter, Holds;
    var s := Snapshot(pools[req.pool], Listing(objects, req.pool));
    var index := RR.CursorOf(cursors, CursorKey(s.pool));
    TidyCountsFit(objects, s.pool, s.items);
    SelectionNeverWasted(strategy, index, s, req, ports);
    if ports != [] {
      ExhaustionIsReal(strategy, index, objects, s.pool, s.items, |ports|);
    } else {
      PlanNothing(strategy, index, s, req);
    }
    if Plan(strategy, index, s, req, ports).Ok? { PlanShape(strategy, index, s, req, ports); }
  }

  lemma PlanNothing(strategy: Strategy, index: nat, s: Snapshot, req: Request)
    ensures Plan(strategy, index, s, req, []).Ok?
  {
  }

  /** A pool of `n` ports on each of its load balancers. */
  ghost predicate Plain(pool: Pool, n: nat) {
    pool.portRange == PortRange(1, n, []) && n < MAX_INT32 && pool.loadBalancers != []
  }

  lemma EmptyTidy(pool: Pool, n: nat)
    requires Plain(pool, n)
    ensures Tidy(map[], pool) && HasRoom(map[], pool, n)
  {
    var s, id := Snapshot(pool, Listing(map[], pool.name)), pool.loadBalancers[0].id;
    assert Members(map[], pool.name) == {};
    assert |s.items| == |multiset(s.items)| == 0;
    SpanSize(1, n);
    assert Blocked(s, id) == {};
    assert FreePorts(s, id) == Span(1, n);
  }

  /** From the empty store a request for at most `n` ports of such a pool is served. */
  lemma FirstServed(strategy: Strategy, pools: Pools, req: Request, ports: seq<ContainerPort>, ns: Namespaces, n: nat)
    requires PoolsAgree(pools, ns) && req.pool in pools && Plain(pools[req.pool], n) && |ports| <= n
    ensures var o := Attempt(strategy, map[], pools, map[], req, ports);
            && o.result.Ok? && o.objects == map[o.result.value.ObjectKey() := o.result.value]
            && WellNamed(o.objects, ns) && UniquePorts(o.objects) && |o.result.value.bindings| == |ports|
            && (forall p :: p in pools ==> InRange(o.objects, pools[p]))
  {
    hide Plan, Select, UniquePorts, FreePorts;
    EmptyTidy(pools[req.pool], n);
    RoomForLess(map[], pools[req.pool], n, |ports|);
    ServedExactly(strategy, map[], pools, map[], req, ports, ns);
    AttemptEffect(strategy, map[], pools, map[], req, ports, ns);
    EmptyUnique();
    AttemptKeeps(strategy, map[], pools, map[], req, ports, ns);
    var a, s := AttemptCreates(strategy, map[], pools, map[], req, ports, ns);
    PlanCounts(strategy, RR.CursorOf(map[], CursorKey(s.pool)), s, req, ports);
  }

  lemma EmptyUnique()
    ensures UniquePorts(map[]) && forall pool :: InRange(map[], pool)
  {
  }

  lemma RoomForLess(objects: Objects, pool: Pool, n: nat, m: nat)
    requires HasRoom(objects, pool, n) && m <= n
    ensures HasRoom(objects, pool, m)
  {
    hide FreePorts;
  }

  const ONE_PORT := [ContainerPort(80, "TCP", "http")]

  const TWO_POOLS: Pools := map["a" := RoomyPool("a", "", 2), "a-b" := RoomyPool("a-b", "", 2)]

  const FIRST_POD := Request("a", "", "b-c", "x")

  /** A pod that holds nothing is refused in a pool with room, because pod "b-c" in pool "a" has the name that it
      derives as pod "c" in pool "a-b". */
  lemma RefusedAcrossPools(strategy: Strategy)
    ensures var o := Attempt(strategy, map[], TWO_POOLS, map[], FIRST_POD, ONE_PORT);
            && o.result.Ok? && !Holds(o.objects, "a-b", "c", "y") && HasRoom(o.objects, TWO_POOLS["a-b"], 1)
            && Attempt(strategy, o.objects, TWO_POOLS, o.cursors, Request("a-b", "", "c", "y"), ONE_PORT).result.Err?
  {
    hide Attempt, UniquePorts, InRange, FreePorts;
    var ns := (_: string) => "";
    FirstServed(strategy, TWO_POOLS, FIRST_POD, ONE_PORT, ns, 2);
    var o := Attempt(strategy, map[], TWO_POOLS, map[], FIRST_POD, ONE_PORT);
    AttemptEffect(strategy, map[], TWO_POOLS, map[], FIRST_POD, ONE_PORT, ns);
    assert AllocationName("a", "b-c") == "a-b-c" == AllocationName("a-b", "c");
    RoomElsewhere(o.objects, TWO_POOLS["a-b"]);
    ServedExactly(strategy, o.objects, TWO_POOLS, o.cursors, Request("a-b", "", "c", "y"), ONE_PORT, ns);
  }

  /** A pool none of whose allocations are stored has room. */
  lemma RoomElsewhere(objects: Objects, pool: Pool)
    requires Plain(pool, 2) && Members(objects, pool.name) == {}
    ensures HasRoom(objects, pool, 1)
  {
    EmptyTidy(pool, 2);
    assert Members(map[], pool.name) == {};
    var items, none := Listing(objects, pool.name), Listing(map[], pool.name);
    assert |items| == |multiset(items)| == 0 && |none| == |multiset(none)| == 0;
    RoomForLess(map[], pool, 2, 1);
  }

  /** So is a pod that shares its name with a pod of another namespace. */
  lemma RefusedNamesake(strategy: Strategy)
    ensures var o := Attempt(strategy, map[], TWO_POOLS, map[], FIRST_POD, ONE_PORT);
            && o.result.Ok? && !Holds(o.objects, "a", "b-c", "y") && HasRoom(o.objects, TWO_POOLS["a"], 1)
            && Attempt(strategy, o.objects, TWO_POOLS, o.cursors, Request("a", "", "b-c", "y"), ONE_PORT).result.Err?
  {
    hide Attempt, UniquePorts, InRange, FreePorts;
    var ns := (_: string) => "";
    FirstServed(strategy, TWO_POOLS, FIRST_POD, ONE_PORT, ns, 2);
    var o := Attempt(strategy, map[], TWO_POOLS, map[], FIRST_POD, ONE_PORT);
    AttemptEffect(strategy, map[], TWO_POOLS, map[], FIRST_POD, ONE_PORT, ns);
    RoomForOneMore(o.objects, TWO_POOLS["a"], o.result.value);
    ServedExactly(strategy, o.objects, TWO_POOLS, o.cursors, Request("a", "", "b-c", "y"), ONE_PORT, ns);
  }

  /** One binding leaves room in a pool of two ports. */
  lemma RoomForOneMore(objects: Objects, pool: Pool, a: Allocation)
    requires Plain(pool, 2) && Tidy(objects, pool) && objects == map[a.ObjectKey() := a] && |a.bindings| == 1
             && a.poolLabel == pool.name
    ensures HasRoom(objects, pool, 1)
  {
    hide FreePorts, UniquePorts, InRange, Usage;
    var items, id := Listing(objects, pool.name), pool.loadBalancers[0].id;
    TidyListing(objects, pool, items, id);
    CountingTestExact(Snapshot(pool, items), id);
    UsedAtMostOnce(objects, pool.name, a, id);
  }

  lemma UsedAtMostOnce(objects: Objects, pool: string, a: Allocation, id: string)
    requires objects == map[a.ObjectKey() := a] && |a.bindings| == 1 && a.poolLabel == pool
    ensures Usage(Listing(objects, pool), id) <= 1
  {
    assert objects[a.ObjectKey()] == a;
    assert Members(objects, pool) == {a};
    ListOrderIrrelevant(Listing(objects, pool), [a], id);
    assert [a][..0] == [] && Bindings([a]) == a.bindings;
    CountIsCardinality(a.bindings, id);
    AtMostOne(SlotsOn(a.bindings, id));
  }

  lemma AtMostOne(s: set<int>)
    requires s <= {0}
    ensures |s| <= 1
  {
    if s != {} { assert s == {0}; }
  }

  // ---------- Histories ----------

  datatype Op = Allocate(req: Request, ports: seq<ContainerPort>) | Free(req: Request)

  datatype Config = Config(objects: Objects, cursors: Cursors)

  ghost function Apply(strategy: Strategy, pools: Pools, c: Config, op: Op): Config {
    match op
    case Allocate(req, ports) =>
      var o := Attempt(strategy, c.objects, pools, c.cursors, req, ports);
      Config(o.objects, o.cursors)
    case Free(req) => Config(Release(c.objects, req).objects, c.cursors)
  }

  ghost predicate History(strategy: Strategy, pools: Pools, states: seq<Config>, ops: seq<Op>) {
    && |states| == |ops| + 1
    && forall i :: 0 <= i < |ops| ==> states[i + 1] == Apply(strategy, pools, states[i], ops[i])
  }

  ghost predicate Sound(objects: Objects, pools: Pools, ns: Namespaces) {
    && WellNamed(objects, ns)
    && UniquePorts(objects)
    && forall p :: p in pools ==> InRange(objects, pools[p])
  }

  lemma {:induction false} HistorySound(strategy: Strategy, pools: Pools, states: seq<Config>, ops: seq<Op>,
                                        ns: Namespaces, m: nat)
    requires History(strategy, pools, states, ops) && m < |states|
    requires PoolsAgree(pools, ns) && Sound(states[0].objects, pools, ns)
    ensures Sound(states[m].objects, pools, ns)
  {
    if m > 0 {
      HistorySound(strategy, pools, states, ops, ns, m - 1);
      var c := states[m - 1];
      match ops[m - 1]
      case Allocate(req, ports) => AttemptKeeps(strategy, c.objects, pools, c.cursors, req, ports, ns);
      case Free(req) =>
        ReleaseShrinks(c.objects, req);
        ShrinkKeeps(c.objects, Release(c.objects, req).objects, ns);
    }
  }

  // ---------- Least-used histories stay balanced ----------

  ghost function View(c: Config, pool: Pool): Snapshot { Snapshot(pool, Listing(c.objects, pool.name)) }

  /** The number of ports an operation asks of the pool. */
  function Size(op: Op, pool: string): nat {
    if op.Allocate? && op.req.pool == pool then |op.ports| else 0
  }

  lemma CreateView(objects: Objects, a: Allocation, pool: string)
    requires KeysAgree(objects) && a.ObjectKey() !in objects
    ensures multiset(Listing(objects[a.ObjectKey() := a], pool)) ==
            multiset(Listing(objects, pool)) + (if a.poolLabel == pool then multiset{a} else multiset{})
  {
    var objects' := objects[a.ObjectKey() := a];
    var before, after := Members(objects, pool), Members(objects', pool);
    forall x ensures x in after <==> x in before || (x == a && a.poolLabel == pool) {
      if x in before {
        assert objects'[x.ObjectKey()] == x;
      }
      if a.poolLabel == pool {
        assert objects'[a.ObjectKey()] == a;
      }
    }
    assert a !in before;
    assert after == before + if a.poolLabel == pool then {a} else {};
  }

  lemma ReleaseView(objects: Objects, req: Request, pool: string)
    requires req.pool != pool
    ensures Members(Release(objects, req).objects, pool) == Members(objects, pool)
  {
    var objects' := Release(objects, req).objects;
    forall k | k in objects && objects[k].poolLabel == pool
      ensures k in objects' && objects'[k] == objects[k]
    {
    }
    forall x | x in Members(objects, pool) ensures x in Members(objects', pool) {
      var k :| k in objects && objects[k].poolLabel == pool && objects[k] == x;
      assert objects'[k] == x;
    }
  }

  lemma SameMembersSameUsage(objects: Objects, objects': Objects, pool: Pool)
    requires multiset(Listing(objects', pool.name)) == multiset(Listing(objects, pool.name))
    ensures LU.SameUsage(Snapshot(pool, Listing(objects, pool.name)), Snapshot(pool, Listing(objects', pool.name)))
  {
    forall i | 0 <= i < |pool.loadBalancers|
      ensures Usage(Listing(objects', pool.name), pool.loadBalancers[i].id) ==
                Usage(Listing(objects, pool.name), pool.loadBalancers[i].id)
    {
      ListOrderIrrelevant(Listing(objects', pool.name), Listing(objects, pool.name), pool.loadBalancers[i].id);
    }
  }

  /** Every operation other than a release in the pool either serves a least-used request on the
      pool's ledger or leaves its usage as it was. */
  lemma OpServed(pools: Pools, c: Config, op: Op, pool: Pool, ns: Namespaces)
    requires PoolsAgree(pools, ns) && WellNamed(c.objects, ns) && pool.name in pools && pools[pool.name] == pool
    requires op.Free? ==> op.req.pool != pool.name
    ensures var c' := Apply(LeastUsed, pools, c, op);
            LU.Served(View(c, pool), Size(op, pool.name), View(c', pool)) || LU.SameUsage(View(c, pool), View(c', pool))
  {
    if op.Free? {
      ReleaseView(c.objects, op.req, pool.name);
      SameMembersSameUsage(c.objects, Release(c.objects, op.req).objects, pool);
    } else if Attempt(LeastUsed, c.objects, pools, c.cursors, op.req, op.ports).result.Ok? {
      var a, s := AttemptCreates(LeastUsed, c.objects, pools, c.cursors, op.req, op.ports, ns);
      CreationServed(c.objects, a, s, RR.CursorOf(c.cursors, CursorKey(s.pool)), op.req, op.ports, pool);
    } else {
      AttemptEffect(LeastUsed, c.objects, pools, c.cursors, op.req, op.ports, ns);
      SameMembersSameUsage(c.objects, c.objects, pool);
    }
  }

  lemma CreationServed(objects: Objects, a: Allocation, s: Snapshot, index: nat, req: Request,
                       ports: seq<ContainerPort>, pool: Pool)
    requires KeysAgree(objects) && a.ObjectKey() !in objects
    requires Plan(LeastUsed, index, s, req, ports) == Ok(a) && a.poolLabel == s.pool.name == req.pool
    requires s.items == Listing(objects, s.pool.name) && (s.pool.name == pool.name ==> s.pool == pool)
    ensures var before := Snapshot(pool, Listing(objects, pool.name));
            var after := Snapshot(pool, Listing(objects[a.ObjectKey() := a], pool.name));
            LU.Served(before, Size(Allocate(req, ports), pool.name), after) || LU.SameUsage(before, after)
  {
    CreateView(objects, a, pool.name);
    if req.pool != pool.name {
      SameMembersSameUsage(objects, objects[a.ObjectKey() := a], pool);
    } else if ports == [] {
      EmptyAllocation(objects, a, pool);
    } else {
      PlanServed(index, s, req, ports, a, Snapshot(pool, Listing(objects[a.ObjectKey() := a], pool.name)));
    }
  }

  lemma PlanServed(index: nat, s: Snapshot, req: Request, ports: seq<ContainerPort>, a: Allocation, next: Snapshot)
    requires ports != [] && Plan(LeastUsed, index, s, req, ports) == Ok(a)
    requires next.pool == s.pool && multiset(next.items) == multiset(s.items) + multiset{a}
    ensures LU.Served(s, |ports|, next)
  {
    var p, found := PlanDelivers(LeastUsed, index, s, req, ports);
    assert LU.AllOn(a.bindings, s.pool.loadBalancers[p].id);
    assert LU.Pick(s, |ports|) == Some(p);
  }

  lemma EmptyAllocation(objects: Objects, a: Allocation, pool: Pool)
    requires a.bindings == []
    requires multiset(Listing(objects[a.ObjectKey() := a], pool.name)) ==
               multiset(Listing(objects, pool.name)) + multiset{a}
    ensures LU.SameUsage(Snapshot(pool, Listing(objects, pool.name)),
                         Snapshot(pool, Listing(objects[a.ObjectKey() := a], pool.name)))
  {
    var before, after := Listing(objects, pool.name), Listing(objects[a.ObjectKey() := a], pool.name);
    forall i | 0 <= i < |pool.loadBalancers|
      ensures Usage(after, pool.loadBalancers[i].id) == Usage(before, pool.loadBalancers[i].id)
    {
      LU.UsageAdded(before, a, after, pool.loadBalancers[i].id);
    }
  }

  /** Bounded imbalance over whole histories: if no operation releases in the pool and none asks it for
      more than `k` ports, its load balancers stay within `k` ports of each other. */
  lemma LeastUsedStaysBalanced(pools: Pools, states: seq<Config>, ops: seq<Op>, ns: Namespaces, pool: Pool, k: nat,
                               m: nat)
    requires History(LeastUsed, pools, states, ops) && m < |states|
    requires PoolsAgree(pools, ns) && Sound(states[0].objects, pools, ns)
    requires pool.name in pools && pools[pool.name] == pool && WellFormedRange(pool.portRange)
    requires forall i :: 0 <= i < |ops| ==>
               Size(ops[i], pool.name) <= k && (ops[i].Free? ==> ops[i].req.pool != pool.name)
    requires k <= MAX_INT32 && LU.Balanced(View(states[0], pool), k)
    ensures LU.Balanced(View(states[m], pool), k)
  {
    var views := seq(|states|, i requires 0 <= i < |states| => View(states[i], pool));
    var sizes := seq(|ops|, i requires 0 <= i < |ops| => Size(ops[i], pool.name));
    forall i | 0 <= i < |states| ensures LU.CountsFit(views[i]) && WellNamed(states[i].objects, ns) {
      HistorySound(LeastUsed, pools, states, ops, ns, i);
      TidyCountsFit(states[i].objects, pool, Listing(states[i].objects, pool.name));
    }
    forall i | 0 <= i < |ops|
      ensures LU.Served(views[i], sizes[i], views[i + 1]) || LU.SameUsage(views[i], views[i + 1])
    {
      OpServed(pools, states[i], ops[i], pool, ns);
    }
    LU.BoundedImbalance(views, sizes, k, m);
  }

  /** Single-port requests from an empty store never put two load balancers more than one port apart. */
  lemma SinglePortsWithinOne(pools: Pools, states: seq<Config>, ops: seq<Op>, ns: Namespaces, pool: Pool, m: nat)
    requires History(LeastUsed, pools, states, ops) && m < |states|
    requires PoolsAgree(pools, ns) && states[0].objects == map[]
    requires pool.name in pools && pools[pool.name] == pool && WellFormedRange(pool.portRange)
    requires forall i :: 0 <= i < |ops| ==>
               Size(ops[i], pool.name) <= 1 && (ops[i].Free? ==> ops[i].req.pool != pool.name)
    ensures LU.Balanced(View(states[m], pool), 1)
  {
    var items := Listing(states[0].objects, pool.name);
    assert Members(states[0].objects, pool.name) == {};
    assert |items| == |multiset(items)| == 0;
    LeastUsedStaysBalanced(pools, states, ops, ns, pool, 1, m);
  }
}
