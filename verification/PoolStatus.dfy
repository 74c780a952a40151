/** The pool reconciler's view of the ledger: per-load-balancer counts and the conflict detector, and how
    far both agree with the allocator. */
module PoolStatus {
  import opened Types
  import opened Ledger
  import opened PortSearch
  import Operations
  import Runs
  import opened Protocol
  import ProtocolSafety
  import ProtocolLedger
  import Allocator
  import RR = RoundRobin

  // ---------- Reported counts ----------

  datatype LBStatus = LBStatus(allocatedPorts: seq<Allocation>, totalPorts: int, allocatedCount: int,
                               prewarmedCount: int, availableCount: int)

  predicate Binds(a: Allocation, id: string) { exists j :: 0 <= j < |a.bindings| && a.bindings[j].lb.id == id }

  /** The allocations with a binding on `id`, in list order. */
  function OnBalancer(items: seq<Allocation>, id: string): seq<Allocation> {
    if items == [] then []
    else
      var last := items[|items| - 1];
      OnBalancer(items[..|items| - 1], id) + if Binds(last, id) then [last] else []
  }

  /** The filter works piece by piece, in list order. */
  lemma {:induction false} FilterConcat(xs: seq<Allocation>, ys: seq<Allocation>, id: string)
    ensures OnBalancer(xs + ys, id) == OnBalancer(xs, id) + OnBalancer(ys, id)
    decreases |ys|
  {
    hide Binds;
    if ys == [] {
      assert xs + ys == xs;
    } else {
      var rest := ys[..|ys| - 1];
      assert (xs + ys)[..|xs + ys| - 1] == xs + rest;
      FilterConcat(xs, rest, id);
    }
  }

  /** A single allocation passes the filter exactly if some binding of it is on `id`. */
  lemma FilterSingle(a: Allocation, id: string)
    ensures OnBalancer([a], id) == if exists b :: b in a.bindings && b.lb.id == id then [a] else []
  {
    assert [a][..0] == [];
    if b :| b in a.bindings && b.lb.id == id {
      assert Binds(a, id);
    }
    hide Binds;
  }

  lemma BindsIsCount(a: Allocation, id: string)
    ensures Binds(a, id) <==> CountOn(a.bindings, id) > 0
  {
    CountIsCardinality(a.bindings, id);
    var slots := SlotsOn(a.bindings, id);
    if Binds(a, id) {
      var j :| 0 <= j < |a.bindings| && a.bindings[j].lb.id == id;
      assert j in slots;
    } else {
      assert slots == {};
    }
  }

  lemma NextOnBalancer(items: seq<Allocation>, i: nat, id: string)
    requires i < |items|
    ensures var bs := items[i].bindings;
            OnBalancer(items[..i + 1], id)
            == OnBalancer(items[..i], id) + (if CountOn(bs[..|bs|], id) > 0 then [items[i]] else [])
  {
    assert items[..i + 1][..i] == items[..i] && items[i].bindings[..|items[i].bindings|] == items[i].bindings;
    BindsIsCount(items[i], id);
  }

  /** The inner loop of `CalculateLBStatus`, over the bindings of one allocation. */
  method CollectBindings(lb: LoadBalancerRef, bindings: seq<PortBinding>, allocatedPorts: int, ghost before: nat)
    returns (hasLBBinding: bool, count: int)
    requires allocatedPorts == Wrap32(before)
    ensures hasLBBinding <==> CountOn(bindings[..|bindings|], lb.id) > 0
    ensures count == Wrap32(before + CountOn(bindings[..|bindings|], lb.id))
  {
    hide Wrap32;
    hasLBBinding, count := false, allocatedPorts;
    for j := 0 to |bindings|
      invariant hasLBBinding <==> CountOn(bindings[..j], lb.id) > 0
      invariant count == Wrap32(before + CountOn(bindings[..j], lb.id))
    {
      Allocator.NextBinding(bindings, j, lb.id);
      if bindings[j].lb.id == lb.id {
        hasLBBinding := true;
        WrapSum(before + CountOn(bindings[..j], lb.id), 1);
        count := Wrap32(count + 1);
      }
    }
  }

  /** The outer loop of `CalculateLBStatus`: the filter and the 32-bit counter. */
  method CollectAllocated(lb: LoadBalancerRef, items: seq<Allocation>)
    returns (lbAllocations: seq<Allocation>, allocatedPorts: int)
    ensures lbAllocations == OnBalancer(items, lb.id)
    ensures allocatedPorts == Wrap32(Usage(items, lb.id))
  {
    lbAllocations, allocatedPorts := [], 0;
    for i := 0 to |items|
      invariant lbAllocations == OnBalancer(items[..i], lb.id)
      invariant allocatedPorts == Wrap32(Usage(items[..i], lb.id))
    {
      var hasLBBinding, count := CollectBindings(lb, items[i].bindings, allocatedPorts, Usage(items[..i], lb.id));
      Allocator.NextAllocation(items, i, lb.id);
      NextOnBalancer(items, i, lb.id);
      allocatedPorts := count;
      if hasLBBinding {
        lbAllocations := lbAllocations + [items[i]];
      }
    }
    assert items[..|items|] == items;
  }

  /** Every field of the entry of load balancer `id`. */
  predicate Reports(status: LBStatus, pool: Pool, items: seq<Allocation>, id: string) {
    && status.allocatedPorts == OnBalancer(items, id)
    && status.allocatedCount == Wrap32(Usage(items, id))
    && status.totalPorts == Wrap32(Capacity(pool.portRange))
    && status.prewarmedCount == (if pool.prewarm then pool.bufferSize else 0)
    && status.availableCount == AvailableCount(Snapshot(pool, items), id)
  }

  method CalculateLBStatus(pool: Pool, lb: LoadBalancerRef, items: seq<Allocation>) returns (status: LBStatus)
    ensures Reports(status, pool, items, lb.id)
  {
    var lbAllocations, allocatedPorts := CollectAllocated(lb, items);
    var r := pool.portRange;
    var totalPorts := Wrap32(Wrap32(r.max - r.min) + 1);
    totalPorts := Wrap32(totalPorts - Wrap32(|r.excluded|));
    var prewarmedCount := if pool.prewarm then pool.bufferSize else 0;
    var availableCount := Wrap32(Wrap32(totalPorts - allocatedPorts) - prewarmedCount);
    CountsInSteps(r, Usage(items, lb.id), prewarmedCount);
    if availableCount < 0 { availableCount := 0; }
    status := LBStatus(lbAllocations, totalPorts, allocatedPorts, prewarmedCount, availableCount);
  }

  lemma CountsInSteps(r: PortRange, usage: nat, prewarmedCount: int)
    ensures var totalPorts := Wrap32(Wrap32(Wrap32(r.max - r.min) + 1) - Wrap32(|r.excluded|));
            && totalPorts == Wrap32(Capacity(r))
            && Wrap32(Wrap32(totalPorts - Wrap32(usage)) - prewarmedCount) ==
              Wrap32(Capacity(r) - usage - prewarmedCount)
  {
    Allocator.CapacityInSteps(r, usage);
    WrapSum(Capacity(r) - usage, prewarmedCount);
  }

  /** The available count as reported, from the exact counts. */
  function AvailableCount(s: Snapshot, id: string): int {
    var buffer := if s.pool.prewarm then s.pool.bufferSize else 0;
    var left := Wrap32(Capacity(s.pool.portRange) - Usage(s.items, id) - buffer);
    if left < 0 then 0 else left
  }

  /** The report is never negative. Without prewarming it agrees with the allocator's test on every ledger and
      range, overflow included; with a buffer it agrees with the test for that many more ports, counts
      permitting, and is what remains of the range less exclusions, usage and buffer. */
  lemma AvailableAgreesWithTest(s: Snapshot, id: string, n: nat)
    requires 0 < n <= MAX_INT32
    ensures AvailableCount(s, id) >= 0
    ensures !s.pool.prewarm ==> (AvailableCount(s, id) >= n <==> HasAvailable(s, id, n))
    ensures var r := s.pool.portRange;
            var left := r.max - r.min + 1 - |r.excluded| - Usage(s.items, id);
            s.pool.prewarm && s.pool.bufferSize >= 0 && Fits32(left) && Fits32(left - s.pool.bufferSize) ==>
              && AvailableCount(s, id) == (if left > s.pool.bufferSize then left - s.pool.bufferSize else 0)
              && (n + s.pool.bufferSize <= MAX_INT32 ==>
                    (AvailableCount(s, id) >= n <==> HasAvailable(s, id, n + s.pool.bufferSize)))
  {
  }

  /** On every tidy ledger the report is the truth: allocated and available ports add up to the total, and
      the available count is the number of free ports. */
  lemma ReportIsExact(objects: Objects, pool: Pool, items: seq<Allocation>, id: string)
    requires Runs.Tidy(objects, pool) && IsListing(items, objects, pool.name) && !pool.prewarm
    ensures var s := Snapshot(pool, items);
            && AvailableCount(s, id) == |FreePorts(s, id)|
            && Wrap32(Usage(items, id)) == |UsedPorts(items, id)|
            && Wrap32(Usage(items, id)) + AvailableCount(s, id) == Wrap32(Capacity(pool.portRange))
  {
    var s := Snapshot(pool, items);
    Runs.TidyListing(objects, pool, items, id);
    CountingTestExact(s, id);
    Pigeonhole(Bindings(items), id);
    SpanSize(pool.portRange.min, pool.portRange.max);
    ExcludedSize(pool.portRange);
  }

  /** Rewrites the entry of every listed load balancer and leaves stale entries in place. */
  method UpdatePoolStatus(pool: Pool, items: seq<Allocation>, before: map<string, LBStatus>)
    returns (after: map<string, LBStatus>)
    ensures forall lb :: lb in pool.loadBalancers ==> lb.id in after && Reports(after[lb.id], pool, items, lb.id)
    ensures forall id :: (forall lb :: lb in pool.loadBalancers ==> lb.id != id) ==>
              (id in after <==> id in before) && (id in before ==> after[id] == before[id])
  {
    after := before;
    for i := 0 to |pool.loadBalancers|
      invariant forall lb :: lb in pool.loadBalancers[..i] ==>
                  lb.id in after && Reports(after[lb.id], pool, items, lb.id)
      invariant forall id :: (forall lb :: lb in pool.loadBalancers ==> lb.id != id) ==>
        (id in after <==> id in before) && (id in before ==> after[id] == before[id])
    {
      var lb := pool.loadBalancers[i];
      var status := CalculateLBStatus(pool, lb, items);
      after := after[lb.id := status];
    }
  }

  // ---------- The conflict detector ----------

  function AllPorts(bs: seq<PortBinding>): set<int> { set j | 0 <= j < |bs| :: bs[j].lbPort }

  /** No port number appears twice, on whatever load balancer. */
  ghost predicate AllPortsDistinct(bs: seq<PortBinding>) {
    forall i, j :: 0 <= i < j < |bs| ==> bs[i].lbPort != bs[j].lbPort
  }

  lemma OneMorePort(bs: seq<PortBinding>, b: PortBinding)
    ensures AllPorts(bs + [b]) == AllPorts(bs) + {b.lbPort}
    ensures AllPortsDistinct(bs + [b]) <==> AllPortsDistinct(bs) && b.lbPort !in AllPorts(bs)
  {
    var more := bs + [b];
    assert forall j :: 0 <= j < |bs| ==> more[j] == bs[j];
    assert more[|bs|] == b;
  }

  lemma PrefixConflict(bs: seq<PortBinding>, n: nat)
    requires n <= |bs| && !AllPortsDistinct(bs[..n])
    ensures !AllPortsDistinct(bs)
  {
    var i, j :| 0 <= i < j < n && bs[..n][i].lbPort == bs[..n][j].lbPort;
    assert bs[i].lbPort == bs[j].lbPort;
  }

  lemma BindingsPrefix(items: seq<Allocation>, i: nat, j: nat)
    requires i < |items| && j <= |items[i].bindings|
    ensures Bindings(items[..i]) + items[i].bindings[..j] <= Bindings(items)
  {
    var pre := items[..i + 1];
    assert pre[..i] == items[..i];
    assert items == pre + items[i + 1..];
    BindingsConcat(pre, items[i + 1..]);
  }

  /** True exactly when some port number is bound twice, no matter on which load balancers. */
  method HasPortConflicts(items: seq<Allocation>) returns (conflict: bool)
    ensures conflict <==> !AllPortsDistinct(Bindings(items))
  {
    var lbPorts := {};
    for i := 0 to |items|
      invariant lbPorts == AllPorts(Bindings(items[..i])) && AllPortsDistinct(Bindings(items[..i]))
    {
      ghost var before := Bindings(items[..i]);
      var bindings := items[i].bindings;
      assert before + bindings[..0] == before;
      for j := 0 to |bindings|
        invariant lbPorts == AllPorts(before + bindings[..j]) && AllPortsDistinct(before + bindings[..j])
      {
        assert before + bindings[..j + 1] == before + bindings[..j] + [bindings[j]];
        OneMorePort(before + bindings[..j], bindings[j]);
        if bindings[j].lbPort in lbPorts {
          BindingsPrefix(items, i, j + 1);
          ghost var n := |before + bindings[..j + 1]|;
          assert Bindings(items)[..n] == before + bindings[..j + 1];
          PrefixConflict(Bindings(items), n);
          return true;
        }
        lbPorts := lbPorts + {bindings[j].lbPort};
      }
      assert bindings[..|bindings|] == bindings;
      assert items[..i + 1][..i] == items[..i];
    }
    assert items[..|items|] == items;
    return false;
  }

  /** A clean report makes counting and the set view agree on every load balancer. */
  lemma NoConflictCountsExactly(items: seq<Allocation>, id: string)
    requires AllPortsDistinct(Bindings(items))
    ensures |UsedPorts(items, id)| == Usage(items, id)
  {
    Pigeonhole(Bindings(items), id);
  }

  /** On a ledger without double bookings the detector fires exactly on a port number used on two
      different load balancers, which the shared range makes normal. */
  lemma DetectorOnSoundLedger(items: seq<Allocation>)
    requires UniqueItems(items)
    ensures !AllPortsDistinct(Bindings(items)) <==>
            exists b, c :: b in Bindings(items) && c in Bindings(items) && b.lbPort == c.lbPort && b.lb.id != c.lb.id
  {
    hide UniqueItems, Bindings;
    var bs := Bindings(items);
    if !AllPortsDistinct(bs) {
      var i, j :| 0 <= i < j < |bs| && bs[i].lbPort == bs[j].lbPort;
      UniqueItemsDistinct(items, bs[i].lb.id);
      assert bs[i] in bs && bs[j] in bs;
    }
    if b, c :| b in bs && c in bs && b.lbPort == c.lbPort && b.lb.id != c.lb.id {
      var i :| 0 <= i < |bs| && bs[i] == b;
      var j :| 0 <= j < |bs| && bs[j] == c;
      if i < j { assert bs[i].lbPort == bs[j].lbPort; } else { assert bs[j].lbPort == bs[i].lbPort; }
    }
  }

  const TWO_BALANCERS := Pool("p", "", [LoadBalancerRef("x", "", "", ""), LoadBalancerRef("y", "", "", "")],
                              PortRange(1, 1, []), false, 0)

  const THE_POOL: Operations.Pools := map["p" := TWO_BALANCERS]

  /** What one port for pod `name` allocates in the pool of two load balancers. */
  ghost function OnePort(strategy: Strategy, objects: Objects, cursors: Operations.Cursors,
                         name: string): Operations.Outcome {
    Operations.Attempt(strategy, objects, THE_POOL, cursors, Request("p", "", name, "n"), Runs.ONE_PORT)
  }

  /** A successful attempt for one port binds port 1, on a load balancer where it is not in use. */
  lemma BindsPortOne(strategy: Strategy, objects: Objects, cursors: Operations.Cursors, name: string)
    returns (a: Allocation, b: PortBinding)
    requires OnePort(strategy, objects, cursors, name).result.Ok?
    ensures OnePort(strategy, objects, cursors, name).result == Ok(a) && a.bindings == [b] && a.poolLabel == "p"
    ensures b.lbPort == 1 && b.lb in TWO_BALANCERS.loadBalancers && 1 !in UsedPorts(Listing(objects, "p"), b.lb.id)
  {
    var req := Request("p", "", name, "n");
    var s;
    a, s := Operations.AttemptCreates(strategy, objects, THE_POOL, cursors, req, Runs.ONE_PORT, _ => "");
    Operations.PlanCounts(strategy, RR.CursorOf(cursors, Operations.CursorKey(s.pool)), s, req, Runs.ONE_PORT);
    b := a.bindings[0];
  }

  /** While port 1 is taken on one load balancer only, the other one has room. */
  lemma OtherHasRoom(objects: Objects, a: Allocation, b: PortBinding)
    requires objects == map[a.ObjectKey() := a] && a.bindings == [b] && a.poolLabel == "p"
             && b.lb in TWO_BALANCERS.loadBalancers
    ensures Runs.HasRoom(objects, TWO_BALANCERS, 1)
  {
    var items := Listing(objects, "p");
    var j := if b.lb.id == "x" then 1 else 0;
    var s, id := Snapshot(TWO_BALANCERS, items), TWO_BALANCERS.loadBalancers[j].id;
    assert objects[a.ObjectKey()] == a;
    assert Members(objects, "p") == {a};
    ListOrderIrrelevant(items, [a], id);
    assert [a][..0] == [] && Bindings([a]) == [b];
    assert UsedPorts(items, id) == {};
    assert 1 in FreePorts(s, id);
    assert {1} <= FreePorts(s, id);
    SetDifferenceSize(FreePorts(s, id), {1});
  }

  /** Two single-port requests fill a pool of two load balancers with one port each, under every strategy, and
      the detector fires on the sound ledger they leave. */
  lemma DetectorFires(strategy: Strategy)
    ensures var first := OnePort(strategy, map[], map[], "one");
            var second := OnePort(strategy, first.objects, first.cursors, "two");
            && first.result.Ok? && second.result.Ok? && UniquePorts(second.objects)
            && forall items :: IsListing(items, second.objects, "p") ==> !AllPortsDistinct(Bindings(items))
  {
    hide Operations.Attempt, UniquePorts, Operations.InRange, FreePorts;
    var ns := (_: string) => "";
    Runs.FirstServed(strategy, THE_POOL, Request("p", "", "one", "n"), Runs.ONE_PORT, ns, 1);
    var first := OnePort(strategy, map[], map[], "one");
    var a, b := BindsPortOne(strategy, map[], map[], "one");
    Operations.AttemptEffect(strategy, map[], THE_POOL, map[], Request("p", "", "one", "n"), Runs.ONE_PORT, ns);
    OtherHasRoom(first.objects, a, b);
    var req := Request("p", "", "two", "n");
    assert AllocationName("p", "one") == "p-one" && AllocationName("p", "two") == "p-two";
    Runs.ServedExactly(strategy, first.objects, THE_POOL, first.cursors, req, Runs.ONE_PORT, ns);
    var c, d := BindsPortOne(strategy, first.objects, first.cursors, "two");
    Operations.AttemptEffect(strategy, first.objects, THE_POOL, first.cursors, req, Runs.ONE_PORT, ns);
    Operations.AttemptKeeps(strategy, first.objects, THE_POOL, first.cursors, req, Runs.ONE_PORT, ns);
    var second := OnePort(strategy, first.objects, first.cursors, "two");
    InUse(first.objects, a, b);
    forall items | IsListing(items, second.objects, "p") ensures !AllPortsDistinct(Bindings(items)) {
      BothListed(second.objects, items, a, b, c, d);
    }
  }

  lemma InUse(objects: Objects, a: Allocation, b: PortBinding)
    requires a.ObjectKey() in objects && objects[a.ObjectKey()] == a && a.poolLabel == "p" && a.bindings == [b]
    ensures b.lbPort in UsedPorts(Listing(objects, "p"), b.lb.id)
  {
    ListingCoversOne(Listing(objects, "p"), objects, a, b);
  }

  lemma ListingCoversOne(items: seq<Allocation>, objects: Objects, a: Allocation, b: PortBinding)
    requires IsListing(items, objects, "p")
    requires a.ObjectKey() in objects && objects[a.ObjectKey()] == a && a.poolLabel == "p" && a.bindings == [b]
    ensures b in Bindings(items) && b.lbPort in UsedPorts(items, b.lb.id)
  {
    ListingMember(items, objects, "p", a);
    assert a.bindings[0] == b;
    BindingsMember(items, b);
    var j :| 0 <= j < |Bindings(items)| && Bindings(items)[j] == b;
  }

  lemma BothListed(objects: Objects, items: seq<Allocation>, a: Allocation, b: PortBinding, c: Allocation,
                   d: PortBinding)
    requires KeysAgree(objects) && UniquePorts(objects) && IsListing(items, objects, "p")
    requires a.ObjectKey() in objects && objects[a.ObjectKey()] == a && a.poolLabel == "p" && a.bindings == [b]
    requires c.ObjectKey() in objects && objects[c.ObjectKey()] == c && c.poolLabel == "p" && c.bindings == [d]
    requires b.lbPort == d.lbPort && b.lb.id != d.lb.id
    ensures !AllPortsDistinct(Bindings(items))
  {
    ListingCoversOne(items, objects, a, b);
    ListingCoversOne(items, objects, c, d);
    ListingUnique(items, objects, "p");
    DetectorOnSoundLedger(items);
  }

  /** In a pool whose load balancers all carry one identifier, no sound ledger makes the detector fire. */
  lemma SingleBalancerNeverConflicts(objects: Objects, pool: Pool, items: seq<Allocation>, id: string)
    requires KeysAgree(objects) && UniquePorts(objects) && Operations.InRange(objects, pool)
    requires IsListing(items, objects, pool.name)
    requires forall lb :: lb in pool.loadBalancers ==> lb.id == id
    ensures AllPortsDistinct(Bindings(items))
  {
    ListingUnique(items, objects, pool.name);
    forall b | b in Bindings(items) ensures b.lb.id == id {
      BindingsMember(items, b);
      var a :| a in items && b in a.bindings;
      ListingMember(items, objects, pool.name, a);
      var i :| 0 <= i < |a.bindings| && a.bindings[i] == b;
      assert objects[a.ObjectKey()].bindings[i].lb in pool.loadBalancers;
    }
    DetectorOnSoundLedger(items);
  }

  // ---------- In every reachable state ----------

  /** The report of a pool with a fixed, well-formed spec and no prewarming is exact in every state of every
      interleaving; if its load balancers share one identifier, the detector stays silent too. */
  lemma ReportExactEverywhere(strategy: Strategy, states: seq<State>, events: seq<Event>, pool: Pool, m: nat,
                              items: seq<Allocation>, id: string)
    requires Run(strategy, states, events) && ProtocolSafety.PortsAgree(states[0]) && m < |states|
    requires forall i :: 0 <= i < |states| ==>
               ProtocolLedger.PoolsAll(states[i], (q: Pool) => q.name == pool.name ==> q == pool)
    requires Operations.InRange(states[0].objects, pool) && WellFormedRange(pool.portRange) && !pool.prewarm
    requires IsListing(items, states[m].objects, pool.name)
    ensures AvailableCount(Snapshot(pool, items), id) == |FreePorts(Snapshot(pool, items), id)|
    ensures Wrap32(Usage(items, id)) + AvailableCount(Snapshot(pool, items), id) == Wrap32(Capacity(pool.portRange))
    ensures (forall lb :: lb in pool.loadBalancers ==> lb.id == id) ==> AllPortsDistinct(Bindings(items))
  {
    ProtocolLedger.TidyReached(strategy, states, events, pool, m);
    ReportIsExact(states[m].objects, pool, items, id);
    if forall lb :: lb in pool.loadBalancers ==> lb.id == id {
      SingleBalancerNeverConflicts(states[m].objects, pool, items, id);
    }
  }
}
