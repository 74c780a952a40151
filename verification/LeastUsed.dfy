/** Least-used choice of a load balancer, and the balance it keeps over whole runs. */
module LeastUsed {
  import opened Types
  import opened Ledger
  import PortSearch

  /** Which load balancers of the pool pass the counting test for `n` ports. */
  function Avail(s: Snapshot, n: int): seq<bool> {
    seq(|s.pool.loadBalancers|,
        i requires 0 <= i < |s.pool.loadBalancers| => PortSearch.HasAvailable(s, s.pool.loadBalancers[i].id, n))
  }

  /** The 32-bit usage counter of each load balancer of the pool. */
  function Usages(s: Snapshot): seq<int> {
    seq(|s.pool.loadBalancers|,
        i requires 0 <= i < |s.pool.loadBalancers| => Wrap32(Usage(s.items, s.pool.loadBalancers[i].id)))
  }

  datatype Best = Best(minUsage: int, pos: Option<nat>)

  /** The running minimum after the first `k` load balancers. */
  function Scan(usages: seq<int>, avail: seq<bool>, k: nat): (best: Best)
    requires k <= |usages| == |avail|
    ensures best.pos.Some? ==> best.pos.value < k && avail[best.pos.value]
  {
    if k == 0 then Best(MAX_INT32, None)
    else
      var best := Scan(usages, avail, k - 1);
      if usages[k - 1] < best.minUsage && avail[k - 1] then Best(usages[k - 1], Some(k - 1)) else best
  }

  function Pick(s: Snapshot, n: int): Option<nat> {
    Scan(Usages(s), Avail(s, n), |s.pool.loadBalancers|).pos
  }

  lemma {:induction false} ScanMinimum(usages: seq<int>, avail: seq<bool>, k: nat)
    requires k <= |usages| == |avail|
    ensures var best := Scan(usages, avail, k);
            match best.pos
            case Some(p) =>
              && p < k && avail[p] && best.minUsage == usages[p] < MAX_INT32
              && (forall q :: 0 <= q < k && avail[q] ==> usages[p] <= usages[q])
              && (forall q :: 0 <= q < p && avail[q] ==> usages[p] < usages[q])
            case None =>
              && best.minUsage == MAX_INT32
              && forall q :: 0 <= q < k && avail[q] ==> usages[q] >= MAX_INT32
  {
    if k > 0 { ScanMinimum(usages, avail, k - 1); }
  }

  /** No counter of the pool overflows. */
  ghost predicate CountsFit(s: Snapshot) {
    forall i :: 0 <= i < |s.pool.loadBalancers| ==>
      var u := Usage(s.items, s.pool.loadBalancers[i].id);
      u < MAX_INT32 && Fits32(PortSearch.Capacity(s.pool.portRange) - u)
  }

  function UsageAt(s: Snapshot, i: nat): nat
    requires i < |s.pool.loadBalancers|
  {
    Usage(s.items, s.pool.loadBalancers[i].id)
  }

  /** Because one range is shared, the choice is the first load balancer of least usage among all of
      them, and it fails exactly when not even that one has room. */
  lemma PickGlobalMinimum(s: Snapshot, n: int)
    requires CountsFit(s) && Fits32(n)
    ensures match Pick(s, n)
            case Some(p) =>
              && p < |s.pool.loadBalancers|
              && PortSearch.HasAvailable(s, s.pool.loadBalancers[p].id, n)
              && (forall q :: 0 <= q < |s.pool.loadBalancers| ==> UsageAt(s, p) <= UsageAt(s, q))
              && (forall q :: 0 <= q < p ==> UsageAt(s, p) < UsageAt(s, q))
            case None =>
              forall q :: 0 <= q < |s.pool.loadBalancers| ==> !PortSearch.HasAvailable(s, s.pool.loadBalancers[q].id, n)
  {
    var usages, avail := Usages(s), Avail(s, n);
    ScanMinimum(usages, avail, |usages|);
    forall i | 0 <= i < |usages|
      ensures usages[i] == UsageAt(s, i) < MAX_INT32
      ensures PortSearch.HasAvailable(s, s.pool.loadBalancers[i].id, n) <==> avail[i]
      ensures avail[i] <==> UsageAt(s, i) <= PortSearch.Capacity(s.pool.portRange) - n
    {
      assert avail[i] == PortSearch.HasAvailable(s, s.pool.loadBalancers[i].id, n);
    }
  }

  // ---------- Runs ----------

  /** `next` is what the ledger of `s` looks like after one least-used request for `n` ports:
      a new allocation of `n` bindings on the chosen load balancer, or no change when none is chosen. */
  ghost predicate Served(s: Snapshot, n: nat, next: Snapshot) {
    && next.pool == s.pool
    && match Pick(s, n)
       case None => multiset(next.items) == multiset(s.items)
       case Some(p) =>
         exists a :: && multiset(next.items) == multiset(s.items) + multiset{a}
                     && p < |s.pool.loadBalancers|
                     && |a.bindings| == n
                     && AllOn(a.bindings, s.pool.loadBalancers[p].id)
  }

  predicate AllOn(bs: seq<PortBinding>, id: string) { forall i :: 0 <= i < |bs| ==> bs[i].lb.id == id }

  /** No two load balancers of the pool differ by more than `k` ports. */
  ghost predicate Balanced(s: Snapshot, k: int) {
    forall i, j :: 0 <= i < |s.pool.loadBalancers| && 0 <= j < |s.pool.loadBalancers| ==>
      UsageAt(s, i) - UsageAt(s, j) <= k
  }

  lemma CountAllOn(bs: seq<PortBinding>, id: string, other: string)
    requires AllOn(bs, id)
    ensures CountOn(bs, other) == if other == id then |bs| else 0
  {
  }

  lemma UsageAdded(items: seq<Allocation>, a: Allocation, next: seq<Allocation>, id: string)
    requires multiset(next) == multiset(items) + multiset{a}
    ensures Usage(next, id) == Usage(items, id) + CountOn(a.bindings, id)
  {
    var direct := items + [a];
    assert multiset(next) == multiset(direct);
    ListOrderIrrelevant(next, direct, id);
    assert direct[..|items|] == items;
    CountConcat(Bindings(items), a.bindings, id);
  }

  lemma ServedUsage(s: Snapshot, n: nat, next: Snapshot, i: nat)
    requires Served(s, n, next) && i < |s.pool.loadBalancers|
    ensures var id := s.pool.loadBalancers[i].id;
            UsageAt(next, i) == UsageAt(s, i) +
              match Pick(s, n)
              case Some(p) => if p < |s.pool.loadBalancers| && id == s.pool.loadBalancers[p].id then n else 0
              case None => 0
  {
    var id := s.pool.loadBalancers[i].id;
    match Pick(s, n)
    case None => ListOrderIrrelevant(next.items, s.items, id);
    case Some(p) =>
      var a :| && multiset(next.items) == multiset(s.items) + multiset{a}
               && |a.bindings| == n && AllOn(a.bindings, s.pool.loadBalancers[p].id);
      UsageAdded(s.items, a, next.items, id);
      CountAllOn(a.bindings, s.pool.loadBalancers[p].id, id);
  }

  lemma ServedBalanced(s: Snapshot, n: nat, next: Snapshot, k: nat)
    requires CountsFit(s) && Served(s, n, next) && n <= k && Fits32(n)
    requires Balanced(s, k)
    ensures Balanced(next, k)
  {
    PickGlobalMinimum(s, n);
    forall i, j | 0 <= i < |s.pool.loadBalancers| && 0 <= j < |s.pool.loadBalancers|
      ensures UsageAt(next, i) - UsageAt(next, j) <= k
    {
      ServedUsage(s, n, next, i);
      ServedUsage(s, n, next, j);
    }
  }

  ghost predicate SameUsage(s: Snapshot, next: Snapshot) {
    next.pool == s.pool && forall i :: 0 <= i < |s.pool.loadBalancers| ==> UsageAt(next, i) == UsageAt(s, i)
  }

  /** A run without releases: from each state to the next, a request for `sizes[i]` ports is served,
      or an operation leaves the pool's usage as it is. */
  ghost predicate ServedRun(states: seq<Snapshot>, sizes: seq<nat>) {
    && |states| == |sizes| + 1
    && (forall i :: 0 <= i < |states| ==> CountsFit(states[i]))
    && (forall i :: 0 <= i < |sizes| ==>
      Served(states[i], sizes[i], states[i + 1]) || SameUsage(states[i], states[i + 1]))
  }

  /** Bounded imbalance: starting within `k`, requests of at most `k` ports never push any two load
      balancers more than `k` ports apart. */
  lemma {:induction false} BoundedImbalance(states: seq<Snapshot>, sizes: seq<nat>, k: nat, m: nat)
    requires ServedRun(states, sizes) && k <= MAX_INT32 && m < |states|
    requires forall i :: 0 <= i < |sizes| ==> sizes[i] <= k
    requires Balanced(states[0], k)
    ensures Balanced(states[m], k)
  {
    if m > 0 {
      BoundedImbalance(states, sizes, k, m - 1);
      if Served(states[m - 1], sizes[m - 1], states[m]) {
        ServedBalanced(states[m - 1], sizes[m - 1], states[m], k);
      }
    }
  }
}
