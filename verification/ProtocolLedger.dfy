/** What every interleaving keeps about names and port ranges, and hence what the counting test and
    selection mean in every reachable state. */
module ProtocolLedger {
  import opened Types
  import Ledger
  import opened PortSearch
  import opened Operations
  import opened Protocol
  import opened ProtocolSafety
  import Runs

  /** Every pool some thread has read satisfies `ok`. */
  ghost predicate PoolsSeen(v: State, ok: Pool -> bool) {
    forall t :: t in v.threads ==>
      && (v.threads[t].pc.ReadLedger? ==> ok(v.threads[t].pc.pool))
      && (HasSnapshot(v.threads[t].pc) ==> ok(v.threads[t].pc.s.pool))
  }

  ghost predicate PoolsAll(v: State, ok: Pool -> bool) {
    forall p :: p in v.pools ==> ok(v.pools[p])
  }

  lemma SeenStep(strategy: Strategy, v: State, th: Thread, ans: Answer, ok: Pool -> bool)
    requires PoolsAll(v, ok)
    requires th.pc.ReadLedger? ==> ok(th.pc.pool)
    requires HasSnapshot(th.pc) ==> ok(th.pc.s.pool)
    ensures var pc := NextPc(strategy, v, th, ans);
            (pc.ReadLedger? ==> ok(pc.pool)) && (HasSnapshot(pc) ==> ok(pc.s.pool))
  {
    hide Select, PlanAt;
  }

  lemma {:induction false} SeenReached(strategy: Strategy, states: seq<State>, events: seq<Event>, ok: Pool -> bool,
                                       m: nat)
    requires Run(strategy, states, events) && m < |states|
    requires forall i :: 0 <= i < |states| ==> PoolsAll(states[i], ok)
    ensures PoolsSeen(states[m], ok)
  {
    if m > 0 {
      SeenReached(strategy, states, events, ok, m - 1);
      var v, e := states[m - 1], events[m - 1];
      if e.Step? {
        ThreadsAfter(strategy, v, e.t, e.ans);
        SeenStep(strategy, v, v.threads[e.t], e.ans, ok);
      }
    }
  }

  // ---------- Naming ----------

  lemma NamingStep(strategy: Strategy, v: State, e: Event, ns: Namespaces)
    requires Base(strategy, v) && Possible(v, e) && WellNamed(v.objects, ns)
    requires PoolsSeen(v, (q: Pool) => q.namespace == ns(q.name))
    ensures WellNamed(Exec(strategy, v, e).objects, ns)
  {
    match e
    case Outside(objects, pools) => ShrinkKeeps(v.objects, objects, ns);
    case Step(t, ans) =>
      var th := v.threads[t];
      ActStore(v, th, ans);
      if Creates(v, th, ans) {
        PlannedFresh(strategy, th);
        CreateKeeps(v.objects, th.pc.a, th.pc.s, ns);
      } else {
        ShrinkKeeps(v.objects, NextObjects(v, th, ans), ns);
      }
  }

  /** Naming invariant: as long as pools keep their namespaces, every interleaving stores each allocation
      under the key derived from its pool and pod name, labelled accordingly. */
  lemma {:induction false} NamingReached(strategy: Strategy, states: seq<State>, events: seq<Event>, ns: Namespaces,
                                         m: nat)
    requires Run(strategy, states, events) && m < |states|
    requires forall i :: 0 <= i < |states| ==> PoolsAgree(states[i].pools, ns)
    requires WellNamed(states[0].objects, ns)
    ensures WellNamed(states[m].objects, ns)
  {
    if m > 0 {
      NamingReached(strategy, states, events, ns, m - 1);
      BaseReached(strategy, states, events, m - 1);
      SeenReached(strategy, states, events, (q: Pool) => q.namespace == ns(q.name), m - 1);
      NamingStep(strategy, states[m - 1], events[m - 1], ns);
    }
  }

  /** In every reachable state the reconciler's paged two-label query and the allocator's duplicate
      check give the same answer. */
  lemma QueryAgreesEverywhere(strategy: Strategy, states: seq<State>, events: seq<Event>, ns: Namespaces, m: nat,
                              pool: string, podName: string, podNamespace: string)
    requires Run(strategy, states, events) && m < |states|
    requires forall i :: 0 <= i < |states| ==> PoolsAgree(states[i].pools, ns)
    requires WellNamed(states[0].objects, ns)
    ensures |LabelMatches(states[m].objects, pool, podName)| <= 1
    ensures (exists k :: && k in LabelMatches(states[m].objects, pool, podName)
                         && states[m].objects[k].ServesPod(podName, podNamespace))
            <==> Holds(states[m].objects, pool, podName, podNamespace)
  {
    NamingReached(strategy, states, events, ns, m);
    LabelQueryAgrees(states[m].objects, ns, pool, podName, podNamespace);
  }

  // ---------- Ranges ----------

  lemma RangeStep(strategy: Strategy, v: State, e: Event, pool: Pool)
    requires Base(strategy, v) && Possible(v, e) && InRange(v.objects, pool)
    requires PoolsSeen(v, (q: Pool) => q.name == pool.name ==> q == pool)
    ensures InRange(Exec(strategy, v, e).objects, pool)
  {
    match e
    case Outside(objects, pools) => ShrinkKeeps(v.objects, objects, _ => "");
    case Step(t, ans) =>
      var th := v.threads[t];
      ActStore(v, th, ans);
      if Creates(v, th, ans) {
        PlannedFresh(strategy, th);
        CreateInRange(v.objects, th.pc.a, th.pc.s, pool);
      } else {
        ShrinkKeeps(v.objects, NextObjects(v, th, ans), _ => "");
      }
  }

  lemma {:induction false} RangeReached(strategy: Strategy, states: seq<State>, events: seq<Event>, pool: Pool, m: nat)
    requires Run(strategy, states, events) && m < |states|
    requires forall i :: 0 <= i < |states| ==> PoolsAll(states[i], (q: Pool) => q.name == pool.name ==> q == pool)
    requires InRange(states[0].objects, pool)
    ensures InRange(states[m].objects, pool)
  {
    if m > 0 {
      RangeReached(strategy, states, events, pool, m - 1);
      BaseReached(strategy, states, events, m - 1);
      SeenReached(strategy, states, events, (q: Pool) => q.name == pool.name ==> q == pool, m - 1);
      RangeStep(strategy, states[m - 1], events[m - 1], pool);
    }
  }

  /** With a fixed, well-formed spec the pool's ledger is tidy in every reachable state. */
  lemma TidyReached(strategy: Strategy, states: seq<State>, events: seq<Event>, pool: Pool, m: nat)
    requires Run(strategy, states, events) && PortsAgree(states[0]) && m < |states|
    requires forall i :: 0 <= i < |states| ==> PoolsAll(states[i], (q: Pool) => q.name == pool.name ==> q == pool)
    requires InRange(states[0].objects, pool) && WellFormedRange(pool.portRange)
    ensures Runs.Tidy(states[m].objects, pool)
  {
    InvReached(strategy, states, events, m);
    RangeReached(strategy, states, events, pool, m);
  }

  /** The counting test is exact in every reachable state of every interleaving, deletions included: for a
      pool whose spec stays fixed and well formed, a load balancer passes exactly when it has enough free
      ports, and selection fails exactly when none has. */
  lemma ExactEverywhere(strategy: Strategy, states: seq<State>, events: seq<Event>, pool: Pool, m: nat,
                        index: nat, items: seq<Allocation>, n: nat)
    requires Run(strategy, states, events) && PortsAgree(states[0]) && m < |states|
    requires forall i :: 0 <= i < |states| ==> PoolsAll(states[i], (q: Pool) => q.name == pool.name ==> q == pool)
    requires InRange(states[0].objects, pool) && WellFormedRange(pool.portRange)
    requires Ledger.IsListing(items, states[m].objects, pool.name) && 0 < n <= MAX_INT32
    ensures var s := Snapshot(pool, items);
            && (forall i :: 0 <= i < |pool.loadBalancers| ==>
                  (HasAvailable(s, pool.loadBalancers[i].id, n) <==> |FreePorts(s, pool.loadBalancers[i].id)| >= n))
            && (Select(strategy, index, s, n).Err? <==>
                  forall i :: 0 <= i < |pool.loadBalancers| ==> |FreePorts(s, pool.loadBalancers[i].id)| < n)
  {
    TidyReached(strategy, states, events, pool, m);
    Runs.ExhaustionIsReal(strategy, index, states[m].objects, pool, items, n);
  }
}
