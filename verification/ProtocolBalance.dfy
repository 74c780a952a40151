/** Least-used placement stays balanced in every interleaving without releases in the pool. */
module ProtocolBalance {
  import opened Types
  import Ledger
  import PortSearch
  import opened Operations
  import opened Protocol
  import opened ProtocolSafety
  import opened ProtocolRelease
  import opened ProtocolAtomicity
  import ProtocolLedger
  import ProtocolLinear
  import opened Runs
  import LU = LeastUsed

  /** The pool's ledger in state `v`. */
  ghost function Shown(v: State, pool: Pool): Snapshot { Snapshot(pool, Ledger.Listing(v.objects, pool.name)) }

  /** How many ports an event adds to the pool. */
  ghost function Added(v: State, e: Event, pool: string): nat {
    if e.Step? && e.t in v.threads && Creates(v, v.threads[e.t], e.ans) && v.threads[e.t].call.req.pool == pool
    then |Ports(v.threads[e.t].call)| else 0
  }

  /** The create of an interleaved call serves a least-used request on the current ledger. */
  lemma CreateServes(v: State, th: Thread, ans: Answer, pool: Pool)
    requires LocalOk(LeastUsed, th) && ReadsCurrent(v, th) && Ledger.KeysAgree(v.objects) && PoolsNamed(v.pools)
    requires Creates(v, th, ans) && pool.name in v.pools && v.pools[pool.name] == pool
    ensures var before := Snapshot(pool, Ledger.Listing(v.objects, pool.name));
            var after := Snapshot(pool, Ledger.Listing(NextObjects(v, th, ans), pool.name));
            var n := if th.call.req.pool == pool.name then |Ports(th.call)| else 0;
            LU.Served(before, n, after) || LU.SameUsage(before, after)
  {
    hide Plan, LU.Served, LU.SameUsage;
    var s := Snapshot(th.pc.s.pool, Ledger.Listing(v.objects, th.call.req.pool));
    PlanOrderIrrelevant(LeastUsed, th.pc.index, th.pc.s, s, th.call.req, Ports(th.call), map[]);
    PlannedFresh(LeastUsed, th);
    CreationServed(v.objects, th.pc.a, s, th.pc.index, th.call.req, Ports(th.call), pool);
  }

  lemma EventServes(v: State, e: Event, pool: Pool)
    requires Base(LeastUsed, v) && DeleteInv(v, true) && AllCurrent(v) && Possible(v, e) && e.Step?
    requires pool.name in v.pools && v.pools[pool.name] == pool
    requires v.threads[e.t].call.ReleaseCall? ==> v.threads[e.t].call.req.pool != pool.name
    ensures var v' := Exec(LeastUsed, v, e);
            LU.Served(Shown(v, pool), Added(v, e, pool.name), Shown(v', pool))
            || LU.SameUsage(Shown(v, pool), Shown(v', pool))
  {
    hide Plan, LU.Served, LocksOk;
    var th := v.threads[e.t];
    assert ReadsCurrent(v, th) && LocalOk(LeastUsed, th) && KindOk(th) && SeenOk(v, th, true);
    if Creates(v, th, e.ans) {
      CreateServes(v, th, e.ans, pool);
    } else {
      if NextObjects(v, th, e.ans) != v.objects {
        DeleteElsewhere(v.objects, ReleaseKey(th.call.req), pool.name);
      }
      SameMembersSameUsage(v.objects, NextObjects(v, th, e.ans), pool);
    }
  }

  /** What the balance argument needs of every state. */
  lemma BalanceSetting(states: seq<State>, events: seq<Event>, pool: Pool, m: nat)
    requires Run(LeastUsed, states, events) && OneNamespace(states[0]) && NoOutside(events) && m < |states|
    requires pool.name in states[0].pools && states[0].pools[pool.name] == pool
    requires InRange(states[0].objects, pool) && PortSearch.WellFormedRange(pool.portRange)
    ensures LU.CountsFit(Shown(states[m], pool)) && states[m].pools == states[0].pools
    ensures states[m].threads.Keys == states[0].threads.Keys
    ensures forall t :: t in states[m].threads ==> states[m].threads[t].call == states[0].threads[t].call
    ensures AllCurrent(states[m]) && DeleteInv(states[m], true) && Base(LeastUsed, states[m])
  {
    hide Base, AllCurrent, DeleteInv, LU.CountsFit;
    forall i | 0 <= i < |states|
      ensures ProtocolLedger.PoolsAll(states[i], (q: Pool) => q.name == pool.name ==> q == pool)
    {
      ProtocolLinear.PoolsFixed(LeastUsed, states, events, i);
    }
    ProtocolLinear.PoolsFixed(LeastUsed, states, events, m);
    LocksReached(LeastUsed, states, events, m);
    CurrentReached(LeastUsed, states, events, m);
    ProtocolLedger.TidyReached(LeastUsed, states, events, pool, m);
    TidyCountsFit(states[m].objects, pool, Ledger.Listing(states[m].objects, pool.name));
  }

  /** Bounded imbalance in every interleaving: if no call releases in the pool and none asks it for more than
      `k` ports, its load balancers stay within `k` ports of each other. */
  lemma BalancedAlways(states: seq<State>, events: seq<Event>, pool: Pool, k: nat, m: nat)
    requires Run(LeastUsed, states, events) && OneNamespace(states[0]) && NoOutside(events) && m < |states|
    requires pool.name in states[0].pools && states[0].pools[pool.name] == pool
    requires InRange(states[0].objects, pool) && PortSearch.WellFormedRange(pool.portRange)
    requires forall t :: t in states[0].threads && states[0].threads[t].call.req.pool == pool.name ==>
               states[0].threads[t].call.AllocateCall? && |states[0].threads[t].call.ports| <= k
    requires k <= MAX_INT32 && LU.Balanced(Shown(states[0], pool), k)
    ensures LU.Balanced(Shown(states[m], pool), k)
  {
    var views := seq(|states|, i requires 0 <= i < |states| => Shown(states[i], pool));
    var sizes := seq(|events|, i requires 0 <= i < |events| => Added(states[i], events[i], pool.name));
    hide Base, AllCurrent, DeleteInv, LU.CountsFit, LU.Served, LU.SameUsage, LU.Balanced, Run;
    forall i | 0 <= i < |states| ensures LU.CountsFit(views[i]) {
      BalanceSetting(states, events, pool, i);
    }
    forall i | 0 <= i < |events|
      ensures sizes[i] <= k && (LU.Served(views[i], sizes[i], views[i + 1]) || LU.SameUsage(views[i], views[i + 1]))
    {
      BalanceSetting(states, events, pool, i);
      RunStep(LeastUsed, states, events, i);
      EventServes(states[i], events[i], pool);
    }
    LU.BoundedImbalance(views, sizes, k, m);
  }
}
