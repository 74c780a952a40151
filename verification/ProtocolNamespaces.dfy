/** Why callers must agree on a pool's namespace argument: two calls for ports that do not can book the same
    port, so ports stay unique in all runs exactly when they agree. */
module ProtocolNamespaces {
  import opened Types
  import Ledger
  import opened Protocol
  import opened ProtocolSafety
  import opened ProtocolSchedules

  /** Two calls for ports of one pool under different namespaces can both plan on an empty ledger, and book
      one port twice. */
  lemma DoubleBooking(strategy: Strategy, start: State, t: Tid, u: Tid) returns (states: seq<State>, events: seq<Event>)
    requires Init(start) && t in start.threads && u in start.threads
    requires Ports(start.threads[t].call) != [] && Ports(start.threads[u].call) != []
    requires start.threads[t].call.req.pool == start.threads[u].call.req.pool
    requires start.threads[t].call.req.namespace != start.threads[u].call.req.namespace
    ensures Run(strategy, states, events) && states[0] == start && !Ledger.UniquePorts(states[|events|].objects)
  {
    var v;
    PoolKeySamePool(start.threads[t].call.req.namespace, start.threads[u].call.req.namespace,
                    start.threads[t].call.req.pool);
    states, events := [start], [];
    states, events, v := RunInRoom(strategy, start, states, events, start, t, "a");
    states, events, v := RunInRoom(strategy, start, states, events, v, u, "b");
    states, events := BothCreate(strategy, start, states, events, v, t, u);
  }

  lemma BothCreate(strategy: Strategy, start: State, states: seq<State>, events: seq<Event>, v: State, t: Tid, u: Tid)
    returns (states': seq<State>, events': seq<Event>)
    requires Reaches(strategy, start, states, events, v) && t != u && v.objects == map[]
    requires AtCreate(v, t, "a") && AtCreate(v, u, "b")
    requires v.threads[t].call.ports != [] && v.threads[u].call.ports != []
    requires v.threads[t].call.req.pool == v.threads[u].call.req.pool
    ensures Run(strategy, states', events') && states'[0] == start && !Ledger.UniquePorts(states'[|events'|].objects)
  {
    hide Base, Run, Possible, Exec, Ledger.UniquePorts;
    BaseHolds(strategy, start, states, events, v);
    var w, a := CreateLands(strategy, v, t, "a");
    states', events' := Extend(strategy, start, states, events, v, Step(t, Normal([])), w);
    BaseHolds(strategy, start, states', events', w);
    var x, b := CreateLands(strategy, w, u, "b");
    states', events' := Extend(strategy, start, states', events', w, Step(u, Normal([])), x);
    BookedTwice(x.objects, a, b);
  }

  lemma BookedTwice(objects: Objects, a: Allocation, b: Allocation)
    requires a.ObjectKey() in objects && objects[a.ObjectKey()] == a && b.ObjectKey() in objects
             && objects[b.ObjectKey()] == b
    requires a.ObjectKey() != b.ObjectKey() && a.poolLabel == b.poolLabel
    requires |a.bindings| > 0 && |b.bindings| > 0 && Ledger.SameSlot(a.bindings[0], b.bindings[0])
    ensures !Ledger.UniquePorts(objects)
  {
    assert Ledger.SameSlot(objects[a.ObjectKey()].bindings[0], objects[b.ObjectKey()].bindings[0]);
  }

  /** For any set of calls and every strategy, all interleavings keep ports unique exactly when calls that want
      ports in one pool pass the same namespace. */
  lemma UniquenessExactly(strategy: Strategy, start: State)
    requires Init(start)
    ensures PortsAgree(start) <==>
            forall states: seq<State>, events: seq<Event>, m: nat ::
              Run(strategy, states, events) && states[0] == start && m < |states| ==>
                Ledger.UniquePorts(states[m].objects)
  {
    if PortsAgree(start) {
      forall states: seq<State>, events: seq<Event>, m: nat |
        Run(strategy, states, events) && states[0] == start && m < |states|
        ensures Ledger.UniquePorts(states[m].objects)
      {
        NoDoubleAllocation(strategy, states, events, m);
      }
    } else {
      var t, u :| t in start.threads && u in start.threads
                  && Ports(start.threads[t].call) != [] && Ports(start.threads[u].call) != []
                  && start.threads[t].call.req.pool == start.threads[u].call.req.pool
                  && start.threads[t].call.req.namespace != start.threads[u].call.req.namespace;
      var states, events := DoubleBooking(strategy, start, t, u);
      assert !Ledger.UniquePorts(states[|events|].objects);
    }
  }
}
