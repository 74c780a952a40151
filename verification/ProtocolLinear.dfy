/** Interleaved calls behave as if they ran one at a time: without outside interference every reply is that of
    the whole sequential operation made at that instant, and nothing else changes the store. */
module ProtocolLinear {
  import opened Types
  import opened Operations
  import opened Protocol
  import opened ProtocolSafety
  import opened ProtocolRelease
  import ProtocolAtomicity
  import opened Runs
  import RR = RoundRobin

  /** A step of thread `th` brings its reply, and no fault cut the call short. */
  ghost predicate Replies(strategy: Strategy, v: State, th: Thread, ans: Answer) {
    var pc := NextPc(strategy, v, th, ans);
    pc.UnlockPool? && pc.reply != Failed(ApiFault) && pc.reply != Failed(Conflict)
  }

  predicate HasIndex(pc: Pc) { pc.LeaveIndex? || pc.SearchPorts? || pc.Probe? || pc.Create? }

  /** A cursor map that agrees with what the thread has read of it. */
  predicate AsRead(strategy: Strategy, th: Thread, cursors: Cursors) {
    HasIndex(th.pc) && !strategy.LeastUsed? && Ports(th.call) != [] ==>
      RR.CursorOf(cursors, CursorKey(th.pc.s.pool)) == th.pc.index
  }

  lemma SomeCursorsAsRead(strategy: Strategy, th: Thread, cursors: Cursors) returns (cursors': Cursors)
    ensures AsRead(strategy, th, cursors')
  {
    cursors' := if HasIndex(th.pc) then cursors[CursorKey(th.pc.s.pool) := th.pc.index] else cursors;
  }

  /** The reply and the store are those of the sequential operation of the call, made in `v`. */
  ghost predicate Sequential(strategy: Strategy, v: State, call: Call, cursors: Cursors, reply: Reply,
                             objects': Objects) {
    match call
    case AllocateCall(req, ports) =>
      var o := Attempt(strategy, v.objects, v.pools, cursors, req, ports);
      objects' == o.objects && reply == (match o.result case Ok(a) => Allocated(a) case Err(e) => Failed(e))
    case ReleaseCall(req) =>
      var r := Release(v.objects, req);
      objects' == r.objects && reply == (match r.result case Ok(_) => ReleasedOk case Err(e) => Failed(e))
  }

  lemma ReleaseReply(strategy: Strategy, v: State, th: Thread, ans: Answer, cursors: Cursors)
    requires th.pc.Fetch? || th.pc.Delete?
    requires KindOk(th) && SeenOk(v, th, true) && Replies(strategy, v, th, ans)
    ensures Sequential(strategy, v, th.call, cursors, NextPc(strategy, v, th, ans).reply, NextObjects(v, th, ans))
  {
  }

  lemma EarlyReply(strategy: Strategy, v: State, th: Thread, ans: Answer, cursors: Cursors)
    requires th.pc.CheckDuplicate? || th.pc.ReadPool? || th.pc.ReadLedger?
    requires KindOk(th) && ProtocolAtomicity.ReadsCurrent(v, th) && Replies(strategy, v, th, ans)
    ensures Sequential(strategy, v, th.call, cursors, NextPc(strategy, v, th, ans).reply, NextObjects(v, th, ans))
  {
  }

  /** A reply after the snapshot: what was planned, or why planning or creating failed. */
  lemma PlannedReply(strategy: Strategy, v: State, th: Thread, ans: Answer, cursors: Cursors)
    requires HasSnapshot(th.pc) && KindOk(th) && LocalOk(strategy, th) && ProtocolAtomicity.ReadsCurrent(v, th)
             && PoolsNamed(v.pools)
    requires Replies(strategy, v, th, ans) && AsRead(strategy, th, cursors)
    ensures Sequential(strategy, v, th.call, cursors, NextPc(strategy, v, th, ans).reply, NextObjects(v, th, ans))
  {
    hide Plan, Select, Prepare, NextPc, Holds;
    var req, ports, s := th.call.req, Ports(th.call), th.pc.s;
    var index := RR.CursorOf(cursors, CursorKey(s.pool));
    PrepareFrom(strategy, v.objects, v.pools, cursors, req, ports, s.items);
    PlanIndex(strategy, index, if HasIndex(th.pc) then th.pc.index else 0, s, req, ports);
    PickHasStrategy(strategy, v, th, ans);
    PlanReply(strategy, v, th, ans, index);
  }

  /** A reply without a cursor read is that of a least-used call. */
  lemma PickHasStrategy(strategy: Strategy, v: State, th: Thread, ans: Answer)
    requires HasSnapshot(th.pc) && LocalOk(strategy, th) && Replies(strategy, v, th, ans)
    ensures HasIndex(th.pc) || strategy.LeastUsed?
  {
    hide Plan, Select, Holds;
  }

  /** The cursor matters to round-robin calls that want ports only. */
  lemma PlanIndex(strategy: Strategy, i: nat, j: nat, s: Snapshot, req: Request, ports: seq<ContainerPort>)
    ensures strategy.LeastUsed? || ports == [] || i == j ==>
              Plan(strategy, i, s, req, ports) == Plan(strategy, j, s, req, ports)
  {
  }

  lemma PlanReply(strategy: Strategy, v: State, th: Thread, ans: Answer, index: nat)
    requires HasSnapshot(th.pc) && LocalOk(strategy, th) && Replies(strategy, v, th, ans)
    requires Plan(strategy, index, th.pc.s, th.call.req, Ports(th.call))
             == Plan(strategy, if HasIndex(th.pc) then th.pc.index else 0, th.pc.s, th.call.req, Ports(th.call))
    ensures var plan := Plan(strategy, index, th.pc.s, th.call.req, Ports(th.call));
            var reply := NextPc(strategy, v, th, ans).reply;
            && (plan.Err? ==> reply == Failed(plan.error) && NextObjects(v, th, ans) == v.objects)
            && (plan.Ok? ==> th.pc.Probe? || th.pc.Create?)
            && (plan.Ok? && plan.value.ObjectKey() in v.objects ==>
              reply == Failed(NameTaken) && NextObjects(v, th, ans) == v.objects)
            && (plan.Ok? && plan.value.ObjectKey() !in v.objects ==>
                  reply == Allocated(plan.value)
                  && NextObjects(v, th, ans) == v.objects[plan.value.ObjectKey() := plan.value])
  {
  }

  lemma QuietWithoutReply(strategy: Strategy, v: State, th: Thread, ans: Answer)
    requires !Replies(strategy, v, th, ans)
    ensures NextObjects(v, th, ans) == v.objects
  {
  }

  lemma ReplyIsSequential(strategy: Strategy, v: State, th: Thread, ans: Answer, cursors: Cursors)
    requires KindOk(th) && SeenOk(v, th, true) && LocalOk(strategy, th) && ProtocolAtomicity.ReadsCurrent(v, th)
             && PoolsNamed(v.pools)
    requires Replies(strategy, v, th, ans) && AsRead(strategy, th, cursors)
    ensures Sequential(strategy, v, th.call, cursors, NextPc(strategy, v, th, ans).reply, NextObjects(v, th, ans))
  {
    hide NextPc, Sequential, LocalOk, ProtocolAtomicity.ReadsCurrent, KindOk, SeenOk;
    if th.pc.Fetch? || th.pc.Delete? {
      ReleaseReply(strategy, v, th, ans, cursors);
    } else if HasSnapshot(th.pc) {
      PlannedReply(strategy, v, th, ans, cursors);
    } else {
      RepliesFrom(strategy, v, th, ans);
      EarlyReply(strategy, v, th, ans, cursors);
    }
  }

  lemma RepliesFrom(strategy: Strategy, v: State, th: Thread, ans: Answer)
    requires Replies(strategy, v, th, ans)
    ensures !th.pc.WaitPool? && !th.pc.UnlockPool? && !th.pc.Finished?
  {
  }

  // ---------- Runs ----------

  lemma {:induction false} PoolsFixed(strategy: Strategy, states: seq<State>, events: seq<Event>, m: nat)
    requires Run(strategy, states, events) && NoOutside(events) && m < |states|
    ensures states[m].pools == states[0].pools
  {
    if m > 0 {
      PoolsFixed(strategy, states, events, m - 1);
      assert events[m - 1].Step?;
    }
  }

  /** Event `i` brings the reply of its call. */
  ghost predicate RepliesAt(strategy: Strategy, states: seq<State>, events: seq<Event>, i: nat)
    requires i < |events| < |states|
  {
    var v, e := states[i], events[i];
    e.Step? && e.t in v.threads && Replies(strategy, v, v.threads[e.t], e.ans)
  }

  /** Every reply of every interleaved call, success or failure, is that of the sequential operation made at that
      instant, and so is what it does to the store; steps without a reply leave the store alone. */
  lemma RepliesAreSequential(strategy: Strategy, states: seq<State>, events: seq<Event>, i: nat, cursors: Cursors)
    requires Run(strategy, states, events) && OneNamespace(states[0]) && NoOutside(events) && i < |events| < |states|
    requires events[i].t in states[i].threads && AsRead(strategy, states[i].threads[events[i].t], cursors)
    ensures var v, e := states[i], events[i]; var th := v.threads[e.t];
            if RepliesAt(strategy, states, events, i) then
              Sequential(strategy, v, th.call, cursors, NextPc(strategy, v, th, e.ans).reply, states[i + 1].objects)
            else states[i + 1].objects == v.objects
  {
    hide NextPc, Sequential, LocksOk;
    ProtocolAtomicity.CurrentReached(strategy, states, events, i);
    RunStep(strategy, states, events, i);
    var v, e := states[i], events[i];
    var th := v.threads[e.t];
    assert ProtocolAtomicity.ReadsCurrent(v, th) && KindOk(th) && SeenOk(v, th, true) && LocalOk(strategy, th);
    if RepliesAt(strategy, states, events, i) {
      ReplyIsSequential(strategy, v, th, e.ans, cursors);
    } else {
      QuietWithoutReply(strategy, v, th, e.ans);
    }
  }

  function OpOf(call: Call): Op {
    match call
    case AllocateCall(req, ports) => Allocate(req, ports)
    case ReleaseCall(req) => Free(req)
  }

  /** The calls in the order of their replies. */
  ghost function Order(strategy: Strategy, states: seq<State>, events: seq<Event>, m: nat): seq<Op>
    requires m <= |events| < |states|
  {
    if m == 0 then []
    else
      Order(strategy, states, events, m - 1)
      + if RepliesAt(strategy, states, events, m - 1) then [OpOf(states[m - 1].threads[events[m - 1].t].call)] else []
  }

  /** The stores from one operation to the next. */
  ghost predicate OneAtATime(strategy: Strategy, pools: Pools, stores: seq<Objects>, ops: seq<Op>) {
    && |stores| == |ops| + 1
    && forall i :: 0 <= i < |ops| ==> Does(strategy, pools, stores[i], ops[i], stores[i + 1])
  }

  ghost predicate Does(strategy: Strategy, pools: Pools, store: Objects, op: Op, store': Objects) {
    exists cursors :: Apply(strategy, pools, Config(store, cursors), op).objects == store'
  }

  lemma ReplyDoes(strategy: Strategy, states: seq<State>, events: seq<Event>, i: nat)
    requires Run(strategy, states, events) && OneNamespace(states[0]) && NoOutside(events) && i < |events| < |states|
    ensures if RepliesAt(strategy, states, events, i) then
              Does(strategy, states[0].pools, states[i].objects, OpOf(states[i].threads[events[i].t].call),
                   states[i + 1].objects)
            else states[i + 1].objects == states[i].objects
  {
    hide NextPc, Attempt, Release, LocksOk;
    RunStep(strategy, states, events, i);
    PoolsFixed(strategy, states, events, i);
    assert events[i].Step?;
    var th := states[i].threads[events[i].t];
    var cursors := SomeCursorsAsRead(strategy, th, states[i].cursors);
    RepliesAreSequential(strategy, states, events, i, cursors);
    if RepliesAt(strategy, states, events, i) {
      assert Apply(strategy, states[0].pools, Config(states[i].objects, cursors), OpOf(th.call)).objects ==
               states[i + 1].objects;
    }
  }

  /** Linearizability of the store: without outside interference, every run leaves behind the store that its
      calls would leave one at a time, in the order of their replies. */
  lemma {:induction false} Linearized(strategy: Strategy, states: seq<State>, events: seq<Event>, m: nat)
    returns (stores: seq<Objects>)
    requires Run(strategy, states, events) && OneNamespace(states[0]) && NoOutside(events) && m <= |events| < |states|
    ensures OneAtATime(strategy, states[0].pools, stores, Order(strategy, states, events, m))
    ensures stores[0] == states[0].objects && stores[|stores| - 1] == states[m].objects
  {
    hide Run, Does, Replies;
    if m == 0 {
      stores := [states[0].objects];
    } else {
      stores := Linearized(strategy, states, events, m - 1);
      ReplyDoes(strategy, states, events, m - 1);
      var ops := Order(strategy, states, events, m - 1);
      if RepliesAt(strategy, states, events, m - 1) {
        stores := stores + [states[m].objects];
        var op := OpOf(states[m - 1].threads[events[m - 1].t].call);
        assert Order(strategy, states, events, m) == ops + [op];
        forall i | 0 <= i < |ops + [op]|
          ensures Does(strategy, states[0].pools, stores[i], (ops + [op])[i], stores[i + 1])
        {
          if i < |ops| { assert (ops + [op])[i] == ops[i]; }
        }
      }
    }
  }
}
