/** Safety of every interleaving: mutual exclusion, and no load-balancer port booked twice in a pool. */
module ProtocolSafety {
  import opened Types
  import opened Ledger
  import opened Operations
  import opened Protocol

  /** Between taking and returning the pool mutex. */
  predicate Inside(pc: Pc) { !pc.WaitPool? && !pc.Finished? }

  predicate InIndex(pc: Pc) { pc.HoldIndex? || pc.LeaveIndex? }

  predicate HasSnapshot(pc: Pc) {
    pc.WaitIndex? || pc.HoldIndex? || pc.LeaveIndex? || pc.PickLeastUsed? || pc.SearchPorts? || pc.Probe? || pc.Create?
  }

  // ---------- Locks ----------

  ghost predicate LocksOk(v: State) { InsidersHold(v) && HoldersInside(v) && IndexOk(v) }

  ghost predicate InsidersHold(v: State) {
    forall t :: t in v.threads && Inside(v.threads[t].pc) ==>
      LockKey(v.threads[t].call) in v.locks && v.locks[LockKey(v.threads[t].call)] == t
  }

  ghost predicate HoldersInside(v: State) {
    forall key :: key in v.locks ==>
      && v.locks[key] in v.threads
      && Inside(v.threads[v.locks[key]].pc)
      && LockKey(v.threads[v.locks[key]].call) == key
  }

  ghost predicate IndexOk(v: State) {
    && (forall t :: t in v.threads ==> (InIndex(v.threads[t].pc) <==> v.indexOwner == Some(t)))
    && (v.indexOwner.Some? ==> v.indexOwner.value in v.threads)
  }

  lemma ActShape(strategy: Strategy, v: State, th: Thread, ans: Answer)
    requires !th.pc.Finished?
    ensures var pc := NextPc(strategy, v, th, ans);
            && (Inside(pc) <==> !th.pc.UnlockPool?)
            && (InIndex(pc) <==> th.pc.WaitIndex? || th.pc.HoldIndex?)
  {
  }

  /** The part of a step the lock invariants depend on. */
  ghost predicate Moves(v: State, t: Tid, pc: Pc, threads: map<Tid, Thread>) {
    && Enabled(v, t)
    && threads.Keys == v.threads.Keys
    && threads[t].call == v.threads[t].call && threads[t].pc == pc
    && (forall u :: u in threads && u != t ==> threads[u] == v.threads[u])
    && (Inside(pc) <==> !v.threads[t].pc.UnlockPool?)
    && (InIndex(pc) <==> v.threads[t].pc.WaitIndex? || v.threads[t].pc.HoldIndex?)
  }

  lemma InsidersKept(v: State, t: Tid, pc: Pc, v': State)
    requires LocksOk(v) && Moves(v, t, pc, v'.threads) && v'.locks == NextLocks(v, t)
    ensures InsidersHold(v')
  {
  }

  lemma HoldersKept(v: State, t: Tid, pc: Pc, v': State)
    requires LocksOk(v) && Moves(v, t, pc, v'.threads) && v'.locks == NextLocks(v, t)
    ensures HoldersInside(v')
  {
  }

  lemma IndexKept(v: State, t: Tid, pc: Pc, v': State)
    requires LocksOk(v) && Moves(v, t, pc, v'.threads) && v'.indexOwner == NextOwner(v, t)
    ensures IndexOk(v')
  {
  }

  lemma LocksPreserved(strategy: Strategy, v: State, e: Event)
    requires LocksOk(v) && Possible(v, e)
    ensures LocksOk(Exec(strategy, v, e))
  {
    if e.Step? {
      var th, v' := v.threads[e.t], Exec(strategy, v, e);
      ActShape(strategy, v, th, e.ans);
      var pc := NextPc(strategy, v, th, e.ans);
      assert v'.threads[e.t] == Thread(th.call, pc, NextAttempt(th, e.ans));
      InsidersKept(v, e.t, pc, v');
      HoldersKept(v, e.t, pc, v');
      IndexKept(v, e.t, pc, v');
    }
  }

  /** At most one thread is inside the critical section of a pool. */
  ghost predicate Exclusive(v: State) {
    forall t, u ::
      t in v.threads && u in v.threads && Inside(v.threads[t].pc) && Inside(v.threads[u].pc)
      && v.threads[t].call.req.pool == v.threads[u].call.req.pool
      ==> t == u
  }

  lemma LocksExclude(v: State)
    requires LocksOk(v) && OneNamespace(v)
    ensures Exclusive(v)
  {
  }

  /** Calls that want ports in one pool pass the same namespace argument. */
  ghost predicate PortsAgree(v: State) {
    forall t, u ::
      t in v.threads && u in v.threads && Ports(v.threads[t].call) != [] && Ports(v.threads[u].call) != []
      && v.threads[t].call.req.pool == v.threads[u].call.req.pool
      ==> v.threads[t].call.req.namespace == v.threads[u].call.req.namespace
  }

  // ---------- The invariant ----------

  /** What a thread's own variables say about each other: pool names, and that the thread is heading
      for the allocation planned from its snapshot. */
  ghost predicate LocalOk(strategy: Strategy, th: Thread) {
    NamesOk(th) && ChoiceOk(strategy, th) && PlanOk(strategy, th)
  }

  predicate NamesOk(th: Thread) {
    && th.attempt < MAX_ATTEMPTS
    && (th.pc.ReadLedger? ==> th.pc.pool.name == th.call.req.pool)
    && (HasSnapshot(th.pc) ==> th.pc.s.pool.name == th.call.req.pool)
    && (HasSnapshot(th.pc) && !th.pc.Probe? && !th.pc.Create? ==> Ports(th.call) != [])
  }

  predicate ChoiceOk(strategy: Strategy, th: Thread) {
    && (th.pc.PickLeastUsed? ==> strategy.LeastUsed?)
    && (th.pc.WaitIndex? || th.pc.HoldIndex? || th.pc.LeaveIndex? ==> !strategy.LeastUsed?)
    && (th.pc.LeaveIndex? ==> th.pc.choice == Select(strategy, th.pc.index, th.pc.s, |Ports(th.call)|))
    && (th.pc.SearchPorts? ==> Select(strategy, th.pc.index, th.pc.s, |Ports(th.call)|) == Ok(th.pc.p))
  }

  predicate PlanOk(strategy: Strategy, th: Thread) {
    th.pc.Probe? || th.pc.Create? ==> Plan(strategy, th.pc.index, th.pc.s, th.call.req, Ports(th.call)) == Ok(th.pc.a)
  }

  /** What holds whatever namespaces callers pass. */
  ghost predicate Base(strategy: Strategy, v: State) {
    && LocksOk(v)
    && (forall t :: t in v.threads ==> LocalOk(strategy, v.threads[t]))
    && KeysAgree(v.objects) && PoolsNamed(v.pools)
  }

  /** The core of the argument: the snapshot of a lock holder that wants ports covers the pool's ledger until
      its create. */
  ghost predicate CoverOk(v: State) {
    forall t :: t in v.threads && HasSnapshot(v.threads[t].pc) && Ports(v.threads[t].call) != [] ==>
      Covers(v.threads[t].pc.s.items, v.objects, v.threads[t].call.req.pool)
  }

  ghost predicate Inv(strategy: Strategy, v: State) {
    Base(strategy, v) && PortsAgree(v) && CoverOk(v) && UniquePorts(v.objects)
  }

  lemma ActNames(strategy: Strategy, v: State, th: Thread, ans: Answer)
    requires NamesOk(th) && PoolsNamed(v.pools)
    ensures NamesOk(NextThread(strategy, v, th, ans))
  {
  }

  lemma NoChoice(strategy: Strategy, v: State, th: Thread, ans: Answer)
    requires !th.pc.HoldIndex? && !th.pc.LeaveIndex? && !th.pc.PickLeastUsed?
    ensures var pc := NextPc(strategy, v, th, ans);
            !pc.LeaveIndex? && !pc.SearchPorts? && (pc.PickLeastUsed? ==> strategy.LeastUsed?)
  {
    hide Select, Holds, PlanAt, ReleaseCheck;
  }

  lemma ActChoice(strategy: Strategy, v: State, th: Thread, ans: Answer)
    requires ChoiceOk(strategy, th)
    ensures ChoiceOk(strategy, NextThread(strategy, v, th, ans))
  {
    hide Select, Holds, PlanAt, ReleaseCheck;
    if !th.pc.HoldIndex? && !th.pc.LeaveIndex? && !th.pc.PickLeastUsed? {
      NoChoice(strategy, v, th, ans);
      hide NextPc;
    }
  }

  lemma ActPlan(strategy: Strategy, v: State, th: Thread, ans: Answer)
    requires LocalOk(strategy, th)
    ensures PlanOk(strategy, NextThread(strategy, v, th, ans))
  {
    if th.pc.SearchPorts? {
      assert Plan(strategy, th.pc.index, th.pc.s, th.call.req, Ports(th.call)) ==
               PlanOn(th.pc.s, th.pc.p, th.call.req, Ports(th.call));
    }
  }

  /** A step changes the store only by creating the planned allocation or by deleting. */
  lemma ActStore(v: State, th: Thread, ans: Answer)
    ensures var objects' := NextObjects(v, th, ans);
            if Creates(v, th, ans) then objects' == v.objects[th.pc.a.ObjectKey() := th.pc.a]
            else Shrinks(v.objects, objects')
  {
  }

  predicate Creates(v: State, th: Thread, ans: Answer) {
    th.pc.Create? && ans.Normal? && th.pc.a.ObjectKey() !in v.objects
  }

  lemma ActSnapshot(strategy: Strategy, v: State, th: Thread, ans: Answer)
    requires AnswerOk(v, th, ans)
    ensures var pc := NextPc(strategy, v, th, ans);
            HasSnapshot(pc) ==>
              || (HasSnapshot(th.pc) && pc.s == th.pc.s)
              || (th.pc.ReadLedger? && IsListing(pc.s.items, v.objects, th.pc.pool.name))
  {
  }

  /** The new object of a create: named after the plan, in the caller's pool, on fresh ports. */
  lemma PlannedFresh(strategy: Strategy, th: Thread)
    requires LocalOk(strategy, th) && (th.pc.Probe? || th.pc.Create?)
    ensures FreshOn(th.pc.a, th.pc.s) && th.pc.a.poolLabel == th.call.req.pool
    ensures th.pc.a == NewAllocation(th.pc.s.pool, th.call.req.podName, th.call.req.podNamespace, th.pc.a.bindings)
    ensures Ports(th.call) == [] ==> th.pc.a.bindings == []
  {
    PlanShape(strategy, th.pc.index, th.pc.s, th.call.req, Ports(th.call));
  }

  lemma KeysKept(strategy: Strategy, v: State, t: Tid, ans: Answer)
    requires Base(strategy, v) && t in v.threads
    ensures KeysAgree(NextObjects(v, v.threads[t], ans))
  {
    ActStore(v, v.threads[t], ans);
  }

  lemma PortsKept(strategy: Strategy, v: State, t: Tid, ans: Answer)
    requires Inv(strategy, v) && t in v.threads
    ensures UniquePorts(NextObjects(v, v.threads[t], ans))
  {
    var th := v.threads[t];
    ActStore(v, th, ans);
    if Creates(v, th, ans) {
      PlannedFresh(strategy, th);
      CreateKeepsUnique(v.objects, th.pc.a, th.pc.s);
    } else {
      ShrinkKeeps(v.objects, NextObjects(v, th, ans), _ => "");
    }
  }

  lemma OwnCoverKept(strategy: Strategy, v: State, t: Tid, ans: Answer)
    requires Inv(strategy, v) && Enabled(v, t) && AnswerOk(v, v.threads[t], ans)
    requires HasSnapshot(NextPc(strategy, v, v.threads[t], ans)) && Ports(v.threads[t].call) != []
    ensures var th := v.threads[t];
            Covers(NextPc(strategy, v, th, ans).s.items, NextObjects(v, th, ans), th.call.req.pool)
  {
    var th := v.threads[t];
    ActSnapshot(strategy, v, th, ans);
    if th.pc.ReadLedger? {
      ListingCovers(NextPc(strategy, v, th, ans).s.items, v.objects, th.call.req.pool);
    }
    SnapshotKeepsStore(strategy, v, th, ans);
  }

  lemma SnapshotKeepsStore(strategy: Strategy, v: State, th: Thread, ans: Answer)
    requires HasSnapshot(NextPc(strategy, v, th, ans))
    ensures NextObjects(v, th, ans) == v.objects
  {
  }

  /** Another thread's create binds no port or lands in another pool, because the pool's lock is taken. */
  lemma OtherCoverKept(strategy: Strategy, v: State, t: Tid, ans: Answer, u: Tid)
    requires Inv(strategy, v) && t in v.threads && u in v.threads && t != u
    requires HasSnapshot(v.threads[u].pc) && Ports(v.threads[u].call) != []
    ensures Covers(v.threads[u].pc.s.items, NextObjects(v, v.threads[t], ans), v.threads[u].call.req.pool)
  {
    var th := v.threads[t];
    ActStore(v, th, ans);
    if Creates(v, th, ans) {
      PlannedFresh(strategy, th);
      assert Inside(v.threads[u].pc) && Inside(th.pc);
    } else {
      ShrinkKeeps(v.objects, NextObjects(v, th, ans), _ => "");
    }
  }

  lemma CoverKept(strategy: Strategy, v: State, t: Tid, ans: Answer)
    requires Inv(strategy, v) && Enabled(v, t) && AnswerOk(v, v.threads[t], ans)
    ensures CoverOk(After(strategy, v, t, ans))
  {
    var v' := After(strategy, v, t, ans);
    forall u | u in v'.threads && HasSnapshot(v'.threads[u].pc) && Ports(v'.threads[u].call) != []
      ensures Covers(v'.threads[u].pc.s.items, v'.objects, v'.threads[u].call.req.pool)
    {
      if u == t {
        OwnCoverKept(strategy, v, t, ans);
      } else {
        OtherCoverKept(strategy, v, t, ans, u);
      }
    }
  }

  lemma LocalKept(strategy: Strategy, v: State, t: Tid, ans: Answer)
    requires Base(strategy, v) && t in v.threads
    ensures LocalOk(strategy, NextThread(strategy, v, v.threads[t], ans))
  {
    ActNames(strategy, v, v.threads[t], ans);
    ActChoice(strategy, v, v.threads[t], ans);
    ActPlan(strategy, v, v.threads[t], ans);
  }

  /** Threads other than the stepping one, and all calls, stay as they are. */
  lemma ThreadsAfter(strategy: Strategy, v: State, t: Tid, ans: Answer)
    requires t in v.threads
    ensures var threads' := After(strategy, v, t, ans).threads;
            && threads'.Keys == v.threads.Keys
            && threads'[t] == NextThread(strategy, v, v.threads[t], ans)
            && (forall u :: u in threads' && u != t ==> threads'[u] == v.threads[u])
            && (forall u :: u in threads' ==> threads'[u].call == v.threads[u].call)
  {
  }

  lemma StepKeepsBase(strategy: Strategy, v: State, t: Tid, ans: Answer)
    requires Base(strategy, v) && Enabled(v, t) && AnswerOk(v, v.threads[t], ans)
    ensures Base(strategy, After(strategy, v, t, ans))
  {
    hide Plan, Select, LocksOk;
    var v' := After(strategy, v, t, ans);
    assert LocksOk(v') by { LocksPreserved(strategy, v, Step(t, ans)); }
    assert KeysAgree(v'.objects) by { KeysKept(strategy, v, t, ans); }
    assert forall u :: u in v'.threads ==> LocalOk(strategy, v'.threads[u]) by {
      ThreadsAfter(strategy, v, t, ans);
      LocalKept(strategy, v, t, ans);
    }
  }

  lemma BasePreserved(strategy: Strategy, v: State, e: Event)
    requires Base(strategy, v) && Possible(v, e)
    ensures Base(strategy, Exec(strategy, v, e))
  {
    match e
    case Step(t, ans) => StepKeepsBase(strategy, v, t, ans);
    case Outside(objects, pools) => ShrinkKeeps(v.objects, objects, _ => "");
  }

  lemma InvPreserved(strategy: Strategy, v: State, e: Event)
    requires Inv(strategy, v) && Possible(v, e)
    ensures Inv(strategy, Exec(strategy, v, e))
  {
    hide Base, CoverOk, UniquePorts;
    BasePreserved(strategy, v, e);
    match e
    case Step(t, ans) =>
      CoverKept(strategy, v, t, ans);
      PortsKept(strategy, v, t, ans);
      ThreadsAfter(strategy, v, t, ans);
    case Outside(objects, pools) => OutsideKeepsInv(strategy, v, objects, pools);
  }

  lemma OutsideKeepsInv(strategy: Strategy, v: State, objects: Objects, pools: Pools)
    requires Inv(strategy, v) && Shrinks(v.objects, objects)
    ensures var v' := v.(objects := objects, pools := pools); PortsAgree(v') && CoverOk(v') && UniquePorts(v'.objects)
  {
    ShrinkKeeps(v.objects, objects, _ => "");
  }

  lemma {:induction false} BaseReached(strategy: Strategy, states: seq<State>, events: seq<Event>, m: nat)
    requires Run(strategy, states, events) && m < |states|
    ensures Base(strategy, states[m])
  {
    if m > 0 {
      BaseReached(strategy, states, events, m - 1);
      BasePreserved(strategy, states[m - 1], events[m - 1]);
    }
  }

  lemma BaseHolds(strategy: Strategy, start: State, states: seq<State>, events: seq<Event>, v: State)
    requires Reaches(strategy, start, states, events, v)
    ensures Base(strategy, v)
  {
    BaseReached(strategy, states, events, |events|);
  }

  lemma {:induction false} InvReached(strategy: Strategy, states: seq<State>, events: seq<Event>, m: nat)
    requires Run(strategy, states, events) && PortsAgree(states[0]) && m < |states|
    ensures Inv(strategy, states[m])
  {
    BaseReached(strategy, states, events, m);
    if m > 0 {
      InvReached(strategy, states, events, m - 1);
      InvPreserved(strategy, states[m - 1], events[m - 1]);
    }
  }

  // ---------- Main results ----------

  /** No double allocation: under any interleaving of any calls on any pools, with outside deletions and
      pool edits, no two bindings stored under one pool label share load balancer and port. */
  lemma NoDoubleAllocation(strategy: Strategy, states: seq<State>, events: seq<Event>, m: nat)
    requires Run(strategy, states, events) && PortsAgree(states[0]) && m < |states|
    ensures UniquePorts(states[m].objects)
  {
    InvReached(strategy, states, events, m);
  }

  lemma {:induction false} LocksReached(strategy: Strategy, states: seq<State>, events: seq<Event>, m: nat)
    requires Run(strategy, states, events) && m < |states|
    ensures LocksOk(states[m])
    ensures states[m].threads.Keys == states[0].threads.Keys
    ensures forall t :: t in states[m].threads ==> states[m].threads[t].call == states[0].threads[t].call
  {
    if m > 0 {
      LocksReached(strategy, states, events, m - 1);
      LocksPreserved(strategy, states[m - 1], events[m - 1]);
    }
  }

  /** The per-pool lock excludes exactly when callers agree on a namespace for each pool: the mutex key
      includes the namespace argument, which the comment on the lock table does not mention. */
  lemma MutualExclusionExactly(strategy: Strategy, start: State)
    requires Init(start)
    ensures OneNamespace(start) <==>
            forall states, events, m :: Run(strategy, states, events) && states[0] == start && 0 <= m < |states|
              ==> Exclusive(states[m])
  {
    if OneNamespace(start) {
      forall states, events, m | Run(strategy, states, events) && states[0] == start && 0 <= m < |states|
        ensures Exclusive(states[m])
      {
        LocksReached(strategy, states, events, m);
        LocksExclude(states[m]);
      }
    } else {
      var t, u :| t in start.threads && u in start.threads
                  && start.threads[t].call.req.pool == start.threads[u].call.req.pool
                  && start.threads[t].call.req.namespace != start.threads[u].call.req.namespace;
      var states, events := BothEnter(strategy, start, t, u);
      assert !Exclusive(states[2]);
    }
  }

  /** Two calls for one pool under different namespace arguments enter side by side. */
  lemma BothEnter(strategy: Strategy, start: State, t: Tid, u: Tid) returns (states: seq<State>, events: seq<Event>)
    requires Init(start) && t in start.threads && u in start.threads
    requires start.threads[t].call.req.pool == start.threads[u].call.req.pool
    requires start.threads[t].call.req.namespace != start.threads[u].call.req.namespace
    ensures Run(strategy, states, events) && states[0] == start && |states| == 3
    ensures t in states[2].threads && u in states[2].threads && t != u
    ensures states[2].threads[t].call == start.threads[t].call && states[2].threads[u].call == start.threads[u].call
    ensures Inside(states[2].threads[t].pc) && Inside(states[2].threads[u].pc)
  {
    PoolKeySamePool(start.threads[t].call.req.namespace, start.threads[u].call.req.namespace,
                    start.threads[t].call.req.pool);
    events := [Step(t, Normal([])), Step(u, Normal([]))];
    var mid := Exec(strategy, start, events[0]);
    states := [start, mid, Exec(strategy, mid, events[1])];
  }
}
