/** Building blocks for schedules: outside actors set up a pool with just enough room, and a call runs up to
    its create in it while nobody else moves. */
module ProtocolSchedules {
  import opened Types
  import Ledger
  import opened Operations
  import opened Protocol
  import opened ProtocolSafety
  import ProtocolProgress
  import RR = RoundRobin

  /** What a call for `n` ports reads when its pool is roomy and empty. */
  function Room(call: Call, namespace: string): Snapshot {
    Snapshot(RoomyPool(call.req.pool, namespace, |Ports(call)|), [])
  }

  /** Nothing but thread `u` itself, the cursors and the index lock differs. */
  ghost predicate Quiet(v: State, v': State, u: Tid) {
    && v'.objects == v.objects && v'.pools == v.pools && v'.locks == v.locks
    && OthersSame(v, v', u)
  }

  ghost predicate OthersSame(v: State, v': State, u: Tid) {
    && v'.threads.Keys == v.threads.Keys
    && (u in v.threads ==> v'.threads[u].call == v.threads[u].call)
    && forall t :: t in v.threads && t != u ==> v'.threads[t] == v.threads[t]
  }

  /** Thread `u` is between its duplicate check and its create, in an empty store whose one pool has room. */
  ghost predicate Heading(v: State, u: Tid, namespace: string) {
    && u in v.threads && v.threads[u].call.AllocateCall?
    && v.objects == map[]
    && (v.indexOwner == None || v.indexOwner == Some(u))
    && var s := Room(v.threads[u].call, namespace);
    && v.pools == map[s.pool.name := s.pool]
    && OnPath(v.threads[u].pc, s)
  }

  predicate OnPath(pc: Pc, s: Snapshot) {
    || pc.CheckDuplicate? || pc.ReadPool? || pc == ReadLedger(s.pool)
    || (HasSnapshot(pc) && pc.s == s)
  }

  lemma HeadingStep(strategy: Strategy, v: State, u: Tid, namespace: string) returns (ans: Answer)
    requires Base(strategy, v) && Heading(v, u, namespace) && !v.threads[u].pc.Create?
    ensures Possible(v, Step(u, ans))
    ensures Heading(Exec(strategy, v, Step(u, ans)), u, namespace) && Quiet(v, Exec(strategy, v, Step(u, ans)), u)
  {
    ans := Normal([]);
    var th, call := v.threads[u], v.threads[u].call;
    assert LocalOk(strategy, th);
    QuietStep(strategy, v, u, namespace);
    var index := if th.pc.HoldIndex? then RR.CursorOf(v.cursors, CursorKey(th.pc.s.pool))
                 else if th.pc.LeaveIndex? || th.pc.SearchPorts? then th.pc.index else 0;
    PlanInRoom(strategy, index, namespace, call.req, call.ports);
    PathStep(strategy, v, u, namespace, index);
  }

  lemma QuietStep(strategy: Strategy, v: State, u: Tid, namespace: string)
    requires LocksOk(v) && Heading(v, u, namespace) && !v.threads[u].pc.Create?
    ensures Possible(v, Step(u, Normal([])))
    ensures var v' := After(strategy, v, u, Normal([]));
            && Quiet(v, v', u) && (v'.indexOwner == None || v'.indexOwner == Some(u))
            && v'.threads[u] == NextThread(strategy, v, v.threads[u], Normal([]))
  {
    assert Ledger.Members(v.objects, v.threads[u].call.req.pool) == {};
    ThreadsAfter(strategy, v, u, Normal([]));
  }

  lemma PathStep(strategy: Strategy, v: State, u: Tid, namespace: string, index: nat)
    requires Heading(v, u, namespace) && !v.threads[u].pc.Create? && LocalOk(strategy, v.threads[u])
    requires v.threads[u].pc.HoldIndex? ==> index == RR.CursorOf(v.cursors, CursorKey(v.threads[u].pc.s.pool))
    requires v.threads[u].pc.LeaveIndex? || v.threads[u].pc.SearchPorts? ==> index == v.threads[u].pc.index
    requires v.threads[u].pc.PickLeastUsed? ==> index == 0
    requires var s := Room(v.threads[u].call, namespace);
             && (v.threads[u].call.ports != [] ==> Select(strategy, index, s, |v.threads[u].call.ports|) == Ok(0))
             && Plan(strategy, index, s, v.threads[u].call.req, v.threads[u].call.ports).Ok?
    ensures OnPath(NextPc(strategy, v, v.threads[u], Normal([])), Room(v.threads[u].call, namespace))
  {
  }

  lemma HeadingDescends(strategy: Strategy, v: State, u: Tid, ans: Answer)
    requires Base(strategy, v) && Possible(v, Step(u, ans))
    ensures ProtocolProgress.Rank(Exec(strategy, v, Step(u, ans)).threads[u]) < ProtocolProgress.Rank(v.threads[u])
  {
    hide Plan, Select, LocksOk;
    assert LocalOk(strategy, v.threads[u]);
    ProtocolProgress.StepDescends(strategy, v, v.threads[u], ans);
    ThreadsAfter(strategy, v, u, ans);
  }

  /** A heading call can be run to its create with nobody else moving. */
  lemma RunToCreate(strategy: Strategy, start: State, states: seq<State>, events: seq<Event>, v: State, u: Tid,
                    namespace: string)
    returns (states': seq<State>, events': seq<Event>, v': State)
    requires Reaches(strategy, start, states, events, v) && Heading(v, u, namespace)
    ensures Reaches(strategy, start, states', events', v') && Quiet(v, v', u)
    ensures Heading(v', u, namespace) && v'.threads[u].pc.Create? && v'.indexOwner == None
    decreases ProtocolProgress.Rank(v.threads[u])
  {
    BaseHolds(strategy, start, states, events, v);
    if v.threads[u].pc.Create? {
      assert LocksOk(v);
      states', events', v' := states, events, v;
    } else {
      var ans := HeadingStep(strategy, v, u, namespace);
      var next := Exec(strategy, v, Step(u, ans));
      HeadingDescends(strategy, v, u, ans);
      states', events' := Extend(strategy, start, states, events, v, Step(u, ans), next);
      states', events', v' := RunToCreate(strategy, start, states', events', next, u, namespace);
    }
  }

  /** The store is emptied and a roomy pool set up from outside; then the call enters its pool. */
  lemma Enter(strategy: Strategy, start: State, states: seq<State>, events: seq<Event>, v: State, u: Tid,
              namespace: string)
    returns (states': seq<State>, events': seq<Event>, v': State)
    requires Reaches(strategy, start, states, events, v)
    requires u in v.threads && v.threads[u].pc == WaitPool && v.threads[u].call.AllocateCall?
    requires LockKey(v.threads[u].call) !in v.locks && v.indexOwner == None
    ensures Reaches(strategy, start, states', events', v')
    ensures Heading(v', u, namespace) && OthersSame(v, v', u)
    ensures v'.locks == v.locks[LockKey(v.threads[u].call) := u] && v'.indexOwner == None
  {
    var pool := Room(v.threads[u].call, namespace).pool;
    var staged := v.(objects := map[], pools := map[pool.name := pool]);
    states', events' := Extend(strategy, start, states, events, v, Outside(map[], map[pool.name := pool]), staged);
    v' := Exec(strategy, staged, Step(u, Normal([])));
    ThreadsAfter(strategy, staged, u, Normal([]));
    states', events' := Extend(strategy, start, states', events', staged, Step(u, Normal([])), v');
  }

  lemma RunInRoom(strategy: Strategy, start: State, states: seq<State>, events: seq<Event>, v: State, u: Tid,
                  namespace: string)
    returns (states': seq<State>, events': seq<Event>, v': State)
    requires Reaches(strategy, start, states, events, v)
    requires u in v.threads && v.threads[u].pc == WaitPool && v.threads[u].call.AllocateCall?
    requires LockKey(v.threads[u].call) !in v.locks && v.indexOwner == None
    ensures Reaches(strategy, start, states', events', v')
    ensures v'.objects == map[] && v'.indexOwner == None
    ensures AtCreate(v', u, namespace) && OthersSame(v, v', u)
    ensures v'.locks == v.locks[LockKey(v.threads[u].call) := u]
  {
    states', events', v' := Enter(strategy, start, states, events, v, u, namespace);
    states', events', v' := RunToCreate(strategy, start, states', events', v', u, namespace);
  }

  /** Thread `u` is about to create what it planned in a roomy pool of namespace `namespace`. */
  ghost predicate AtCreate(v: State, u: Tid, namespace: string) {
    && u in v.threads && v.threads[u].call.AllocateCall? && v.threads[u].pc.Create?
    && v.threads[u].pc.s == Room(v.threads[u].call, namespace)
  }

  /** The create lands under the derived name in that namespace, and binds port 1 if any. */
  lemma CreateLands(strategy: Strategy, v: State, u: Tid, namespace: string) returns (v': State, a: Allocation)
    requires Base(strategy, v) && AtCreate(v, u, namespace)
    requires Key(namespace, AllocationName(v.threads[u].call.req.pool, v.threads[u].call.req.podName)) !in v.objects
    ensures Leads(strategy, v, Step(u, Normal([])), v')
    ensures var req := v.threads[u].call.req;
            && a.ObjectKey() == Key(namespace, AllocationName(req.pool, req.podName))
            && v'.objects == v.objects[a.ObjectKey() := a]
            && a.poolLabel == req.pool && a.ServesPod(req.podName, req.podNamespace) && !a.terminating
    ensures v.threads[u].call.ports != [] ==> |a.bindings| > 0 && a.bindings[0].lb.id == "" && a.bindings[0].lbPort == 1
    ensures OthersSame(v, v', u) && v'.threads[u].pc.UnlockPool? && v'.locks == v.locks && v'.indexOwner == v.indexOwner
  {
    hide Plan, Select, LocksOk;
    var th := v.threads[u];
    assert LocalOk(strategy, th);
    a := th.pc.a;
    PlannedFresh(strategy, th);
    PlanInRoom(strategy, th.pc.index, namespace, th.call.req, th.call.ports);
    ThreadsAfter(strategy, v, u, Normal([]));
    v' := Exec(strategy, v, Step(u, Normal([])));
  }
}
