/** Concurrent `AllocatePort` and `ReleasePort` calls as a state machine. Each step is one API request,
    one lock operation or one stretch of thread-local work; steps of different calls interleave freely,
    and outside actors may delete allocations and edit pools at any time. */
module Protocol {
  import opened Types
  import opened Ledger
  import opened Operations
  import RR = RoundRobin

  datatype Call = AllocateCall(req: Request, ports: seq<ContainerPort>) | ReleaseCall(req: Request)

  function Ports(call: Call): seq<ContainerPort> {
    match call
    case AllocateCall(_, ports) => ports
    case ReleaseCall(_) => []
  }

  /** The pool mutex is keyed by the caller's namespace argument and the pool name. */
  function LockKey(call: Call): string { PoolKey(call.req.namespace, call.req.pool) }

  datatype Reply = Allocated(a: Allocation) | ReleasedOk | Failed(error: Error)

  datatype Pc =
    | WaitPool                                                // before the pool mutex is taken
    | CheckDuplicate                                          // list for the duplicate check
    | ReadPool
    | ReadLedger(pool: Pool)                                  // list for the snapshot
    | WaitIndex(s: Snapshot)                                  // before the index mutex is taken
    | HoldIndex(s: Snapshot)
    | LeaveIndex(s: Snapshot, index: nat, choice: Result<nat>)
    | PickLeastUsed(s: Snapshot)
    | SearchPorts(s: Snapshot, index: nat, p: nat)
    | Probe(s: Snapshot, index: nat, a: Allocation)           // get before create
    | Create(s: Snapshot, index: nat, a: Allocation)
    | Fetch                                                   // get of a release
    | Delete(seen: Allocation)
    | UnlockPool(reply: Reply)
    | Finished(reply: Reply)

  datatype Thread = Thread(call: Call, pc: Pc, attempt: nat)

  type Tid = nat

  datatype State = State(objects: Objects, pools: Pools, cursors: Cursors,
                         locks: map<string, Tid>, indexOwner: Option<Tid>, threads: map<Tid, Thread>)

  /** How the API server answers a step: normally (with a listing, where one is asked for), with an
      optimistic-lock conflict, or with any other failure. */
  datatype Answer = Normal(items: seq<Allocation>) | ConflictReply | Fault

  function Fail(e: Error): Pc { UnlockPool(Failed(e)) }

  /** Where a step of thread `th` leads. */
  ghost function NextPc(strategy: Strategy, v: State, th: Thread, ans: Answer): Pc {
    match th.pc
    case WaitPool => if th.call.ReleaseCall? then Fetch else CheckDuplicate
    case CheckDuplicate =>
      if !ans.Normal? then Fail(ApiFault)
      else if Holds(v.objects, th.call.req.pool, th.call.req.podName, th.call.req.podNamespace) then Fail(Duplicate)
      else ReadPool
    case ReadPool =>
      if !ans.Normal? then Fail(ApiFault)
      else if th.call.req.pool !in v.pools then Fail(PoolNotFound)
      else ReadLedger(v.pools[th.call.req.pool])
    case ReadLedger(pool) =>
      if !ans.Normal? then Fail(ApiFault)
      else if Ports(th.call) == [] then
        Probe(Snapshot(pool, ans.items), 0, NewAllocation(pool, th.call.req.podName, th.call.req.podNamespace, []))
      else if pool.loadBalancers == [] then Fail(NoLoadBalancers)
      else if strategy.LeastUsed? then PickLeastUsed(Snapshot(pool, ans.items))
      else WaitIndex(Snapshot(pool, ans.items))
    case WaitIndex(s) => HoldIndex(s)
    case HoldIndex(s) =>
      var index := RR.CursorOf(v.cursors, CursorKey(s.pool));
      LeaveIndex(s, index, Select(strategy, index, s, |Ports(th.call)|))
    case LeaveIndex(s, index, choice) => AfterChoice(s, index, choice)
    case PickLeastUsed(s) => AfterChoice(s, 0, Select(strategy, 0, s, |Ports(th.call)|))
    case SearchPorts(s, index, p) => AfterSearch(s, index, PlanAt(s, p, th.call.req, Ports(th.call)))
    case Probe(s, index, a) =>
      if !ans.Normal? then Fail(ApiFault)
      else if a.ObjectKey() in v.objects then Fail(NameTaken)
      else Create(s, index, a)
    case Create(s, index, a) =>
      if ans.Fault? then Fail(ApiFault)
      else if ans.ConflictReply? then if th.attempt + 1 < MAX_ATTEMPTS then CheckDuplicate else Fail(Conflict)
      else if a.ObjectKey() in v.objects then Fail(NameTaken)
      else UnlockPool(Allocated(a))
    case Fetch =>
      if !ans.Normal? then Fail(ApiFault)
      else if ReleaseKey(th.call.req) !in v.objects then Fail(NotFound)
      else AfterFetch(v.objects[ReleaseKey(th.call.req)], th.call.req)
    case Delete(seen) =>
      if !ans.Normal? then Fail(ApiFault)
      else if ReleaseKey(th.call.req) !in v.objects then Fail(NotFound)
      else UnlockPool(ReleasedOk)
    case UnlockPool(reply) => Finished(reply)
    case Finished(reply) => Finished(reply)
  }

  function AfterChoice(s: Snapshot, index: nat, choice: Result<nat>): Pc {
    match choice
    case Err(e) => Fail(e)
    case Ok(p) => SearchPorts(s, index, p)
  }

  function PlanAt(s: Snapshot, p: nat, req: Request, ports: seq<ContainerPort>): Result<Allocation> {
    if p < |s.pool.loadBalancers| then PlanOn(s, p, req, ports) else Err(NoCapacity)
  }

  function AfterSearch(s: Snapshot, index: nat, plan: Result<Allocation>): Pc {
    match plan
    case Err(e) => Fail(e)
    case Ok(a) => Probe(s, index, a)
  }

  function AfterFetch(seen: Allocation, req: Request): Pc {
    match ReleaseCheck(seen, req)
    case Some(e) => Fail(e)
    case None => Delete(seen)
  }

  /** A conflict reported by the create starts the closure again. */
  function NextAttempt(th: Thread, ans: Answer): nat {
    if th.pc.Create? && ans.ConflictReply? && th.attempt + 1 < MAX_ATTEMPTS then th.attempt + 1 else th.attempt
  }

  /** Only a create adds an object and only a delete removes or marks one. */
  function NextObjects(v: State, th: Thread, ans: Answer): Objects {
    if th.pc.Create? && ans.Normal? && th.pc.a.ObjectKey() !in v.objects then v.objects[th.pc.a.ObjectKey() := th.pc.a]
    else if th.pc.Delete? && ans.Normal? && ReleaseKey(th.call.req) in v.objects then
      Deleted(v.objects, ReleaseKey(th.call.req))
    else v.objects
  }

  /** Only the holder of the index mutex moves a cursor. */
  function NextCursors(strategy: Strategy, v: State, th: Thread): Cursors {
    if th.pc.HoldIndex? then CursorsAfter(strategy, v.cursors, th.pc.s, |Ports(th.call)|) else v.cursors
  }

  /** A thread is blocked only at a mutex someone holds; a finished thread takes no step. */
  predicate Enabled(v: State, t: Tid) {
    && t in v.threads
    && !v.threads[t].pc.Finished?
    && (v.threads[t].pc.WaitPool? ==> LockKey(v.threads[t].call) !in v.locks)
    && (v.threads[t].pc.WaitIndex? ==> v.indexOwner.None?)
  }

  ghost predicate AnswerOk(v: State, th: Thread, ans: Answer) {
    th.pc.ReadLedger? && ans.Normal? ==> IsListing(ans.items, v.objects, th.pc.pool.name)
  }

  ghost function NextThread(strategy: Strategy, v: State, th: Thread, ans: Answer): Thread {
    Thread(th.call, NextPc(strategy, v, th, ans), NextAttempt(th, ans))
  }

  function NextLocks(v: State, t: Tid): map<string, Tid>
    requires t in v.threads
  {
    var key := LockKey(v.threads[t].call);
    if v.threads[t].pc.WaitPool? then v.locks[key := t]
    else if v.threads[t].pc.UnlockPool? then v.locks - {key}
    else v.locks
  }

  function NextOwner(v: State, t: Tid): Option<Tid>
    requires t in v.threads
  {
    if v.threads[t].pc.WaitIndex? then Some(t) else if v.threads[t].pc.LeaveIndex? then None else v.indexOwner
  }

  ghost function After(strategy: Strategy, v: State, t: Tid, ans: Answer): State
    requires t in v.threads
  {
    var th := v.threads[t];
    State(NextObjects(v, th, ans), v.pools, NextCursors(strategy, v, th), NextLocks(v, t), NextOwner(v, t),
          v.threads[t := NextThread(strategy, v, th, ans)])
  }

  // ---------- Runs ----------

  datatype Event = Step(t: Tid, ans: Answer) | Outside(objects: Objects, pools: Pools)

  ghost predicate PoolsNamed(pools: Pools) { forall p :: p in pools ==> pools[p].name == p }

  /** Outside actors delete allocations, set deletion marks and finalizers, and edit or replace pool
      specs; only `AllocatePort` creates allocations. */
  ghost predicate Possible(v: State, e: Event) {
    match e
    case Step(t, ans) => Enabled(v, t) && AnswerOk(v, v.threads[t], ans)
    case Outside(objects, pools) => Shrinks(v.objects, objects) && PoolsNamed(pools)
  }

  ghost function Exec(strategy: Strategy, v: State, e: Event): State
    requires Possible(v, e)
  {
    match e
    case Step(t, ans) => After(strategy, v, t, ans)
    case Outside(objects, pools) => v.(objects := objects, pools := pools)
  }

  /** Any finite set of calls, none started, over a ledger without double bookings. */
  ghost predicate Init(v: State) {
    && v.locks == map[]
    && v.indexOwner == None
    && (forall t :: t in v.threads ==> v.threads[t].pc == WaitPool && v.threads[t].attempt == 0)
    && KeysAgree(v.objects) && UniquePorts(v.objects) && PoolsNamed(v.pools)
  }

  ghost predicate Run(strategy: Strategy, states: seq<State>, events: seq<Event>) {
    && |states| == |events| + 1
    && Init(states[0])
    && forall i :: 0 <= i < |events| ==>
         Possible(states[i], events[i]) && states[i + 1] == Exec(strategy, states[i], events[i])
  }

  /** All calls for one pool pass the same namespace argument. */
  ghost predicate OneNamespace(v: State) {
    forall t, u :: t in v.threads && u in v.threads && v.threads[t].call.req.pool == v.threads[u].call.req.pool ==>
      v.threads[t].call.req.namespace == v.threads[u].call.req.namespace
  }

  ghost predicate Leads(strategy: Strategy, v: State, e: Event, v': State) {
    Possible(v, e) && v' == Exec(strategy, v, e)
  }

  /** A run from `start` to `v`. */
  ghost predicate Reaches(strategy: Strategy, start: State, states: seq<State>, events: seq<Event>, v: State) {
    Run(strategy, states, events) && states[0] == start && states[|events|] == v
  }

  lemma RunStep(strategy: Strategy, states: seq<State>, events: seq<Event>, i: nat)
    requires Run(strategy, states, events) && i < |events|
    ensures Leads(strategy, states[i], events[i], states[i + 1])
  {
  }

  lemma Extend(strategy: Strategy, start: State, states: seq<State>, events: seq<Event>, v: State, e: Event, v': State)
    returns (states': seq<State>, events': seq<Event>)
    requires Reaches(strategy, start, states, events, v) && Leads(strategy, v, e, v')
    ensures Reaches(strategy, start, states', events', v')
    ensures states' == states + [v'] && events' == events + [e]
  {
    states', events' := states + [v'], events + [e];
    forall i | 0 <= i < |events'|
      ensures Possible(states'[i], events'[i]) && states'[i + 1] == Exec(strategy, states'[i], events'[i])
    {
      if i < |events| {
        assert states'[i] == states[i] && states'[i + 1] == states[i + 1] && events'[i] == events[i];
      }
    }
  }
}
