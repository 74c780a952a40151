/** Releases under interleaving touch the allocation of their own pod in their own pool and nothing else, as
    long as nobody deletes behind the allocator's back or no call derives the name of a release that can get
    as far as its delete. */
module ProtocolRelease {
  import opened Types
  import opened Operations
  import opened Protocol
  import opened ProtocolSafety

  ghost predicate NoOutside(events: seq<Event>) { forall i :: 0 <= i < |events| ==> events[i].Step? }

  predicate SameName(r: Request, s: Request) {
    AllocationName(r.pool, r.podName) == AllocationName(s.pool, s.podName)
  }

  // ---------- Isolation ----------

  /** The allocation named by `req` is there, belongs to its pod and pool, and is not being deleted. */
  ghost predicate Active(objects: Objects, req: Request) {
    ReleaseKey(req) in objects && ReleaseCheck(objects[ReleaseKey(req)], req) == None
  }

  /** Thread `t` releases and thread `u` allocates under the same derived name in another pool. */
  ghost predicate Colliding(v: State, t: Tid, u: Tid) {
    && t in v.threads && u in v.threads
    && v.threads[t].call.ReleaseCall? && v.threads[u].call.AllocateCall?
    && SameName(v.threads[t].call.req, v.threads[u].call.req)
    && v.threads[t].call.req.pool != v.threads[u].call.req.pool
  }

  /** Call `w` allocates for the pod of `req` in its pool. */
  predicate AllocatesFor(call: Call, req: Request) {
    call.AllocateCall? && call.req.pool == req.pool && call.req.podName == req.podName
    && call.req.podNamespace == req.podNamespace
  }

  /** The allocation thread `t` releases is active, or some call may create it. */
  ghost predicate CanBeActive(v: State, t: Tid)
    requires t in v.threads
  {
    || Active(v.objects, v.threads[t].call.req)
    || exists w :: w in v.threads && AllocatesFor(v.threads[w].call, v.threads[t].call.req)
  }

  /** No call collides with a release that has or may get something to release. */
  ghost predicate NoHarm(v: State) {
    forall t, u :: Colliding(v, t, u) ==> !CanBeActive(v, t)
  }

  /** A release some call collides with is not about to delete. */
  ghost predicate CollidersIdle(v: State) {
    forall t, u :: Colliding(v, t, u) ==> !v.threads[t].pc.Delete?
  }

  /** The object a releasing thread checked: still the one stored under its key, if any is; without
      outside actors, certainly there and untouched. */
  ghost predicate SeenOk(v: State, th: Thread, calm: bool) {
    th.pc.Delete? ==>
      var k := ReleaseKey(th.call.req);
      && th.call.ReleaseCall?
      && ReleaseCheck(th.pc.seen, th.call.req) == None
      && (k in v.objects ==> SameRecord(th.pc.seen, v.objects[k]))
      && (calm ==> k in v.objects && v.objects[k] == th.pc.seen)
  }

  ghost predicate KindOk(th: Thread) {
    && (th.pc.Fetch? || th.pc.Delete? ==> th.call.ReleaseCall?)
    && (HasSnapshot(th.pc) || th.pc.CheckDuplicate? || th.pc.ReadPool? || th.pc.ReadLedger? ==> th.call.AllocateCall?)
  }

  ghost predicate DeleteInv(v: State, calm: bool) {
    forall t :: t in v.threads ==> KindOk(v.threads[t]) && SeenOk(v, v.threads[t], calm)
  }

  lemma KindKept(strategy: Strategy, v: State, th: Thread, ans: Answer)
    requires KindOk(th)
    ensures KindOk(NextThread(strategy, v, th, ans))
  {
  }

  lemma {:induction false} KindReached(strategy: Strategy, states: seq<State>, events: seq<Event>, m: nat)
    requires Run(strategy, states, events) && m < |states|
    ensures forall t :: t in states[m].threads ==> KindOk(states[m].threads[t])
  {
    if m > 0 {
      var v, e := states[m - 1], events[m - 1];
      KindReached(strategy, states, events, m - 1);
      if e.Step? {
        ThreadsAfter(strategy, v, e.t, e.ans);
        KindKept(strategy, v, v.threads[e.t], e.ans);
      }
    }
  }

  // ---------- Releases with nothing to release ----------

  /** Only an allocation for the pod of `req` in its pool makes what `req` names active. */
  lemma StaysInactive(strategy: Strategy, v: State, e: Event, req: Request)
    requires Base(strategy, v) && Possible(v, e) && !Active(v.objects, req)
    requires e.Step? ==> KindOk(v.threads[e.t]) && !AllocatesFor(v.threads[e.t].call, req)
    ensures !Active(Exec(strategy, v, e).objects, req)
  {
    if e.Step? {
      var th := v.threads[e.t];
      ActStore(v, th, e.ans);
      if Creates(v, th, e.ans) { PlannedFresh(strategy, th); }
    }
  }

  /** Such a release fetches nothing to delete. */
  lemma StaysIdle(strategy: Strategy, v: State, e: Event, v': State, t: Tid)
    requires Leads(strategy, v, e, v') && t in v.threads && v.threads[t].call.ReleaseCall?
    requires !v.threads[t].pc.Delete? && !Active(v.objects, v.threads[t].call.req)
    ensures t in v'.threads && !v'.threads[t].pc.Delete?
  {
    if e.Step? { ThreadsAfter(strategy, v, e.t, e.ans); }
  }

  lemma {:induction false} IdleReached(strategy: Strategy, states: seq<State>, events: seq<Event>, m: nat, t: Tid)
    requires Run(strategy, states, events) && m < |states| && t in states[0].threads
    requires states[0].threads[t].call.ReleaseCall? && !CanBeActive(states[0], t)
    ensures t in states[m].threads && !states[m].threads[t].pc.Delete?
    ensures !Active(states[m].objects, states[0].threads[t].call.req)
  {
    hide Active, Base, LocksOk, Exec, NextPc, After;
    if m > 0 {
      var v, e := states[m - 1], events[m - 1];
      IdleReached(strategy, states, events, m - 1, t);
      LocksReached(strategy, states, events, m - 1);
      BaseReached(strategy, states, events, m - 1);
      KindReached(strategy, states, events, m - 1);
      RunStep(strategy, states, events, m - 1);
      StaysIdle(strategy, v, e, states[m], t);
      StaysInactive(strategy, v, e, states[0].threads[t].call.req);
    }
  }

  lemma CollidersIdleReached(strategy: Strategy, states: seq<State>, events: seq<Event>, m: nat)
    requires Run(strategy, states, events) && m < |states| && NoHarm(states[0])
    ensures CollidersIdle(states[m])
  {
    LocksReached(strategy, states, events, m);
    forall t, u | Colliding(states[m], t, u) ensures !states[m].threads[t].pc.Delete? {
      assert Colliding(states[0], t, u);
      IdleReached(strategy, states, events, m, t);
    }
  }

  // ---------- The object a release deletes ----------

  lemma OwnSeenKept(strategy: Strategy, v: State, th: Thread, ans: Answer, v': State, calm: bool)
    requires KindOk(th) && v'.objects == NextObjects(v, th, ans)
    ensures SeenOk(v', NextThread(strategy, v, th, ans), calm)
  {
    var pc := NextPc(strategy, v, th, ans);
    if pc.Delete? {
      assert th.pc.Fetch?;
    }
  }

  /** What others create while a release is about to delete goes under other names, unless names collide. */
  lemma CreatesElsewhere(strategy: Strategy, v: State, t: Tid, u: Tid)
    requires Base(strategy, v) && OneNamespace(v) && CollidersIdle(v) && t in v.threads && u in v.threads && t != u
    requires v.threads[u].pc.Delete? && v.threads[t].pc.Create? && KindOk(v.threads[t]) && KindOk(v.threads[u])
    ensures v.threads[t].pc.a.ObjectKey() != ReleaseKey(v.threads[u].call.req)
  {
    hide Plan, FreshOn, LocksOk;
    var th, other := v.threads[t], v.threads[u];
    assert LocalOk(strategy, th) && Inside(th.pc) && Inside(other.pc);
    LocksExclude(v);
    PlannedFresh(strategy, th);
    assert !Colliding(v, u, t);
    assert !SameName(other.call.req, th.call.req);
  }

  /** A release and another call of the same pool are never inside together, so no other thread touches
      the object being released unless names collide, and then only after an outside deletion. */
  lemma OthersLeaveSeen(strategy: Strategy, v: State, t: Tid, ans: Answer, u: Tid, calm: bool)
    requires Base(strategy, v) && OneNamespace(v) && DeleteInv(v, calm) && (calm || CollidersIdle(v))
    requires t in v.threads && u in v.threads && t != u && v.threads[u].pc.Delete?
    ensures var objects' := NextObjects(v, v.threads[t], ans); var k := ReleaseKey(v.threads[u].call.req);
            (k in objects' <==> k in v.objects) && (k in v.objects ==> objects'[k] == v.objects[k])
  {
    hide Plan, FreshOn, LocksOk;
    var th, other := v.threads[t], v.threads[u];
    var k := ReleaseKey(other.call.req);
    assert KindOk(th) && KindOk(other) && SeenOk(v, other, calm);
    LocksExclude(v);
    assert Inside(other.pc);
    if Creates(v, th, ans) {
      if !calm { CreatesElsewhere(strategy, v, t, u); }
    } else if th.pc.Delete? && ReleaseKey(th.call.req) == k {
      assert Inside(th.pc);
      assert SeenOk(v, th, calm);
    }
  }

  lemma OtherSeenKept(strategy: Strategy, v: State, t: Tid, ans: Answer, v': State, u: Tid, calm: bool)
    requires Base(strategy, v) && OneNamespace(v) && DeleteInv(v, calm) && (calm || CollidersIdle(v))
    requires t in v.threads && u in v.threads && t != u && v'.objects == NextObjects(v, v.threads[t], ans)
    ensures SeenOk(v', v.threads[u], calm)
  {
    hide Base, CollidersIdle;
    if v.threads[u].pc.Delete? {
      OthersLeaveSeen(strategy, v, t, ans, u, calm);
    }
  }

  lemma DeleteInvKept(strategy: Strategy, v: State, e: Event, calm: bool)
    requires Base(strategy, v) && OneNamespace(v) && DeleteInv(v, calm) && Possible(v, e)
    requires if calm then e.Step? else CollidersIdle(v)
    ensures DeleteInv(Exec(strategy, v, e), calm)
  {
    var v' := Exec(strategy, v, e);
    if e.Step? {
      ThreadsAfter(strategy, v, e.t, e.ans);
      KindKept(strategy, v, v.threads[e.t], e.ans);
      OwnSeenKept(strategy, v, v.threads[e.t], e.ans, v', calm);
      forall u | u in v'.threads && u != e.t ensures SeenOk(v', v'.threads[u], calm) {
        OtherSeenKept(strategy, v, e.t, e.ans, v', u, calm);
      }
    }
  }

  lemma {:induction false} DeleteInvReached(strategy: Strategy, states: seq<State>, events: seq<Event>, calm: bool,
                                            m: nat)
    requires Run(strategy, states, events) && OneNamespace(states[0]) && m < |states|
    requires if calm then NoOutside(events) else NoHarm(states[0])
    ensures DeleteInv(states[m], calm)
  {
    if m > 0 {
      DeleteInvReached(strategy, states, events, calm, m - 1);
      BaseReached(strategy, states, events, m - 1);
      LocksReached(strategy, states, events, m - 1);
      if !calm { CollidersIdleReached(strategy, states, events, m - 1); }
      DeleteInvKept(strategy, states[m - 1], events[m - 1], calm);
    }
  }

  /** The objects a step of a release takes away or marks. */
  ghost predicate Touched(v: State, v': State, k: Key) {
    k in v.objects && (k !in v'.objects || v'.objects[k] != v.objects[k])
  }

  /** Thread `t` is releasing, and `k` is the allocation of its own pod in its own pool. */
  ghost predicate Own(v: State, t: Tid, k: Key) {
    && t in v.threads && k in v.objects && k == ReleaseKey(v.threads[t].call.req)
    && v.objects[k].poolLabel == v.threads[t].call.req.pool
    && v.objects[k].ServesPod(v.threads[t].call.req.podName, v.threads[t].call.req.podNamespace)
  }

  /** Event `m` is a step of a releasing thread that takes away or marks the object at `k`. */
  ghost predicate ReleaseTouches(states: seq<State>, events: seq<Event>, m: nat, k: Key) {
    && m < |events| && m + 1 < |states|
    && events[m].Step? && events[m].t in states[m].threads
    && states[m].threads[events[m].t].call.ReleaseCall?
    && Touched(states[m], states[m + 1], k)
  }

  /** Isolation: if nobody deletes behind the allocator's back, or no call collides with a release that can
      have something to release, a step of a releasing thread takes away or marks no object but the allocation
      of its own pod in its own pool. */
  lemma ReleaseTouchesOwn(strategy: Strategy, states: seq<State>, events: seq<Event>, m: nat, k: Key)
    requires Run(strategy, states, events) && OneNamespace(states[0])
    requires NoOutside(events) || NoHarm(states[0])
    requires ReleaseTouches(states, events, m, k)
    ensures Own(states[m], events[m].t, k)
  {
    DeleteInvReached(strategy, states, events, NoOutside(events), m);
    var th := states[m].threads[events[m].t];
    assert KindOk(th);
  }
}
