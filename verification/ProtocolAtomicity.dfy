/** Without outside interference: of many releases of one allocation exactly one succeeds, and every create is
    the sequential attempt made at that instant. */
module ProtocolAtomicity {
  import opened Types
  import Ledger
  import opened Operations
  import opened Protocol
  import opened ProtocolSafety
  import opened ProtocolRelease
  import RR = RoundRobin

  // ---------- Exactly one release wins ----------

  predicate Ended(pc: Pc) { pc.UnlockPool? || pc.Finished? }

  /** The releases, with arguments `req`, that have succeeded. */
  ghost function Winners(v: State, req: Request): set<Tid> {
    set t | t in v.threads && v.threads[t].call == ReleaseCall(req)
            && Ended(v.threads[t].pc) && v.threads[t].pc.reply == ReleasedOk
  }

  /** What is stored under the key belongs to the pod and pool of `req`. */
  ghost predicate Owned(objects: Objects, req: Request) {
    var k := ReleaseKey(req);
    k in objects ==> objects[k].ServesPod(req.podName, req.podNamespace) && objects[k].poolLabel == req.pool
  }

  /** No call allocates under the name of `req`. */
  ghost predicate NoReallocation(v: State, req: Request) {
    forall t :: t in v.threads && v.threads[t].call.AllocateCall? ==> !SameName(v.threads[t].call.req, req)
  }

  /** Releases of `req` meet no API fault. */
  ghost predicate Smooth(v: State, e: Event, req: Request) {
    e.Step? && (e.t in v.threads && v.threads[e.t].call == ReleaseCall(req) ==> e.ans.Normal?)
  }

  ghost predicate RaceInv(v: State, req: Request) {
    && DeleteInv(v, true)
    && NoReallocation(v, req)
    && Owned(v.objects, req)
    && |Winners(v, req)| == (if Active(v.objects, req) then 0 else 1)
    && (forall t :: t in v.threads && v.threads[t].call == ReleaseCall(req) && Ended(v.threads[t].pc) ==>
      !Active(v.objects, req))
  }

  /** Steps that leave the allocation alone: creates go to other keys, deletes to other keys. */
  lemma RaceStoreKept(strategy: Strategy, v: State, t: Tid, ans: Answer, req: Request)
    requires Base(strategy, v) && OneNamespace(v) && RaceInv(v, req) && Enabled(v, t)
    ensures var objects' := NextObjects(v, v.threads[t], ans); var k := ReleaseKey(req);
            if v.threads[t].pc.Delete? && v.threads[t].call == ReleaseCall(req) && ans.Normal? then
              Active(v.objects, req) && !Active(objects', req) && Owned(objects', req)
            else (k in objects' <==> k in v.objects) && (k in v.objects ==> objects'[k] == v.objects[k])
  {
    var th := v.threads[t];
    assert KindOk(th) && SeenOk(v, th, true);
    if Creates(v, th, ans) {
      PlannedFresh(strategy, th);
    } else if th.pc.Delete? && ans.Normal? {
      if ReleaseKey(th.call.req) == ReleaseKey(req) {
        assert th.call.req == req;
      }
    }
  }

  /** A release that ends without success has found the allocation gone or being deleted. */
  lemma LoserSawItGone(strategy: Strategy, v: State, t: Tid, ans: Answer, req: Request)
    requires RaceInv(v, req) && Enabled(v, t) && ans.Normal?
    requires v.threads[t].call == ReleaseCall(req) && Ended(NextPc(strategy, v, v.threads[t], ans))
    requires !Ended(v.threads[t].pc)
    ensures !Active(NextObjects(v, v.threads[t], ans), req)
    ensures NextPc(strategy, v, v.threads[t], ans).UnlockPool?
    ensures NextPc(strategy, v, v.threads[t], ans).reply == ReleasedOk <==> v.threads[t].pc.Delete?
    ensures NextPc(strategy, v, v.threads[t], ans).reply in {ReleasedOk, Failed(NotFound), Failed(AlreadyDeleting)}
  {
    var th := v.threads[t];
    assert KindOk(th) && SeenOk(v, th, true);
  }

  lemma RaceKept(strategy: Strategy, v: State, e: Event, req: Request)
    requires Base(strategy, v) && OneNamespace(v) && RaceInv(v, req) && Possible(v, e) && Smooth(v, e, req)
    ensures RaceInv(Exec(strategy, v, e), req)
  {
    hide Base, Plan;
    var t, ans, v' := e.t, e.ans, Exec(strategy, v, e);
    var th := v.threads[t];
    DeleteInvKept(strategy, v, e, true);
    ThreadsAfter(strategy, v, t, ans);
    RaceStoreKept(strategy, v, t, ans, req);
    if th.call == ReleaseCall(req) && !Ended(th.pc) && Ended(v'.threads[t].pc) {
      LoserSawItGone(strategy, v, t, ans, req);
    }
    WinnersAfter(strategy, v, t, ans, req);
  }

  lemma WinnersAfter(strategy: Strategy, v: State, t: Tid, ans: Answer, req: Request)
    requires RaceInv(v, req) && Enabled(v, t)
    requires v.threads[t].call == ReleaseCall(req) ==> ans.Normal?
    ensures var won := v.threads[t].pc.Delete? && v.threads[t].call == ReleaseCall(req);
            && Winners(After(strategy, v, t, ans), req) == Winners(v, req) + (if won then {t} else {})
            && (won ==> t !in Winners(v, req))
  {
    var th, v' := v.threads[t], After(strategy, v, t, ans);
    ThreadsAfter(strategy, v, t, ans);
    if th.call == ReleaseCall(req) && !Ended(th.pc) && Ended(v'.threads[t].pc) {
      LoserSawItGone(strategy, v, t, ans, req);
    }
    forall u ensures u in Winners(v', req) <==>
                     u in Winners(v, req) || (u == t && th.pc.Delete? && th.call == ReleaseCall(req))
    {
      if u == t && th.call == ReleaseCall(req) && Ended(th.pc) {
        assert v'.threads[t].pc == Finished(th.pc.reply);
      }
    }
  }

  lemma RaceInit(v: State, req: Request)
    requires Init(v) && NoReallocation(v, req) && Active(v.objects, req)
    ensures RaceInv(v, req)
  {
    assert Winners(v, req) == {};
  }

  lemma {:induction false} RaceReached(strategy: Strategy, states: seq<State>, events: seq<Event>, req: Request, m: nat)
    requires Run(strategy, states, events) && OneNamespace(states[0]) && m < |states|
    requires forall i :: 0 <= i < |events| ==> Smooth(states[i], events[i], req)
    requires NoReallocation(states[0], req) && Active(states[0].objects, req)
    ensures RaceInv(states[m], req)
  {
    hide Base, RaceInv, Exec;
    if m == 0 {
      RaceInit(states[0], req);
    } else {
      RaceReached(strategy, states, events, req, m - 1);
      BaseReached(strategy, states, events, m - 1);
      LocksReached(strategy, states, events, m - 1);
      RaceKept(strategy, states[m - 1], events[m - 1], req);
    }
  }

  /** Of any number of interleaved releases of one allocation, with nothing allocated under its name, no
      outside actor and no fault, at most one has succeeded at any time, and exactly one as soon as one
      has ended; all that remains of the allocation then is at most a deletion mark. */
  lemma ExactlyOneRelease(strategy: Strategy, states: seq<State>, events: seq<Event>, req: Request, m: nat)
    requires Run(strategy, states, events) && OneNamespace(states[0]) && m < |states|
    requires forall i :: 0 <= i < |events| ==> Smooth(states[i], events[i], req)
    requires NoReallocation(states[0], req) && Active(states[0].objects, req)
    ensures |Winners(states[m], req)| <= 1
    ensures |Winners(states[m], req)| == 1 <==> !Active(states[m].objects, req)
    ensures (exists t :: && t in states[m].threads && states[m].threads[t].call == ReleaseCall(req)
                         && Ended(states[m].threads[t].pc))
            ==> |Winners(states[m], req)| == 1
  {
    RaceReached(strategy, states, events, req, m);
  }

  // ---------- Every create is a sequential attempt ----------

  /** Between the duplicate check and the create, while nobody interferes from outside, what the thread
      read is still the truth: its pod holds nothing in the pool, the pool is as read, and the snapshot
      lists exactly the pool's ledger. */
  ghost predicate ReadsCurrent(v: State, th: Thread) {
    var req := th.call.req;
    && (th.pc.ReadPool? || th.pc.ReadLedger? || HasSnapshot(th.pc) ==>
      !Holds(v.objects, req.pool, req.podName, req.podNamespace))
    && (th.pc.ReadLedger? ==> req.pool in v.pools && v.pools[req.pool] == th.pc.pool)
    && (HasSnapshot(th.pc) ==>
          && req.pool in v.pools && v.pools[req.pool] == th.pc.s.pool
          && Ledger.IsListing(th.pc.s.items, v.objects, req.pool))
  }

  ghost predicate AllCurrent(v: State) { forall t :: t in v.threads ==> ReadsCurrent(v, v.threads[t]) }

  lemma HoldsIsMembership(objects: Objects, pool: string, podName: string, podNamespace: string)
    ensures Holds(objects, pool, podName, podNamespace)
            <==> exists a :: a in Ledger.Members(objects, pool) && a.ServesPod(podName, podNamespace)
  {
    if Holds(objects, pool, podName, podNamespace) {
      var k :| k in objects && objects[k].poolLabel == pool && objects[k].ServesPod(podName, podNamespace);
      assert objects[k] in Ledger.Members(objects, pool);
    }
  }

  lemma SameMembers(objects: Objects, objects': Objects, pool: string)
    requires forall k :: k in objects && objects[k].poolLabel == pool ==> k in objects' && objects'[k] == objects[k]
    requires forall k :: k in objects' && objects'[k].poolLabel == pool ==> k in objects && objects'[k] == objects[k]
    ensures Ledger.Members(objects', pool) == Ledger.Members(objects, pool)
  {
    forall a | a in Ledger.Members(objects, pool) ensures a in Ledger.Members(objects', pool) {
      var k :| k in objects && objects[k].poolLabel == pool && objects[k] == a;
      assert objects'[k] == a;
    }
  }

  lemma CreateElsewhere(objects: Objects, a: Allocation, pool: string)
    requires a.ObjectKey() !in objects && a.poolLabel != pool
    ensures Ledger.Members(objects[a.ObjectKey() := a], pool) == Ledger.Members(objects, pool)
  {
    SameMembers(objects, objects[a.ObjectKey() := a], pool);
  }

  lemma DeleteElsewhere(objects: Objects, k: Key, pool: string)
    requires k in objects && objects[k].poolLabel != pool
    ensures Ledger.Members(Deleted(objects, k), pool) == Ledger.Members(objects, pool)
  {
    SameMembers(objects, Deleted(objects, k), pool);
  }

  /** While a thread is inside a pool, the others create and delete in other pools only. */
  lemma OthersElsewhere(strategy: Strategy, v: State, t: Tid, u: Tid)
    requires Base(strategy, v) && OneNamespace(v) && DeleteInv(v, true) && t in v.threads && u in v.threads && t != u
    requires Inside(v.threads[u].pc) && Inside(v.threads[t].pc)
    ensures v.threads[t].call.req.pool != v.threads[u].call.req.pool
    ensures v.threads[t].pc.Create? ==> v.threads[t].pc.a.poolLabel == v.threads[t].call.req.pool
    ensures v.threads[t].pc.Delete? ==> var k := ReleaseKey(v.threads[t].call.req);
                                        k in v.objects && v.objects[k].poolLabel == v.threads[t].call.req.pool
  {
    LocksExclude(v);
    if v.threads[t].pc.Create? {
      PlannedFresh(strategy, v.threads[t]);
    } else if v.threads[t].pc.Delete? {
      assert SeenOk(v, v.threads[t], true);
    }
  }

  /** While a thread is inside a pool, steps of the others leave that pool's ledger alone. */
  lemma OthersKeepLedger(strategy: Strategy, v: State, t: Tid, ans: Answer, u: Tid)
    requires Base(strategy, v) && OneNamespace(v) && DeleteInv(v, true) && t in v.threads && u in v.threads && t != u
    requires Inside(v.threads[u].pc)
    ensures Ledger.Members(NextObjects(v, v.threads[t], ans), v.threads[u].call.req.pool) ==
              Ledger.Members(v.objects, v.threads[u].call.req.pool)
  {
    var th, pool := v.threads[t], v.threads[u].call.req.pool;
    if th.pc.Create? || th.pc.Delete? {
      OthersElsewhere(strategy, v, t, u);
      if Creates(v, th, ans) {
        CreateElsewhere(v.objects, th.pc.a, pool);
      } else if th.pc.Delete? {
        DeleteElsewhere(v.objects, ReleaseKey(th.call.req), pool);
      }
    }
  }

  lemma OtherReadsKept(strategy: Strategy, v: State, t: Tid, ans: Answer, u: Tid)
    requires Base(strategy, v) && OneNamespace(v) && DeleteInv(v, true) && AllCurrent(v) && t in v.threads
             && u in v.threads && t != u
    ensures ReadsCurrent(v.(objects := NextObjects(v, v.threads[t], ans)), v.threads[u])
  {
    var th, req := v.threads[u], v.threads[u].call.req;
    if Inside(th.pc) {
      OthersKeepLedger(strategy, v, t, ans, u);
      HoldsIsMembership(v.objects, req.pool, req.podName, req.podNamespace);
      HoldsIsMembership(NextObjects(v, v.threads[t], ans), req.pool, req.podName, req.podNamespace);
      assert ReadsCurrent(v, th);
    }
  }

  lemma OwnReadsKept(strategy: Strategy, v: State, th: Thread, ans: Answer)
    requires ReadsCurrent(v, th) && PoolsNamed(v.pools) && NamesOk(th) && AnswerOk(v, th, ans)
    ensures ReadsCurrent(v.(objects := NextObjects(v, th, ans)), NextThread(strategy, v, th, ans))
  {
    hide Plan, Select, PlanAt;
    var pc := NextPc(strategy, v, th, ans);
    if HasSnapshot(pc) {
      SnapshotKeepsStore(strategy, v, th, ans);
      ActSnapshot(strategy, v, th, ans);
      OwnSnapshotCurrent(strategy, v, th, ans);
    } else if pc.ReadPool? || pc.ReadLedger? {
      assert NextObjects(v, th, ans) == v.objects;
    }
  }

  lemma OwnSnapshotCurrent(strategy: Strategy, v: State, th: Thread, ans: Answer)
    requires ReadsCurrent(v, th) && NamesOk(th) && PoolsNamed(v.pools) && HasSnapshot(NextPc(strategy, v, th, ans))
             && AnswerOk(v, th, ans)
    ensures var s := NextPc(strategy, v, th, ans).s; var req := th.call.req;
            req.pool in v.pools && v.pools[req.pool] == s.pool && Ledger.IsListing(s.items, v.objects, req.pool)
    ensures !Holds(v.objects, th.call.req.pool, th.call.req.podName, th.call.req.podNamespace)
  {
    hide Plan, Select, PlanAt, Ledger.IsListing;
    ActSnapshot(strategy, v, th, ans);
  }

  lemma CurrentKept(strategy: Strategy, v: State, t: Tid, ans: Answer)
    requires Base(strategy, v) && OneNamespace(v) && DeleteInv(v, true) && AllCurrent(v) && Possible(v, Step(t, ans))
    ensures AllCurrent(After(strategy, v, t, ans))
  {
    var v' := After(strategy, v, t, ans);
    ThreadsAfter(strategy, v, t, ans);
    forall u | u in v'.threads ensures ReadsCurrent(v', v'.threads[u]) {
      if u == t {
        OwnReadsKept(strategy, v, v.threads[t], ans);
        assert ReadsCurrent(v.(objects := v'.objects), v'.threads[u]);
      } else {
        OtherReadsKept(strategy, v, t, ans, u);
        assert ReadsCurrent(v.(objects := v'.objects), v'.threads[u]);
      }
    }
  }

  lemma {:induction false} CurrentReached(strategy: Strategy, states: seq<State>, events: seq<Event>, m: nat)
    requires Run(strategy, states, events) && OneNamespace(states[0]) && NoOutside(events) && m < |states|
    ensures AllCurrent(states[m]) && DeleteInv(states[m], true) && Base(strategy, states[m]) && OneNamespace(states[m])
  {
    BaseReached(strategy, states, events, m);
    LocksReached(strategy, states, events, m);
    DeleteInvReached(strategy, states, events, true, m);
    if m > 0 {
      CurrentReached(strategy, states, events, m - 1);
      CurrentKept(strategy, states[m - 1], events[m - 1].t, events[m - 1].ans);
    }
  }

  lemma AtomicCreate(strategy: Strategy, v: State, th: Thread, ans: Answer, cursors: Cursors)
    requires PlanOk(strategy, th) && NamesOk(th) && ReadsCurrent(v, th) && PoolsNamed(v.pools) && Creates(v, th, ans)
    requires RR.CursorOf(cursors, CursorKey(th.pc.s.pool)) == th.pc.index
    ensures var o := Attempt(strategy, v.objects, v.pools, cursors, th.call.req, Ports(th.call));
            o.result == Ok(th.pc.a) && o.objects == NextObjects(v, th, ans)
  {
    AttemptFrom(strategy, v.objects, v.pools, cursors, th.call.req, Ports(th.call), th.pc.s.items, th.pc.a);
  }

  /** Atomicity: without outside interference, the create of any interleaved call does to the store exactly
      what the whole sequential attempt would do there and then, with the cursor the call had read. */
  lemma CreateIsAtomic(strategy: Strategy, states: seq<State>, events: seq<Event>, m: nat, cursors: Cursors)
    requires Run(strategy, states, events) && OneNamespace(states[0]) && NoOutside(events) && m < |events|
    requires events[m].t in states[m].threads
    requires Creates(states[m], states[m].threads[events[m].t], events[m].ans)
    requires var pc := states[m].threads[events[m].t].pc; RR.CursorOf(cursors, CursorKey(pc.s.pool)) == pc.index
    ensures var th := states[m].threads[events[m].t];
            var o := Attempt(strategy, states[m].objects, states[m].pools, cursors, th.call.req, Ports(th.call));
            o.result == Ok(th.pc.a) && o.objects == states[m + 1].objects
  {
    CurrentReached(strategy, states, events, m);
    var th := states[m].threads[events[m].t];
    assert ReadsCurrent(states[m], th) && LocalOk(strategy, th);
    AtomicCreate(strategy, states[m], th, events[m].ans, cursors);
  }
}
