/** Exactly when a release stays isolated in spite of outside deletions: if a call of another pool derives the
    name of a release that can have something to release, some schedule makes the release delete that call's
    allocation. */
module ProtocolCollision {
  import opened Types
  import opened Operations
  import opened Protocol
  import opened ProtocolSafety
  import opened ProtocolRelease
  import opened ProtocolSchedules

  ghost predicate NamespacesPlain(v: State) {
    forall t :: t in v.threads ==> '/' !in v.threads[t].call.req.namespace
  }

  ghost predicate Started(strategy: Strategy, start: State, states: seq<State>, events: seq<Event>, v: State) {
    Reaches(strategy, start, states, events, v) && v.locks == map[] && v.indexOwner == None
  }

  /** Some call creates the allocation `t` is to release, and ends. */
  lemma Provide(strategy: Strategy, start: State, t: Tid, w: Tid)
    returns (states: seq<State>, events: seq<Event>, v: State)
    requires Init(start) && t in start.threads && w in start.threads && t != w
    requires AllocatesFor(start.threads[w].call, start.threads[t].call.req)
    ensures Started(strategy, start, states, events, v) && OthersSame(start, v, w)
    ensures Active(v.objects, start.threads[t].call.req)
  {
    hide Base, Plan, CursorsAfter;
    var namespace := start.threads[t].call.req.namespace;
    states, events, v := RunInRoom(strategy, start, [start], [], start, w, namespace);
    BaseHolds(strategy, start, states, events, v);
    var x, a := CreateLands(strategy, v, w, namespace);
    states, events := Extend(strategy, start, states, events, v, Step(w, Normal([])), x);
    v := Leave(strategy, x, w);
    states, events := Extend(strategy, start, states, events, x, Step(w, Normal([])), v);
  }

  lemma Leave(strategy: Strategy, x: State, w: Tid) returns (v: State)
    requires w in x.threads && x.threads[w].pc.UnlockPool? && x.locks == map[LockKey(x.threads[w].call) := w]
    ensures Leads(strategy, x, Step(w, Normal([])), v)
    ensures v.objects == x.objects && v.locks == map[] && v.indexOwner == x.indexOwner && OthersSame(x, v, w)
  {
    ThreadsAfter(strategy, x, w, Normal([]));
    v := Exec(strategy, x, Step(w, Normal([])));
    assert v.locks == map[];
  }

  /** With its allocation active, a release alone in the system gets as far as its delete. */
  lemma ReleaseFetches(strategy: Strategy, start: State, states: seq<State>, events: seq<Event>, v: State, t: Tid)
    returns (states': seq<State>, events': seq<Event>, v': State)
    requires Started(strategy, start, states, events, v)
    requires t in v.threads && v.threads[t].pc == WaitPool && v.threads[t].call.ReleaseCall?
    requires Active(v.objects, v.threads[t].call.req)
    ensures Reaches(strategy, start, states', events', v') && OthersSame(v, v', t)
    ensures v'.locks == map[LockKey(v.threads[t].call) := t] && v'.indexOwner == None
    ensures v'.threads[t].pc.Delete?
  {
    var v1 := Exec(strategy, v, Step(t, Normal([])));
    ThreadsAfter(strategy, v, t, Normal([]));
    states', events' := Extend(strategy, start, states, events, v, Step(t, Normal([])), v1);
    v' := Exec(strategy, v1, Step(t, Normal([])));
    ThreadsAfter(strategy, v1, t, Normal([]));
    states', events' := Extend(strategy, start, states', events', v1, Step(t, Normal([])), v');
  }

  /** From any start in which its allocation can become active, a release can be brought to its delete, with a
      colliding call not begun. */
  lemma ReachDelete(strategy: Strategy, start: State, t: Tid, u: Tid)
    returns (states: seq<State>, events: seq<Event>, v: State)
    requires Init(start) && Colliding(start, t, u) && CanBeActive(start, t)
    ensures Reaches(strategy, start, states, events, v)
    ensures v.locks == map[LockKey(start.threads[t].call) := t] && v.indexOwner == None
    ensures t in v.threads && u in v.threads && v.threads[u] == start.threads[u]
    ensures v.threads[t].call == start.threads[t].call && v.threads[t].pc.Delete?
  {
    if Active(start.objects, start.threads[t].call.req) {
      states, events, v := [start], [], start;
    } else {
      var w :| w in start.threads && AllocatesFor(start.threads[w].call, start.threads[t].call.req);
      states, events, v := Provide(strategy, start, t, w);
    }
    states, events, v := ReleaseFetches(strategy, start, states, events, v, t);
  }

  lemma DeleteTouches(strategy: Strategy, x: State, t: Tid) returns (y: State)
    requires t in x.threads && x.threads[t].pc.Delete? && ReleaseKey(x.threads[t].call.req) in x.objects
    requires !x.objects[ReleaseKey(x.threads[t].call.req)].terminating
    ensures Leads(strategy, x, Step(t, Normal([])), y)
    ensures Touched(x, y, ReleaseKey(x.threads[t].call.req))
  {
    y := Exec(strategy, x, Step(t, Normal([])));
  }

  /** Then an outsider empties the store, and the colliding call creates its allocation where the released one was. */
  lemma OtherCreates(strategy: Strategy, start: State, t: Tid, u: Tid)
    returns (states: seq<State>, events: seq<Event>, x: State, k: Key)
    requires Init(start) && NamespacesPlain(start) && Colliding(start, t, u) && CanBeActive(start, t)
    ensures Reaches(strategy, start, states, events, x)
    ensures t in x.threads && x.threads[t].call == start.threads[t].call && x.threads[t].pc.Delete?
    ensures var req := start.threads[u].call.req;
            && k == ReleaseKey(start.threads[t].call.req) && k in x.objects
            && x.objects[k].poolLabel == req.pool && x.objects[k].ServesPod(req.podName, req.podNamespace)
            && !x.objects[k].terminating
  {
    hide Base, Plan, CanBeActive;
    var release, allocate := start.threads[t].call.req, start.threads[u].call.req;
    var v, a;
    PoolKeyInjective(release.namespace, release.pool, allocate.namespace, allocate.pool);
    states, events, v := ReachDelete(strategy, start, t, u);
    states, events, v := RunInRoom(strategy, start, states, events, v, u, release.namespace);
    BaseHolds(strategy, start, states, events, v);
    x, a := CreateLands(strategy, v, u, release.namespace);
    states, events := Extend(strategy, start, states, events, v, Step(u, Normal([])), x);
    k := a.ObjectKey();
  }

  /** The release deletes the other pod's allocation. */
  lemma Misdirected(strategy: Strategy, start: State, t: Tid, u: Tid)
    returns (states: seq<State>, events: seq<Event>, m: nat, k: Key)
    requires Init(start) && NamespacesPlain(start) && Colliding(start, t, u) && CanBeActive(start, t)
    ensures Run(strategy, states, events) && states[0] == start
    ensures ReleaseTouches(states, events, m, k) && !Own(states[m], events[m].t, k)
    ensures states[m].objects[k].ServesPod(start.threads[u].call.req.podName, start.threads[u].call.req.podNamespace)
  {
    var x;
    states, events, x, k := OtherCreates(strategy, start, t, u);
    m := |events|;
    assert states[m] == x;
    var y := DeleteTouches(strategy, x, t);
    var before := states;
    states, events := Extend(strategy, start, states, events, x, Step(t, Normal([])), y);
    assert states[m] == before[m] && states[m + 1] == y && events[m] == Step(t, Normal([]));
  }

  /** Isolation in the presence of outside deletions and pool edits, exactly: no run lets a release touch
      anything but its own allocation if and only if no allocating call of another pool derives the name of a
      release whose allocation is active at the start or may be created by some call. */
  lemma IsolationExactly(strategy: Strategy, start: State)
    requires Init(start) && OneNamespace(start) && NamespacesPlain(start)
    ensures NoHarm(start) <==>
            forall states: seq<State>, events: seq<Event>, m: nat, k: Key ::
              Run(strategy, states, events) && states[0] == start && ReleaseTouches(states, events, m, k)
              ==> Own(states[m], events[m].t, k)
  {
    if NoHarm(start) {
      forall states: seq<State>, events: seq<Event>, m: nat, k: Key |
        Run(strategy, states, events) && states[0] == start && ReleaseTouches(states, events, m, k)
        ensures Own(states[m], events[m].t, k)
      {
        ReleaseTouchesOwn(strategy, states, events, m, k);
      }
    } else {
      var t, u :| Colliding(start, t, u) && CanBeActive(start, t);
      var states, events, m, k := Misdirected(strategy, start, t, u);
    }
  }

  /** Names alone do not keep pools apart. */
  lemma NamesCollide()
    ensures AllocationName("a", "b-c") == AllocationName("a-b", "c")
  {
    assert AllocationName("a", "b-c") == "a-b-c" == AllocationName("a-b", "c");
  }
}
