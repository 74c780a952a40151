/** Where the API server answers every request normally, a run is one sequential history of its calls, cursors
    included. */
module ProtocolHistories {
  import opened Types
  import opened Operations
  import opened Protocol
  import opened ProtocolSafety
  import opened ProtocolRelease
  import opened ProtocolAtomicity
  import opened ProtocolLinear
  import Runs
  import RR = RoundRobin

  ghost predicate AllNormal(events: seq<Event>) {
    forall i :: 0 <= i < |events| ==> events[i].Step? && events[i].ans.Normal?
  }

  /** The thread has moved its pool's cursor and not replied yet. */
  predicate Moved(strategy: Strategy, th: Thread) { !strategy.LeastUsed? && Ports(th.call) != [] && HasIndex(th.pc) }

  function KeyOf(th: Thread): string
    requires HasIndex(th.pc)
  {
    CursorKey(th.pc.s.pool)
  }

  predicate SameAt(a: Cursors, b: Cursors, key: string) {
    (key in a <==> key in b) && (key in a ==> a[key] == b[key])
  }

  /** The keys of cursors that calls under way have moved. */
  ghost function MovedKeys(strategy: Strategy, threads: map<Tid, Thread>): set<string> {
    set t | t in threads && Moved(strategy, threads[t]) :: KeyOf(threads[t])
  }

  /** The thread has moved its pool's cursor from where it stands in `h` to where it stands in `cursors`. */
  ghost predicate Owes(strategy: Strategy, th: Thread, cursors: Cursors, h: Cursors)
    requires HasIndex(th.pc)
  {
    && RR.CursorOf(h, KeyOf(th)) == th.pc.index
    && SameAt(cursors, CursorsAfter(strategy, h, th.pc.s, |Ports(th.call)|), KeyOf(th))
  }

  /** `h` is the cursor map of the sequential history: as `cursors`, but where a call has moved a cursor and not
      replied, still as that call read it. */
  ghost predicate Tracks(strategy: Strategy, threads: map<Tid, Thread>, cursors: Cursors, h: Cursors) {
    && (forall t :: t in threads && Moved(strategy, threads[t]) ==> Owes(strategy, threads[t], cursors, h))
    && (forall key :: key !in MovedKeys(strategy, threads) ==> SameAt(cursors, h, key))
  }

  ghost predicate PlainPools(pools: Pools) { forall p :: p in pools ==> '/' !in pools[p].namespace }

  /** What the argument needs of a state. */
  ghost predicate Setting(strategy: Strategy, v: State) {
    && Base(strategy, v) && OneNamespace(v) && AllCurrent(v) && DeleteInv(v, true) && PlainPools(v.pools)
  }

  /** Calls that have moved cursors of one key are one call. */
  lemma MovedAlone(strategy: Strategy, v: State, t: Tid, u: Tid)
    requires Setting(strategy, v) && t in v.threads && u in v.threads
    requires HasSnapshot(v.threads[t].pc) && HasSnapshot(v.threads[u].pc)
    requires CursorKey(v.threads[t].pc.s.pool) == CursorKey(v.threads[u].pc.s.pool)
    ensures t == u
  {
    hide LocksOk, Plan, Select;
    var a, b := v.threads[t].pc.s.pool, v.threads[u].pc.s.pool;
    assert ReadsCurrent(v, v.threads[t]) && ReadsCurrent(v, v.threads[u]);
    assert LocalOk(strategy, v.threads[t]) && LocalOk(strategy, v.threads[u]);
    PoolKeyInjective(a.namespace, a.name, b.namespace, b.name);
    LocksExclude(v);
    assert Inside(v.threads[t].pc) && Inside(v.threads[u].pc);
  }

  /** A selection moves its own key only, and as the cursor there says. */
  lemma SelectionAt(strategy: Strategy, a: Cursors, b: Cursors, s: Snapshot, n: nat, key: string)
    ensures key != CursorKey(s.pool) ==> SameAt(CursorsAfter(strategy, a, s, n), a, key)
    ensures key == CursorKey(s.pool) && SameAt(a, b, key) ==>
              SameAt(CursorsAfter(strategy, a, s, n), CursorsAfter(strategy, b, s, n), key)
    ensures key == CursorKey(s.pool) && RR.CursorOf(a, key) == RR.CursorOf(b, key)
            && SameAt(CursorsAfter(strategy, a, s, n), a, key) && SameAt(a, b, key)
            ==> SameAt(CursorsAfter(strategy, b, s, n), b, key)
  {
  }

  // ---------- Cursor by cursor ----------

  ghost predicate OnlyDiffers(threads: map<Tid, Thread>, threads': map<Tid, Thread>, t: Tid) {
    && t in threads && threads'.Keys == threads.Keys
    && forall u :: u in threads && u != t ==> threads'[u] == threads[u]
  }

  /** No other call has moved the cursor of `key`. */
  ghost predicate Alone(strategy: Strategy, threads: map<Tid, Thread>, t: Tid, key: string) {
    forall u :: u in threads && u != t && Moved(strategy, threads[u]) ==> KeyOf(threads[u]) != key
  }

  /** Threads keep their places but for one. */
  lemma KeysAfter(strategy: Strategy, threads: map<Tid, Thread>, threads': map<Tid, Thread>, t: Tid)
    requires OnlyDiffers(threads, threads', t)
    requires Moved(strategy, threads[t]) ==> Alone(strategy, threads, t, KeyOf(threads[t]))
    ensures MovedKeys(strategy, threads') ==
            (MovedKeys(strategy, threads) - (if Moved(strategy, threads[t]) then {KeyOf(threads[t])} else {}))
            + (if Moved(strategy, threads'[t]) then {KeyOf(threads'[t])} else {})
  {
    var before, after := MovedKeys(strategy, threads), MovedKeys(strategy, threads');
    forall key | key in before && (Moved(strategy, threads[t]) ==> key != KeyOf(threads[t])) ensures key in after {
      var u :| u in threads && Moved(strategy, threads[u]) && KeyOf(threads[u]) == key;
      assert threads'[u] == threads[u];
    }
    forall key | key in after && (Moved(strategy, threads'[t]) ==> key != KeyOf(threads'[t])) ensures key in before {
      var u :| u in threads' && Moved(strategy, threads'[u]) && KeyOf(threads'[u]) == key;
      assert threads'[u] == threads[u];
    }
  }

  lemma MovedIn(strategy: Strategy, threads: map<Tid, Thread>, t: Tid)
    requires t in threads && Moved(strategy, threads[t])
    ensures KeyOf(threads[t]) in MovedKeys(strategy, threads)
  {
  }

  /** A thread that keeps its cursor, if it has moved one. */
  lemma KeepsTracks(strategy: Strategy, threads: map<Tid, Thread>, threads': map<Tid, Thread>, cursors: Cursors,
                    h: Cursors, t: Tid)
    requires Tracks(strategy, threads, cursors, h) && OnlyDiffers(threads, threads', t)
    requires threads'[t].call == threads[t].call && (Moved(strategy, threads'[t]) <==> Moved(strategy, threads[t]))
    requires Moved(strategy, threads[t]) ==>
               && Alone(strategy, threads, t, KeyOf(threads[t]))
               && threads'[t].pc.s == threads[t].pc.s && threads'[t].pc.index == threads[t].pc.index
    ensures Tracks(strategy, threads', cursors, h)
  {
    KeysAfter(strategy, threads, threads', t);
    if Moved(strategy, threads[t]) { MovedIn(strategy, threads, t); }
    hide MovedKeys, CursorsAfter;
  }

  /** A thread that moves its pool's cursor. */
  lemma MovesTracks(strategy: Strategy, threads: map<Tid, Thread>, threads': map<Tid, Thread>, cursors: Cursors,
                    h: Cursors,
                    t: Tid, s: Snapshot, n: nat)
    requires Tracks(strategy, threads, cursors, h) && OnlyDiffers(threads, threads', t) && !Moved(strategy, threads[t])
    requires Alone(strategy, threads, t, CursorKey(s.pool))
    requires Moved(strategy, threads'[t]) && threads'[t].pc.s == s && n == |Ports(threads'[t].call)|
    requires threads'[t].pc.index == RR.CursorOf(cursors, CursorKey(s.pool))
    ensures Tracks(strategy, threads', CursorsAfter(strategy, cursors, s, n), h)
  {
    var own, cursors' := CursorKey(s.pool), CursorsAfter(strategy, cursors, s, n);
    KeysAfter(strategy, threads, threads', t);
    assert own !in MovedKeys(strategy, threads);
    hide MovedKeys, CursorsAfter, Owes;
    assert SameAt(cursors, h, own);
    forall key | key != own ensures SameAt(cursors', cursors, key) {
      SelectionAt(strategy, cursors, h, s, n, key);
    }
    forall u | u in threads && u != t && Moved(strategy, threads[u]) ensures Owes(strategy, threads[u], cursors', h) {
      OwesElsewhere(strategy, threads[u], cursors, cursors', h);
    }
    NowOwes(strategy, threads'[t], cursors, h);
  }

  lemma OwesElsewhere(strategy: Strategy, th: Thread, cursors: Cursors, cursors': Cursors, h: Cursors)
    requires HasIndex(th.pc) && Owes(strategy, th, cursors, h) && SameAt(cursors', cursors, KeyOf(th))
    ensures Owes(strategy, th, cursors', h)
  {
    hide CursorsAfter;
  }

  lemma NowOwes(strategy: Strategy, th: Thread, cursors: Cursors, h: Cursors)
    requires HasIndex(th.pc) && SameAt(cursors, h, KeyOf(th)) && th.pc.index == RR.CursorOf(cursors, KeyOf(th))
    ensures Owes(strategy, th, CursorsAfter(strategy, cursors, th.pc.s, |Ports(th.call)|), h)
  {
    SelectionAt(strategy, cursors, h, th.pc.s, |Ports(th.call)|, KeyOf(th));
  }

  /** A thread whose reply makes good for the cursor it has moved. */
  lemma PaysTracks(strategy: Strategy, threads: map<Tid, Thread>, threads': map<Tid, Thread>, cursors: Cursors,
                   h: Cursors, t: Tid)
    requires Tracks(strategy, threads, cursors, h) && OnlyDiffers(threads, threads', t)
    requires Moved(strategy, threads[t]) && !Moved(strategy, threads'[t])
             && Alone(strategy, threads, t, KeyOf(threads[t]))
    ensures Tracks(strategy, threads', cursors, CursorsAfter(strategy, h, threads[t].pc.s, |Ports(threads[t].call)|))
  {
    var s, n, own := threads[t].pc.s, |Ports(threads[t].call)|, KeyOf(threads[t]);
    var h' := CursorsAfter(strategy, h, s, n);
    KeysAfter(strategy, threads, threads', t);
    hide MovedKeys, CursorsAfter;
    forall key | key != own ensures SameAt(h', h, key) {
      SelectionAt(strategy, h, h, s, n, key);
    }
    forall u | u in threads' && Moved(strategy, threads'[u]) ensures Owes(strategy, threads'[u], cursors, h') {
      assert Owes(strategy, threads[u], cursors, h);
      SelectionAt(strategy, h', h, threads[u].pc.s, |Ports(threads[u].call)|, KeyOf(threads[u]));
    }
  }

  // ---------- One step ----------

  /** What a step without a reply does to the thread's place in the argument. */
  lemma MoveShape(strategy: Strategy, v: State, th: Thread, ans: Answer)
    requires ans.Normal? && LocalOk(strategy, th) && !Replies(strategy, v, th, ans)
    ensures var th' := NextThread(strategy, v, th, ans);
            if th.pc.HoldIndex? then
              HasIndex(th'.pc) && th'.pc.s == th.pc.s && th'.pc.index == RR.CursorOf(v.cursors, CursorKey(th.pc.s.pool))
            else (Moved(strategy, th') <==> Moved(strategy, th))
                 && (Moved(strategy, th) ==> th'.pc.s == th.pc.s && th'.pc.index == th.pc.index)
  {
    hide Plan, Holds;
  }

  /** Other calls have moved other keys. */
  lemma OthersElsewhere(strategy: Strategy, v: State, t: Tid)
    requires Setting(strategy, v) && t in v.threads && HasSnapshot(v.threads[t].pc)
    ensures Alone(strategy, v.threads, t, CursorKey(v.threads[t].pc.s.pool))
  {
    hide Setting;
    forall u | u in v.threads && u != t && Moved(strategy, v.threads[u])
      ensures KeyOf(v.threads[u]) != CursorKey(v.threads[t].pc.s.pool)
    {
      if KeyOf(v.threads[u]) == CursorKey(v.threads[t].pc.s.pool) { MovedAlone(strategy, v, t, u); }
    }
  }

  lemma QuietTracks(strategy: Strategy, v: State, t: Tid, ans: Answer, h: Cursors)
    requires Setting(strategy, v) && Possible(v, Step(t, ans)) && ans.Normal?
             && Tracks(strategy, v.threads, v.cursors, h)
    requires !Replies(strategy, v, v.threads[t], ans) && !v.threads[t].pc.HoldIndex?
    ensures var v' := After(strategy, v, t, ans); Tracks(strategy, v'.threads, v'.cursors, h)
  {
    assert LocalOk(strategy, v.threads[t]);
    hide Setting, Tracks, LocalOk, NextPc, Replies;
    MoveShape(strategy, v, v.threads[t], ans);
    ThreadsAfter(strategy, v, t, ans);
    if Moved(strategy, v.threads[t]) { OthersElsewhere(strategy, v, t); }
    KeepsTracks(strategy, v.threads, After(strategy, v, t, ans).threads, v.cursors, h, t);
  }

  lemma SelectTracks(strategy: Strategy, v: State, t: Tid, ans: Answer, h: Cursors)
    requires Setting(strategy, v) && Possible(v, Step(t, ans)) && ans.Normal?
             && Tracks(strategy, v.threads, v.cursors, h)
    requires v.threads[t].pc.HoldIndex?
    ensures var v' := After(strategy, v, t, ans); Tracks(strategy, v'.threads, v'.cursors, h)
  {
    var th, v' := v.threads[t], After(strategy, v, t, ans);
    assert Ports(th.call) != [] && !strategy.LeastUsed? by { assert LocalOk(strategy, th); }
    SelectShape(strategy, v, t, ans);
    ThreadsAfter(strategy, v, t, ans);
    hide Setting, Tracks, NextPc;
    OthersElsewhere(strategy, v, t);
    MovesTracks(strategy, v.threads, v'.threads, v.cursors, h, t, th.pc.s, |Ports(th.call)|);
  }

  lemma SelectShape(strategy: Strategy, v: State, t: Tid, ans: Answer)
    requires t in v.threads && v.threads[t].pc.HoldIndex?
    ensures var th, v' := v.threads[t], After(strategy, v, t, ans);
            && v'.cursors == CursorsAfter(strategy, v.cursors, th.pc.s, |Ports(th.call)|)
            && v'.threads[t].call == th.call && HasIndex(v'.threads[t].pc) && v'.threads[t].pc.s == th.pc.s
            && v'.threads[t].pc.index == RR.CursorOf(v.cursors, CursorKey(th.pc.s.pool))
  {
  }

  /** The cursors the sequential operation leaves. */
  lemma ReplyCursors(strategy: Strategy, v: State, th: Thread, ans: Answer, h: Cursors)
    requires th.call.AllocateCall? && LocalOk(strategy, th) && ReadsCurrent(v, th) && PoolsNamed(v.pools)
    requires KindOk(th) && Replies(strategy, v, th, ans)
    ensures Attempt(strategy, v.objects, v.pools, h, th.call.req, Ports(th.call)).cursors == Paid(strategy, th, h)
  {
    hide Plan, Select;
    if HasSnapshot(th.pc) {
      PrepareFrom(strategy, v.objects, v.pools, h, th.call.req, Ports(th.call), th.pc.s.items);
    }
  }

  function Paid(strategy: Strategy, th: Thread, h: Cursors): Cursors {
    if Moved(strategy, th) then CursorsAfter(strategy, h, th.pc.s, |Ports(th.call)|) else h
  }

  lemma ReplyTracks(strategy: Strategy, v: State, t: Tid, ans: Answer, h: Cursors)
    requires Setting(strategy, v) && Possible(v, Step(t, ans)) && ans.Normal?
             && Tracks(strategy, v.threads, v.cursors, h)
    requires Replies(strategy, v, v.threads[t], ans)
    ensures var v' := After(strategy, v, t, ans);
            Tracks(strategy, v'.threads, v'.cursors, Paid(strategy, v.threads[t], h))
  {
    var th, v' := v.threads[t], After(strategy, v, t, ans);
    NoIndexAfterReply(strategy, v, th, ans);
    ThreadsAfter(strategy, v, t, ans);
    hide Setting, Tracks, NextPc, Replies;
    if Moved(strategy, th) {
      OthersElsewhere(strategy, v, t);
      PaysTracks(strategy, v.threads, v'.threads, v.cursors, h, t);
    } else {
      KeepsTracks(strategy, v.threads, v'.threads, v.cursors, h, t);
    }
  }

  lemma NoIndexAfterReply(strategy: Strategy, v: State, th: Thread, ans: Answer)
    requires Replies(strategy, v, th, ans)
    ensures !HasIndex(NextPc(strategy, v, th, ans)) && !th.pc.HoldIndex?
  {
  }

  // ---------- Runs ----------

  /** No call is under way. */
  ghost predicate Quiescent(v: State) {
    forall t :: t in v.threads ==> v.threads[t].pc.WaitPool? || v.threads[t].pc.Finished?
  }

  lemma SettingReached(strategy: Strategy, states: seq<State>, events: seq<Event>, m: nat)
    requires Run(strategy, states, events) && OneNamespace(states[0]) && AllNormal(events)
             && PlainPools(states[0].pools) && m < |states|
    ensures Setting(strategy, states[m]) && states[m].pools == states[0].pools
  {
    hide Base, AllCurrent, DeleteInv, Run;
    PoolsFixed(strategy, states, events, m);
    CurrentReached(strategy, states, events, m);
  }

  /** A reply is that of the operation on the history's own cursors. */
  lemma ReplyOp(strategy: Strategy, v: State, t: Tid, ans: Answer, h: Cursors)
    requires Setting(strategy, v) && t in v.threads && Tracks(strategy, v.threads, v.cursors, h)
    requires Replies(strategy, v, v.threads[t], ans)
    ensures Runs.Apply(strategy, v.pools, Runs.Config(v.objects, h), OpOf(v.threads[t].call))
            == Runs.Config(NextObjects(v, v.threads[t], ans), Paid(strategy, v.threads[t], h))
  {
    var th := v.threads[t];
    assert LocalOk(strategy, th) && ReadsCurrent(v, th) && KindOk(th) && SeenOk(v, th, true) && PoolsNamed(v.pools);
    assert Moved(strategy, th) ==> Owes(strategy, th, v.cursors, h);
    hide Setting, Tracks, NextPc, LocalOk, ReadsCurrent, KindOk, SeenOk, Attempt, Release, Replies, CursorsAfter;
    ReplyIsSequential(strategy, v, th, ans, h);
    if th.call.AllocateCall? {
      ReplyCursors(strategy, v, th, ans, h);
    }
  }

  /** What one event adds to the history. */
  lemma OneMoreOp(strategy: Strategy, v: State, e: Event, v': State, h: Cursors) returns (h': Cursors)
    requires Setting(strategy, v) && Leads(strategy, v, e, v') && e.Step? && e.ans.Normal?
    requires Tracks(strategy, v.threads, v.cursors, h)
    ensures Tracks(strategy, v'.threads, v'.cursors, h')
    ensures var th := v.threads[e.t];
            if Replies(strategy, v, th, e.ans) then
              Runs.Apply(strategy, v.pools, Runs.Config(v.objects, h), OpOf(th.call)) == Runs.Config(v'.objects, h')
            else v'.objects == v.objects && h' == h
  {
    hide Setting, Tracks, NextPc, Attempt, Release, Replies, CursorsAfter, Moved;
    var th := v.threads[e.t];
    if Replies(strategy, v, th, e.ans) {
      h' := Paid(strategy, th, h);
      ReplyOp(strategy, v, e.t, e.ans, h);
      ReplyTracks(strategy, v, e.t, e.ans, h);
    } else {
      h' := h;
      QuietWithoutReply(strategy, v, th, e.ans);
      if th.pc.HoldIndex? {
        SelectTracks(strategy, v, e.t, e.ans, h);
      } else {
        QuietTracks(strategy, v, e.t, e.ans, h);
      }
    }
  }

  lemma TracksAtStart(strategy: Strategy, v: State)
    requires Init(v)
    ensures Tracks(strategy, v.threads, v.cursors, v.cursors)
  {
  }

  lemma QuiescentTracks(strategy: Strategy, v: State, h: Cursors)
    requires Quiescent(v) && Tracks(strategy, v.threads, v.cursors, h)
    ensures h == v.cursors
  {
    hide CursorsAfter;
    assert MovedKeys(strategy, v.threads) == {};
    forall key ensures (key in h <==> key in v.cursors) && (key in h ==> h[key] == v.cursors[key]) {
      assert SameAt(v.cursors, h, key);
    }
  }

  /** The history of the first `m` events, and its cursors. */
  lemma {:induction false} HistoryTo(strategy: Strategy, states: seq<State>, events: seq<Event>, m: nat)
    returns (configs: seq<Runs.Config>)
    requires Run(strategy, states, events) && OneNamespace(states[0]) && AllNormal(events)
             && PlainPools(states[0].pools)
    requires m <= |events| < |states|
    ensures Runs.History(strategy, states[0].pools, configs, Order(strategy, states, events, m))
    ensures configs[0] == Runs.Config(states[0].objects, states[0].cursors)
    ensures var last := configs[|configs| - 1];
            last.objects == states[m].objects && Tracks(strategy, states[m].threads, states[m].cursors, last.cursors)
  {
    hide Run, Setting, Tracks, Replies, Runs.Apply, Leads;
    if m == 0 {
      configs := [Runs.Config(states[0].objects, states[0].cursors)];
      RunStarts(strategy, states, events);
      TracksAtStart(strategy, states[0]);
    } else {
      configs := HistoryTo(strategy, states, events, m - 1);
      SettingReached(strategy, states, events, m - 1);
      RunStep(strategy, states, events, m - 1);
      var v, e, last := states[m - 1], events[m - 1], configs[|configs| - 1];
      StepEnabled(strategy, v, e, states[m]);
      var h' := OneMoreOp(strategy, v, e, states[m], last.cursors);
      if RepliesAt(strategy, states, events, m - 1) {
        configs := Longer(strategy, states[0].pools, configs, Order(strategy, states, events, m - 1),
                          OpOf(v.threads[e.t].call),
                          Runs.Config(states[m].objects, h'));
      }
    }
  }

  lemma RunStarts(strategy: Strategy, states: seq<State>, events: seq<Event>)
    requires Run(strategy, states, events)
    ensures Init(states[0])
  {
  }

  lemma StepEnabled(strategy: Strategy, v: State, e: Event, v': State)
    requires Leads(strategy, v, e, v') && e.Step?
    ensures e.t in v.threads
  {
  }

  lemma Longer(strategy: Strategy, pools: Pools, configs: seq<Runs.Config>, ops: seq<Runs.Op>, op: Runs.Op,
               c: Runs.Config)
    returns (configs': seq<Runs.Config>)
    requires Runs.History(strategy, pools, configs, ops) && c == Runs.Apply(strategy, pools, configs[|configs| - 1], op)
    ensures configs' == configs + [c] && Runs.History(strategy, pools, configs', ops + [op])
  {
    hide Runs.Apply;
    configs' := configs + [c];
    forall i | 0 <= i < |ops + [op]|
      ensures configs'[i + 1] == Runs.Apply(strategy, pools, configs'[i], (ops + [op])[i])
    {
      if i < |ops| {
        assert configs[i + 1] == Runs.Apply(strategy, pools, configs[i], ops[i]);
      }
    }
  }

  /** Where every answer is normal, the store of every state is that of one sequential history of the calls, in the
      order of their replies; where no call is under way, so are the cursors. */
  lemma SequentialHistory(strategy: Strategy, states: seq<State>, events: seq<Event>, m: nat)
    returns (configs: seq<Runs.Config>)
    requires Run(strategy, states, events) && OneNamespace(states[0]) && AllNormal(events)
             && PlainPools(states[0].pools)
    requires m <= |events| < |states|
    ensures Runs.History(strategy, states[0].pools, configs, Order(strategy, states, events, m))
    ensures configs[0] == Runs.Config(states[0].objects, states[0].cursors)
    ensures configs[|configs| - 1].objects == states[m].objects
    ensures Quiescent(states[m]) ==> configs[|configs| - 1] == Runs.Config(states[m].objects, states[m].cursors)
  {
    hide Tracks, Run;
    configs := HistoryTo(strategy, states, events, m);
    if Quiescent(states[m]) {
      QuiescentTracks(strategy, states[m], configs[|configs| - 1].cursors);
    }
  }
}
