/** Lock discipline, deadlock freedom and termination of concurrent calls. None of this needs callers
    to agree on namespaces. */
module ProtocolProgress {
  import opened Types
  import Ledger
  import Operations
  import opened Protocol
  import opened ProtocolSafety

  /** In every reachable state a thread holds no pool lock but its own, holds that one exactly while its
      call is under way, and holds the index lock only inside it; least-used calls never touch the index lock. */
  lemma LockDiscipline(strategy: Strategy, states: seq<State>, events: seq<Event>, m: nat, t: Tid)
    requires Run(strategy, states, events) && m < |states| && t in states[m].threads
    ensures var v := states[m]; var th := v.threads[t];
            && (forall key :: key in v.locks && v.locks[key] == t <==> key == LockKey(th.call) && Inside(th.pc))
            && (v.indexOwner == Some(t) <==> InIndex(th.pc))
            && (v.indexOwner == Some(t) ==> LockKey(th.call) in v.locks && v.locks[LockKey(th.call)] == t)
            && (strategy.LeastUsed? ==> v.indexOwner == None && !th.pc.WaitIndex?)
  {
    BaseReached(strategy, states, events, m);
    var owner := states[m].indexOwner;
    if owner.Some? { assert LocalOk(strategy, states[m].threads[owner.value]); }
    assert LocalOk(strategy, states[m].threads[t]);
  }

  // ---------- Deadlock freedom ----------

  lemma SomeoneCanStep(v: State, t: Tid) returns (u: Tid, ans: Answer)
    requires LocksOk(v) && t in v.threads && !v.threads[t].pc.Finished?
    ensures Enabled(v, u) && !v.threads[u].pc.Finished?
    ensures ans.Normal? && AnswerOk(v, v.threads[u], ans)
  {
    if v.indexOwner.Some? {
      u := v.indexOwner.value;
    } else if v.threads[t].pc.WaitPool? && LockKey(v.threads[t].call) in v.locks {
      u := v.locks[LockKey(v.threads[t].call)];
    } else {
      u := t;
    }
    var items := [];
    if v.threads[u].pc.ReadLedger? {
      items := Ledger.Listing(v.objects, v.threads[u].pc.pool.name);
    }
    ans := Normal(items);
  }

  /** Deadlock freedom: while some call is unfinished, some thread can take a step, and the API server
      has a normal answer for it. */
  lemma NoDeadlock(strategy: Strategy, states: seq<State>, events: seq<Event>, m: nat, t: Tid)
    requires Run(strategy, states, events) && m < |states|
    requires t in states[m].threads && !states[m].threads[t].pc.Finished?
    ensures exists u: Tid, ans: Answer :: ans.Normal? && Possible(states[m], Step(u, ans))
  {
    LocksReached(strategy, states, events, m);
    var u, ans := SomeoneCanStep(states[m], t);
    assert Possible(states[m], Step(u, ans));
  }

  // ---------- Termination ----------

  function PcRank(pc: Pc): nat {
    match pc
    case WaitPool => 11
    case CheckDuplicate => 10
    case ReadPool => 9
    case ReadLedger(_) => 8
    case WaitIndex(_) => 7
    case HoldIndex(_) => 6
    case LeaveIndex(_, _, _) => 5
    case PickLeastUsed(_) => 5
    case SearchPorts(_, _, _) => 4
    case Probe(_, _, _) => 3
    case Fetch => 3
    case Create(_, _, _) => 2
    case Delete(_) => 2
    case UnlockPool(_) => 1
    case Finished(_) => 0
  }

  /** Steps from the duplicate check to the create, the part a conflict repeats. */
  const PASS := 9

  /** A bound on the steps a thread still has to take. */
  function Rank(th: Thread): nat {
    var more := PcRank(th.pc) >= 2 && th.attempt < Operations.MAX_ATTEMPTS;
    PcRank(th.pc) + if more then (Operations.MAX_ATTEMPTS - 1 - th.attempt) * PASS else 0
  }

  /** One lock, five passes of nine requests and local steps, one unlock. */
  const MAX_STEPS := 47

  lemma StepDescends(strategy: Strategy, v: State, th: Thread, ans: Answer)
    requires th.attempt < Operations.MAX_ATTEMPTS && !th.pc.Finished?
    ensures NextThread(strategy, v, th, ans).attempt < Operations.MAX_ATTEMPTS
    ensures Rank(NextThread(strategy, v, th, ans)) < Rank(th)
    ensures th.pc.Create? && ans.ConflictReply? && th.attempt < 4 ==>
              NextThread(strategy, v, th, ans) == Thread(th.call, CheckDuplicate, th.attempt + 1)
  {
    RankOfNext(strategy, v, th, ans);
  }

  lemma RankOfNext(strategy: Strategy, v: State, th: Thread, ans: Answer)
    requires !th.pc.Finished?
    ensures var pc := NextPc(strategy, v, th, ans);
            PcRank(pc) < PcRank(th.pc) ||
            (th.pc.Create? && pc.CheckDuplicate? && ans.ConflictReply? && th.attempt + 1 < Operations.MAX_ATTEMPTS)
  {
  }

  function OwnSteps(events: seq<Event>, t: Tid): nat {
    if events == [] then 0
    else
      var last := events[|events| - 1];
      OwnSteps(events[..|events| - 1], t) + if last.Step? && last.t == t then 1 else 0
  }

  lemma {:induction false} StepsSpendRank(strategy: Strategy, states: seq<State>, events: seq<Event>, m: nat, t: Tid)
    requires Run(strategy, states, events) && m < |states| && t in states[0].threads
    ensures t in states[m].threads && states[m].threads[t].attempt < Operations.MAX_ATTEMPTS
    ensures OwnSteps(events[..m], t) + Rank(states[m].threads[t]) <= MAX_STEPS
  {
    if m > 0 {
      StepsSpendRank(strategy, states, events, m - 1, t);
      var v, e := states[m - 1], events[m - 1];
      assert events[..m][..m - 1] == events[..m - 1];
      if e.Step? {
        ThreadsAfter(strategy, v, e.t, e.ans);
        if e.t == t { StepDescends(strategy, v, v.threads[t], e.ans); }
      }
    }
  }

  /** Every call takes at most 47 steps of its own, whatever the other threads, outside actors and API
      faults do. */
  lemma OwnStepsBounded(strategy: Strategy, states: seq<State>, events: seq<Event>, t: Tid)
    requires Run(strategy, states, events) && t in states[0].threads
    ensures OwnSteps(events, t) <= MAX_STEPS
  {
    StepsSpendRank(strategy, states, events, |events|, t);
    assert events[..|events|] == events;
  }

  // ---------- All calls together ----------

  ghost function TotalRank(threads: map<Tid, Thread>): nat {
    if threads == map[] then 0
    else
      var t :| t in threads;
      Rank(threads[t]) + TotalRank(threads - {t})
  }

  lemma {:induction false} TotalSplit(threads: map<Tid, Thread>, t: Tid)
    requires t in threads
    ensures TotalRank(threads) == Rank(threads[t]) + TotalRank(threads - {t})
    decreases |threads|
  {
    var u :| u in threads && TotalRank(threads) == Rank(threads[u]) + TotalRank(threads - {u});
    if u != t {
      TotalSplit(threads - {u}, t);
      TotalSplit(threads - {t}, u);
      assert threads - {u} - {t} == threads - {t} - {u};
    }
  }

  lemma TotalUpdate(threads: map<Tid, Thread>, threads': map<Tid, Thread>, t: Tid)
    requires t in threads && threads'.Keys == threads.Keys
    requires forall u :: u in threads && u != t ==> threads'[u] == threads[u]
    ensures TotalRank(threads') - Rank(threads'[t]) == TotalRank(threads) - Rank(threads[t])
  {
    TotalSplit(threads, t);
    TotalSplit(threads', t);
    assert threads - {t} == threads' - {t};
  }

  lemma {:induction false} TotalAtStart(threads: map<Tid, Thread>)
    requires forall t :: t in threads ==> threads[t].pc.WaitPool? && threads[t].attempt == 0
    ensures TotalRank(threads) == MAX_STEPS * |threads|
    decreases |threads|
  {
    if threads != map[] {
      var t :| t in threads;
      TotalSplit(threads, t);
      TotalAtStart(threads - {t});
      assert (threads - {t}).Keys == threads.Keys - {t};
      assert |threads.Keys| == |threads| && |(threads - {t}).Keys| == |threads - {t}|;
    }
  }

  function ThreadSteps(events: seq<Event>): nat {
    if events == [] then 0 else ThreadSteps(events[..|events| - 1]) + if events[|events| - 1].Step? then 1 else 0
  }

  lemma {:induction false} StepsSpendTotal(strategy: Strategy, states: seq<State>, events: seq<Event>, m: nat)
    requires Run(strategy, states, events) && m < |states|
    ensures ThreadSteps(events[..m]) + TotalRank(states[m].threads) <= MAX_STEPS * |states[0].threads|
  {
    if m == 0 {
      TotalAtStart(states[0].threads);
    } else {
      StepsSpendTotal(strategy, states, events, m - 1);
      var v, e := states[m - 1], events[m - 1];
      assert events[..m][..m - 1] == events[..m - 1];
      if e.Step? {
        LocksReached(strategy, states, events, m - 1);
        StepsSpendRank(strategy, states, events, m - 1, e.t);
        ThreadsAfter(strategy, v, e.t, e.ans);
        StepDescends(strategy, v, v.threads[e.t], e.ans);
        TotalUpdate(v.threads, states[m].threads, e.t);
      }
    }
  }

  /** Any schedule that keeps stepping threads ends, with every call finished and every lock returned. */
  lemma AllCallsFinish(strategy: Strategy, states: seq<State>, events: seq<Event>)
    requires Run(strategy, states, events)
    ensures ThreadSteps(events) <= MAX_STEPS * |states[0].threads|
    ensures var v := states[|events|];
            (forall t: Tid, ans: Answer :: ans.Normal? ==> !Possible(v, Step(t, ans)))
            ==> (forall t :: t in v.threads ==> v.threads[t].pc.Finished?) && v.locks == map[] && v.indexOwner == None
  {
    StepsSpendTotal(strategy, states, events, |events|);
    assert events[..|events|] == events;
    var v := states[|events|];
    LocksReached(strategy, states, events, |events|);
    if forall t: Tid, ans: Answer :: ans.Normal? ==> !Possible(v, Step(t, ans)) {
      forall t | t in v.threads ensures v.threads[t].pc.Finished? {
        if !v.threads[t].pc.Finished? { NoDeadlock(strategy, states, events, |events|, t); }
      }
      assert v.locks.Keys == {};
    }
  }
}
