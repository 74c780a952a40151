/** Which answers of the API server make a call retry or fail, told from the events of a run: five conflicts on
    its creates end a call, fewer send it back to its first step, and only a fault is reported as one. */
module ProtocolRetries {
  import opened Types
  import opened Operations
  import opened Protocol
  import opened ProtocolSafety

  /** A create of thread `t` is answered with an optimistic-lock conflict. */
  ghost predicate ConflictsOn(v: State, e: Event, t: Tid) {
    e.Step? && e.t == t && e.ans.ConflictReply? && t in v.threads && v.threads[t].pc.Create?
  }

  /** How many of the first `m` events were such. */
  ghost function Conflicts(states: seq<State>, events: seq<Event>, m: nat, t: Tid): nat
    requires m <= |events| <= |states|
  {
    if m == 0 then 0
    else Conflicts(states, events, m - 1, t) + if ConflictsOn(states[m - 1], events[m - 1], t) then 1 else 0
  }

  predicate HasReply(pc: Pc) { pc.UnlockPool? || pc.Finished? }

  predicate GaveUp(th: Thread) { HasReply(th.pc) && th.pc.reply == Failed(Conflict) }

  /** A thread's attempt counter is the number of conflicts met, unless it has given up. */
  predicate CountOk(th: Thread, conflicts: nat) {
    th.attempt < 5 && if GaveUp(th) then th.attempt == 4 && conflicts == 5 else th.attempt == conflicts
  }

  /** Planning never fails with a conflict or a fault. */
  lemma ChoiceErrors(strategy: Strategy, index: nat, s: Snapshot, n: nat)
    ensures Select(strategy, index, s, n).Err? ==> Select(strategy, index, s, n).error in {NoLoadBalancers, NoCapacity}
  {
  }

  lemma PlanErrors(s: Snapshot, p: nat, req: Request, ports: seq<ContainerPort>)
    ensures PlanAt(s, p, req, ports).Err? ==> PlanAt(s, p, req, ports).error in {NoCapacity, InvalidCount, TooFewPorts}
  {
  }

  lemma CountStep(strategy: Strategy, v: State, th: Thread, ans: Answer, conflicts: nat)
    requires LocalOk(strategy, th) && CountOk(th, conflicts) && !th.pc.Finished?
    ensures CountOk(NextThread(strategy, v, th, ans), conflicts + if th.pc.Create? && ans.ConflictReply? then 1 else 0)
  {
    hide Plan, Select, PlanAt, Holds;
    if th.pc.LeaveIndex? {
      ChoiceErrors(strategy, th.pc.index, th.pc.s, |Ports(th.call)|);
    } else if th.pc.PickLeastUsed? {
      ChoiceErrors(strategy, 0, th.pc.s, |Ports(th.call)|);
    } else if th.pc.SearchPorts? {
      PlanErrors(th.pc.s, th.pc.p, th.call.req, Ports(th.call));
    }
  }

  lemma {:induction false} CountReached(strategy: Strategy, states: seq<State>, events: seq<Event>, m: nat, t: Tid)
    requires Run(strategy, states, events) && m <= |events| < |states| && t in states[0].threads
    ensures t in states[m].threads && CountOk(states[m].threads[t], Conflicts(states, events, m, t))
  {
    hide CountOk, Base, LocksOk, NextPc, NextAttempt, Exec;
    LocksReached(strategy, states, events, m);
    if m == 0 {
      CountStarts(states[0].threads[t]);
    } else {
      CountReached(strategy, states, events, m - 1, t);
      BaseReached(strategy, states, events, m - 1);
      RunStep(strategy, states, events, m - 1);
      CountNext(strategy, states[m - 1], events[m - 1], states[m], t, Conflicts(states, events, m - 1, t));
    }
  }

  lemma CountStarts(th: Thread)
    requires th.pc == WaitPool && th.attempt == 0
    ensures CountOk(th, 0)
  {
  }

  lemma CountNext(strategy: Strategy, v: State, e: Event, v': State, t: Tid, conflicts: nat)
    requires Base(strategy, v) && Leads(strategy, v, e, v') && t in v.threads && CountOk(v.threads[t], conflicts)
    ensures t in v'.threads
    ensures CountOk(v'.threads[t], conflicts + if ConflictsOn(v, e, t) then 1 else 0)
  {
    hide CountOk, NextPc, NextAttempt, LocksOk;
    if e.Step? {
      ThreadsAfter(strategy, v, e.t, e.ans);
      if e.t == t {
        assert LocalOk(strategy, v.threads[t]);
        CountStep(strategy, v, v.threads[t], e.ans, conflicts);
      }
    }
  }

  /** A call gives up with a conflict exactly when five of its creates have been answered with one. */
  lemma GivesUpExactly(strategy: Strategy, states: seq<State>, events: seq<Event>, m: nat, t: Tid)
    requires Run(strategy, states, events) && m <= |events| < |states| && t in states[0].threads
    ensures t in states[m].threads && Conflicts(states, events, m, t) <= 5
    ensures GaveUp(states[m].threads[t]) <==> Conflicts(states, events, m, t) == 5
  {
    CountReached(strategy, states, events, m, t);
  }

  /** One of the first four conflicts sends the call back to its duplicate check, for another attempt, still
      holding its lock, and leaves the store alone; the fifth ends it. */
  lemma RetriesAfterConflict(strategy: Strategy, states: seq<State>, events: seq<Event>, i: nat, t: Tid)
    requires Run(strategy, states, events) && i < |events| < |states| && t in states[0].threads
    requires ConflictsOn(states[i], events[i], t)
    ensures states[i + 1].objects == states[i].objects && t in states[i + 1].threads
    ensures var before, after := states[i].threads[t], states[i + 1].threads[t];
            && after.call == before.call
            && LockKey(after.call) in states[i + 1].locks && states[i + 1].locks[LockKey(after.call)] == t
            && if Conflicts(states, events, i, t) < 4 then after.pc == CheckDuplicate
            && after.attempt == before.attempt + 1
               else after.pc == UnlockPool(Failed(Conflict))
  {
    CountReached(strategy, states, events, i, t);
    RunStep(strategy, states, events, i);
    ThreadsAfter(strategy, states[i], t, events[i].ans);
    LocksReached(strategy, states, events, i + 1);
  }

  /** A call that gets a normal answer does not report a fault: it goes on, or replies for a reason of its own. */
  lemma FaultsAreReal(strategy: Strategy, states: seq<State>, events: seq<Event>, i: nat)
    requires Run(strategy, states, events) && i < |events| < |states| && events[i].Step?
    ensures var t := events[i].t;
            && t in states[i].threads && t in states[i + 1].threads
            && var after := states[i + 1].threads[t].pc;
               && (after == UnlockPool(Failed(ApiFault)) ==> !events[i].ans.Normal?)
               && (after == UnlockPool(Failed(Conflict)) ==> events[i].ans.ConflictReply?)
  {
    hide LocksOk, LocalOk;
    BaseReached(strategy, states, events, i);
    RunStep(strategy, states, events, i);
    ThreadsAfter(strategy, states[i], events[i].t, events[i].ans);
    ReasonOf(strategy, states[i], states[i].threads[events[i].t], events[i].ans);
    hide NextPc;
  }

  lemma ReasonOf(strategy: Strategy, v: State, th: Thread, ans: Answer)
    requires LocalOk(strategy, th) && !th.pc.Finished?
    ensures var after := NextPc(strategy, v, th, ans);
            && (after == UnlockPool(Failed(ApiFault)) ==> !ans.Normal?)
            && (after == UnlockPool(Failed(Conflict)) ==> ans.ConflictReply?)
  {
    hide Plan, Select, PlanAt, Holds;
    if th.pc.LeaveIndex? {
      ChoiceErrors(strategy, th.pc.index, th.pc.s, |Ports(th.call)|);
    } else if th.pc.PickLeastUsed? {
      ChoiceErrors(strategy, 0, th.pc.s, |Ports(th.call)|);
    } else if th.pc.SearchPorts? {
      PlanErrors(th.pc.s, th.pc.p, th.call.req, Ports(th.call));
    }
  }

  /** Any failed request, except a create that met a conflict, ends the call with a fault; none changes the
      store. */
  lemma FaultsEndCalls(strategy: Strategy, states: seq<State>, events: seq<Event>, i: nat)
    requires Run(strategy, states, events) && i < |events| < |states| && events[i].Step? && !events[i].ans.Normal?
    ensures states[i + 1].objects == states[i].objects
    ensures var t := events[i].t;
            && t in states[i].threads && t in states[i + 1].threads
            && (AsksServer(states[i].threads[t].pc) && !ConflictsOn(states[i], events[i], t) ==>
                  states[i + 1].threads[t].pc == UnlockPool(Failed(ApiFault)))
  {
    RunStep(strategy, states, events, i);
    ThreadsAfter(strategy, states[i], events[i].t, events[i].ans);
  }

  /** A check that fails ends the call at once, so nothing is planned, created or deleted past it; one that
      passes sends the call on. */
  lemma ChecksDecide(strategy: Strategy, states: seq<State>, events: seq<Event>, i: nat)
    requires Run(strategy, states, events) && i < |events| < |states| && events[i].Step? && events[i].ans.Normal?
    ensures var v, t := states[i], events[i].t;
            && t in v.threads && t in states[i + 1].threads
            && var th, after := v.threads[t], states[i + 1].threads[t].pc;
               && (th.pc.CheckDuplicate? ==>
                     if Holds(v.objects, th.call.req.pool, th.call.req.podName, th.call.req.podNamespace)
                     then after == UnlockPool(Failed(Duplicate)) else after == ReadPool)
               && (th.pc.ReadPool? ==> (after == UnlockPool(Failed(PoolNotFound)) <==> th.call.req.pool !in v.pools))
               && (th.pc.Probe? ==>
                     if th.pc.a.ObjectKey() in v.objects then after == UnlockPool(Failed(NameTaken)) else after.Create?)
               && (th.pc.Fetch? ==> (after.Delete? <==> Release(v.objects, th.call.req).result.Ok?))
               && (th.pc.Delete? ==>
                     if ReleaseKey(th.call.req) in v.objects then after == UnlockPool(ReleasedOk)
                     else after == UnlockPool(Failed(NotFound)))
  {
    hide Holds, Select, Plan, PlanAt;
    RunStep(strategy, states, events, i);
    ThreadsAfter(strategy, states[i], events[i].t, events[i].ans);
  }

  /** Steps that are API requests. */
  predicate AsksServer(pc: Pc) {
    pc.CheckDuplicate? || pc.ReadPool? || pc.ReadLedger? || pc.Probe? || pc.Create? || pc.Fetch? || pc.Delete?
  }
}
