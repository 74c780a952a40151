/** Round-robin guarantees in every interleaving: the selections made while holding the index lock, in the
    order they happen, are those of the sequential rotation. */
module ProtocolRotation {
  import opened Types
  import opened Operations
  import opened Protocol
  import ProtocolSafety
  import opened Rotation
  import RR = RoundRobin

  /** Event `e` selects a load balancer under the index lock. */
  ghost predicate Selects(v: State, e: Event) { e.Step? && e.t in v.threads && v.threads[e.t].pc.HoldIndex? }

  /** What the selections of the first `m` events asked for, in order. */
  ghost function Asked(states: seq<State>, events: seq<Event>, m: nat): seq<Ask>
    requires m <= |events| <= |states|
  {
    if m == 0 then []
    else
      var v, e := states[m - 1], events[m - 1];
      Asked(states, events, m - 1)
      + if Selects(v, e) then [Ask(v.threads[e.t].pc.s, |Ports(v.threads[e.t].call)|)] else []
  }

  /** The positions the threads selected for the pool with cursor key `key`, as they recorded them. */
  ghost function Recorded(states: seq<State>, events: seq<Event>, m: nat, key: string): seq<Option<nat>>
    requires m <= |events| < |states|
  {
    if m == 0 then []
    else
      var v, e := states[m - 1], events[m - 1];
      Recorded(states, events, m - 1, key)
      + if && Selects(v, e) && CursorKey(v.threads[e.t].pc.s.pool) == key
           && e.t in states[m].threads && states[m].threads[e.t].pc.LeaveIndex?
        then [Position(states[m].threads[e.t].pc.choice)] else []
  }

  /** The cursor map after a sequence of selections. */
  function CursorsOver(cursors: Cursors, asks: seq<Ask>): Cursors
    decreases |asks|
  {
    if asks == [] then cursors else CursorsOver(CursorsAfter(RoundRobin, cursors, asks[0].s, asks[0].n), asks[1..])
  }

  lemma {:induction false} OneMoreAsk(cursors: Cursors, asks: seq<Ask>, a: Ask, key: string)
    ensures CursorsOver(cursors, asks + [a]) == CursorsAfter(RoundRobin, CursorsOver(cursors, asks), a.s, a.n)
    ensures Choices(cursors, asks + [a], key) == Choices(cursors, asks, key)
            + (if CursorKey(a.s.pool) == key then
                 [Position(Select(RoundRobin, RR.CursorOf(CursorsOver(cursors, asks), key), a.s, a.n))] else [])
    decreases |asks|
  {
    hide Select, CursorsAfter;
    if asks == [] {
      assert (asks + [a])[1..] == [];
    } else {
      assert (asks + [a])[1..] == asks[1..] + [a];
      OneMoreAsk(CursorsAfter(RoundRobin, cursors, asks[0].s, asks[0].n), asks[1..], a, key);
    }
  }

  lemma SelectStep(strategy: Strategy, v: State, e: Event, v': State)
    requires !strategy.LeastUsed? && Leads(strategy, v, e, v')
    ensures if Selects(v, e) then
              var s, n := v.threads[e.t].pc.s, |Ports(v.threads[e.t].call)|;
              && v'.cursors == CursorsAfter(RoundRobin, v.cursors, s, n)
              && e.t in v'.threads && v'.threads[e.t].pc.LeaveIndex?
              && v'.threads[e.t].pc.choice == Select(RoundRobin, RR.CursorOf(v.cursors, CursorKey(s.pool)), s, n)
            else v'.cursors == v.cursors
  {
    if e.Step? { ProtocolSafety.ThreadsAfter(strategy, v, e.t, e.ans); }
  }

  lemma NextAsked(states: seq<State>, events: seq<Event>, m: nat, key: string)
    requires 0 < m <= |events| < |states|
    ensures var v, e := states[m - 1], events[m - 1];
            if Selects(v, e) then
              var th := v.threads[e.t];
              && Asked(states, events, m) == Asked(states, events, m - 1) + [Ask(th.pc.s, |Ports(th.call)|)]
              && (e.t in states[m].threads && states[m].threads[e.t].pc.LeaveIndex? ==>
                    Recorded(states, events, m, key) == Recorded(states, events, m - 1, key)
                      + if CursorKey(th.pc.s.pool) == key then [Position(states[m].threads[e.t].pc.choice)] else [])
            else
              Asked(states, events, m) == Asked(states, events, m - 1)
              && Recorded(states, events, m, key) == Recorded(states, events, m - 1, key)
  {
  }

  /** The threads' selections follow the rotation, whatever else is interleaved with them. */
  lemma {:induction false} RecordedAreChoices(strategy: Strategy, states: seq<State>, events: seq<Event>, m: nat,
                                              key: string)
    requires Run(strategy, states, events) && !strategy.LeastUsed? && m <= |events| < |states|
    ensures states[m].cursors == CursorsOver(states[0].cursors, Asked(states, events, m))
    ensures Recorded(states, events, m, key) == Choices(states[0].cursors, Asked(states, events, m), key)
  {
    hide Run, Leads, Select, CursorsAfter, NextPc;
    if m > 0 {
      RecordedAreChoices(strategy, states, events, m - 1, key);
      var v, e := states[m - 1], events[m - 1];
      RunStep(strategy, states, events, m - 1);
      SelectStep(strategy, v, e, states[m]);
      NextAsked(states, events, m, key);
      if Selects(v, e) {
        var a := Ask(v.threads[e.t].pc.s, |Ports(v.threads[e.t].call)|);
        OneMoreAsk(states[0].cursors, Asked(states, events, m - 1), a, key);
      }
    }
  }

  /** Bounded waiting in every interleaving of any calls: a load balancer that can serve every request of its
      pool is selected within as many of the pool's selections as it has load balancers. */
  lemma ServedInTurnAlways(strategy: Strategy, states: seq<State>, events: seq<Event>, key: string, n: nat, j: nat)
    returns (k: nat)
    requires Run(strategy, states, events) && !strategy.LeastUsed?
    requires var asks := Asked(states, events, |events|); AlwaysServes(asks, key, n, j) && j < n <= |Wanted(asks, key)|
    ensures k < n && k < |Recorded(states, events, |events|, key)|
            && Recorded(states, events, |events|, key)[k] == Some(j)
  {
    RecordedAreChoices(strategy, states, events, |events|, key);
    k := ServedInTurn(states[0].cursors, Asked(states, events, |events|), key, n, j);
  }

  /** Fairness in every interleaving: while all of a pool's load balancers have room, no two of them are
      selected a number of times differing by more than one. */
  lemma FairSharesAlways(strategy: Strategy, states: seq<State>, events: seq<Event>, m: nat, key: string, n: nat,
                         i: nat, j: nat)
    requires Run(strategy, states, events) && !strategy.LeastUsed? && m <= |events| && i < n && j < n
    requires forall b: nat :: b < n ==> AlwaysServes(Asked(states, events, m), key, n, b)
    ensures -1 <= RR.Times(Recorded(states, events, m, key), i) - RR.Times(Recorded(states, events, m, key), j) <= 1
  {
    RecordedAreChoices(strategy, states, events, m, key);
    FairShares(states[0].cursors, Asked(states, events, m), key, n, i, j);
  }
}
