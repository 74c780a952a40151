/** The round-robin guarantees carried over to the allocator's own selections: snapshots of any pools in any
    order, sharing one cursor map. */
module Rotation {
  import opened Types
  import PortSearch
  import opened Operations
  import RR = RoundRobin
  import LU = LeastUsed

  /** One selection: what was read, and how many ports are wanted. */
  datatype Ask = Ask(s: Snapshot, n: nat)

  function Position(r: Result<nat>): Option<nat> {
    match r
    case Ok(p) => Some(p)
    case Err(_) => None
  }

  /** The positions selected for the pool with cursor key `key`, in order. */
  function Choices(cursors: Cursors, asks: seq<Ask>, key: string): seq<Option<nat>>
    decreases |asks|
  {
    if asks == [] then []
    else
      (if CursorKey(asks[0].s.pool) == key then
         [Position(Select(RoundRobin, RR.CursorOf(cursors, key), asks[0].s, asks[0].n))]
       else [])
      + Choices(CursorsAfter(RoundRobin, cursors, asks[0].s, asks[0].n), asks[1..], key)
  }

  /** The availability vectors of the requests for `key`. */
  function Wanted(asks: seq<Ask>, key: string): seq<seq<bool>> {
    if asks == [] then []
    else (if CursorKey(asks[0].s.pool) == key then [LU.Avail(asks[0].s, asks[0].n)] else []) + Wanted(asks[1..], key)
  }

  lemma SelectIsPick(index: nat, cursors: Cursors, s: Snapshot, n: nat)
    ensures Position(Select(RoundRobin, index, s, n)) == RR.Pick(index, LU.Avail(s, n))
    ensures CursorsAfter(RoundRobin, cursors, s, n) == RR.Advance(cursors, CursorKey(s.pool), LU.Avail(s, n))
  {
  }

  function Selections(asks: seq<Ask>): seq<RR.Selection> {
    seq(|asks|, i requires 0 <= i < |asks| => RR.Selection(CursorKey(asks[i].s.pool), LU.Avail(asks[i].s, asks[i].n)))
  }

  lemma {:induction false} ChoicesArePicks(cursors: Cursors, asks: seq<Ask>, key: string)
    ensures Choices(cursors, asks, key) == RR.PicksFor(cursors, Selections(asks), key)
    ensures Wanted(asks, key) == RR.Requests(Selections(asks), key)
    decreases |asks|
  {
    if asks != [] {
      var a := asks[0];
      assert Selections(asks)[1..] == Selections(asks[1..]);
      SelectIsPick(RR.CursorOf(cursors, key), cursors, a.s, a.n);
      ChoicesArePicks(CursorsAfter(RoundRobin, cursors, a.s, a.n), asks[1..], key);
    }
  }

  /** Selections of other pools are invisible: a pool's choices are those of its own requests alone. */
  lemma ChoicesAreOwn(cursors: Cursors, asks: seq<Ask>, key: string)
    ensures Choices(cursors, asks, key) == RR.Picks(RR.CursorOf(cursors, key), Wanted(asks, key))
  {
    ChoicesArePicks(cursors, asks, key);
    RR.Independence(cursors, Selections(asks), key);
  }

  /** Load balancer `j` of an `n`-balancer pool passes the counting test for every request of the pool. */
  ghost predicate AlwaysServes(asks: seq<Ask>, key: string, n: nat, j: nat) {
    forall i :: 0 <= i < |asks| && CursorKey(asks[i].s.pool) == key ==>
      |asks[i].s.pool.loadBalancers| == n && j < n
      && PortSearch.HasAvailable(asks[i].s, asks[i].s.pool.loadBalancers[j].id, asks[i].n)
  }

  lemma WantedServes(asks: seq<Ask>, key: string, n: nat, j: nat)
    requires AlwaysServes(asks, key, n, j)
    ensures forall v :: v in Wanted(asks, key) ==> |v| == n && j < n && v[j]
  {
    if asks != [] {
      assert AlwaysServes(asks[1..], key, n, j) by {
        forall i | 0 <= i < |asks[1..]| && CursorKey(asks[1..][i].s.pool) == key
          ensures |asks[1..][i].s.pool.loadBalancers| == n && j < n
                  && PortSearch.HasAvailable(asks[1..][i].s, asks[1..][i].s.pool.loadBalancers[j].id, asks[1..][i].n)
        {
          assert asks[1..][i] == asks[i + 1];
        }
      }
      WantedServes(asks[1..], key, n, j);
    }
  }

  /** Bounded waiting on real ledgers: a load balancer that can serve every request of its pool is chosen
      within as many of the pool's requests as it has load balancers, from any cursor, whatever happens to
      the other load balancers and pools meanwhile. */
  lemma ServedInTurn(cursors: Cursors, asks: seq<Ask>, key: string, n: nat, j: nat) returns (k: nat)
    requires AlwaysServes(asks, key, n, j) && j < n <= |Wanted(asks, key)|
    ensures k < n && k < |Choices(cursors, asks, key)| && Choices(cursors, asks, key)[k] == Some(j)
  {
    WantedServes(asks, key, n, j);
    ChoicesAreOwn(cursors, asks, key);
    k := RR.BoundedWaiting(RR.CursorOf(cursors, key), Wanted(asks, key), n, j);
  }

  lemma AllWanted(asks: seq<Ask>, key: string, n: nat)
    requires forall b: nat :: b < n ==> AlwaysServes(asks, key, n, b)
    requires n > 0
    ensures RR.AllAvailable(Wanted(asks, key), n)
  {
    WantedServes(asks, key, n, 0);
    forall v | v in Wanted(asks, key) ensures forall b :: 0 <= b < n ==> v[b] {
      forall b | 0 <= b < n ensures v[b] {
        WantedServes(asks, key, n, b);
      }
    }
  }

  /** Fairness on real ledgers: while all of a pool's load balancers have room, no two of them are chosen a
      number of times differing by more than one, over any stretch of requests of any pools. */
  lemma FairShares(cursors: Cursors, asks: seq<Ask>, key: string, n: nat, i: nat, j: nat)
    requires i < n && j < n
    requires forall b: nat :: b < n ==> AlwaysServes(asks, key, n, b)
    ensures -1 <= RR.Times(Choices(cursors, asks, key), i) - RR.Times(Choices(cursors, asks, key), j) <= 1
  {
    AllWanted(asks, key, n);
    ChoicesAreOwn(cursors, asks, key);
    FairTimes(RR.CursorOf(cursors, key), Wanted(asks, key), n, i, j);
  }

  lemma FairTimes(index: nat, avails: seq<seq<bool>>, n: nat, i: nat, j: nat)
    requires i < n && j < n && RR.AllAvailable(avails, n)
    ensures -1 <= RR.Times(RR.Picks(index, avails), i) - RR.Times(RR.Picks(index, avails), j) <= 1
  {
    if i != j {
      RR.DistanceInjective(index, i, j, n);
      if RR.Distance(index, i, n) < RR.Distance(index, j, n) {
        RR.Fairness(index, avails, n, i, j);
      } else {
        RR.Fairness(index, avails, n, j, i);
      }
    }
  }
}
