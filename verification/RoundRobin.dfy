/** Round-robin choice of a load balancer as a cyclic scan, and what it guarantees over whole runs.
    A request is seen here only through the vector saying which load balancers pass the counting test. */
module RoundRobin {
  import opened Types

  /** Position tried in round `i` of a scan that starts at `index`. */
  function Position(index: nat, i: nat, n: nat): (p: nat)
    requires n > 0
    ensures p < n
  {
    (index + i) % n
  }

  function ScanFrom(index: nat, avail: seq<bool>, i: nat): (r: Option<nat>)
    requires i <= |avail|
    ensures r.Some? ==> r.value < |avail| && avail[r.value]
    decreases |avail| - i
  {
    if i == |avail| then None
    else if avail[Position(index, i, |avail|)] then Some(Position(index, i, |avail|))
    else ScanFrom(index, avail, i + 1)
  }

  function Pick(index: nat, avail: seq<bool>): Option<nat> { ScanFrom(index, avail, 0) }

  /** The stored index moves past the chosen position and stays put when nothing is chosen. */
  function NextIndex(index: nat, avail: seq<bool>): nat {
    match Pick(index, avail)
    case Some(p) => (p + 1) % |avail|
    case None => index
  }

  // ---------- Cyclic distance ----------

  /** Steps from the position of `index` forward to position `j`, around a ring of `n`. */
  function Distance(index: nat, j: nat, n: nat): (d: nat)
    requires j < n
    ensures d < n
  {
    var start := index % n;
    if start <= j then j - start else j - start + n
  }

  lemma PositionOf(index: nat, i: nat, n: nat)
    requires i < n
    ensures Position(index, i, n) == if index % n + i < n then index % n + i else index % n + i - n
  {
    var q, r := index / n, index % n;
    var k := if r + i < n then 0 else 1;
    ModUnique(index + i, q + k, r + i - k * n, n);
  }

  lemma MultipleBound(k: int, n: int)
    requires n > 0
    ensures k >= 1 ==> k * n >= n
    ensures k <= -1 ==> k * n <= -n
  {
  }

  lemma ModUnique(x: int, q: int, r: int, n: int)
    requires n > 0 && x == q * n + r && 0 <= r < n
    ensures x % n == r
  {
    var k := q - x / n;
    assert x == x / n * n + x % n;
    assert k * n == q * n - x / n * n;
    MultipleBound(k, n);
  }

  lemma DistanceInverse(index: nat, i: nat, j: nat, n: nat)
    requires i < n && j < n
    ensures Position(index, i, n) == j <==> Distance(index, j, n) == i
  {
    PositionOf(index, i, n);
  }

  /** Moving `e + 1` steps forward, short of `j`, brings `j` that much nearer; moving onto it puts
      it a full turn away. */
  lemma DistanceAfter(index: nat, e: nat, j: nat, n: nat)
    requires e < n && j < n
    ensures var next := (Position(index, e, n) + 1) % n;
            Distance(next, j, n) ==
              if e < Distance(index, j, n) then Distance(index, j, n) - e - 1
              else Distance(index, j, n) + n - e - 1
  {
    PositionOf(index, e, n);
    var p := Position(index, e, n);
    if p + 1 == n { ModUnique(p + 1, 1, 0, n); } else { ModUnique(p + 1, 0, p + 1, n); }
  }

  // ---------- One selection ----------

  lemma ScanNearest(index: nat, avail: seq<bool>, i: nat)
    requires i <= |avail|
    requires forall e :: 0 <= e < i ==> !avail[Position(index, e, |avail|)]
    ensures match ScanFrom(index, avail, i)
            case Some(p) =>
              && p < |avail| && avail[p]
              && forall q :: 0 <= q < |avail| && avail[q] ==> Distance(index, p, |avail|) <= Distance(index, q, |avail|)
            case None => forall q :: 0 <= q < |avail| ==> !avail[q]
    decreases |avail| - i
  {
    var n := |avail|;
    forall q | 0 <= q < n && avail[q] ensures i <= Distance(index, q, n) {
      DistanceInverse(index, Distance(index, q, n), q, n);
    }
    if i < n {
      DistanceInverse(index, i, Position(index, i, n), n);
      if !avail[Position(index, i, n)] { ScanNearest(index, avail, i + 1); }
    }
  }

  /** The choice is the available load balancer nearest ahead of the cursor; there is none exactly
      when no load balancer is available. */
  lemma PickNearest(index: nat, avail: seq<bool>)
    ensures match Pick(index, avail)
            case Some(p) =>
              && p < |avail| && avail[p]
              && forall q :: 0 <= q < |avail| && avail[q] ==> Distance(index, p, |avail|) <= Distance(index, q, |avail|)
            case None => forall q :: 0 <= q < |avail| ==> !avail[q]
  {
    ScanNearest(index, avail, 0);
  }

  /** `p` is the first available position met on the way forward from `index`, around the ring. */
  ghost predicate FirstAround(index: nat, avail: seq<bool>, p: nat) {
    && p < |avail| && avail[p]
    && var start := index % |avail|;
       if start <= p then forall q :: start <= q < p ==> !avail[q]
       else forall q :: 0 <= q < |avail| && (q < p || start <= q) ==> !avail[q]
  }

  /** The scan finds the first available position, and only fails where there is none. */
  lemma PickIsFirst(index: nat, avail: seq<bool>)
    ensures forall p: nat :: Pick(index, avail) == Some(p) <==> FirstAround(index, avail, p)
    ensures Pick(index, avail) == None <==> forall q :: 0 <= q < |avail| ==> !avail[q]
  {
    PickNearest(index, avail);
    forall p: nat | FirstAround(index, avail, p) ensures Pick(index, avail) == Some(p) {
      var r := Pick(index, avail).value;
      assert Distance(index, r, |avail|) <= Distance(index, p, |avail|);
    }
  }

  /** After a choice the cursor stands just past it, so asking again repeats the choice exactly when
      no other load balancer is available. */
  lemma PickAgain(index: nat, avail: seq<bool>)
    requires Pick(index, avail).Some?
    ensures var p := Pick(index, avail).value;
            Pick(NextIndex(index, avail), avail) == Some(p)
            <==> forall q :: 0 <= q < |avail| && avail[q] ==> q == p
  {
    var n, p, next := |avail|, Pick(index, avail).value, NextIndex(index, avail);
    PickNearest(next, avail);
    JustPassed(p, n);
    forall q | 0 <= q < n && q != p ensures Distance(next, q, n) < Distance(next, p, n) {
      DistanceInjective(next, q, p, n);
    }
  }

  /** The position just passed is a full turn away. */
  lemma JustPassed(p: nat, n: nat)
    requires p < n
    ensures Distance((p + 1) % n, p, n) == n - 1
  {
    if p + 1 == n {
      ModUnique(p + 1, 1, 0, n);
      ModUnique(0, 0, 0, n);
    } else {
      ModUnique(p + 1, 0, p + 1, n);
    }
  }

  lemma DistanceInjective(index: nat, i: nat, j: nat, n: nat)
    requires i < n && j < n && i != j
    ensures Distance(index, i, n) != Distance(index, j, n)
  {
  }

  // ---------- Runs of one pool ----------

  /** Choices made for consecutive requests of one pool. */
  function Picks(index: nat, avails: seq<seq<bool>>): (picks: seq<Option<nat>>)
    ensures |picks| == |avails|
    decreases |avails|
  {
    if avails == [] then []
    else [Pick(index, avails[0])] + Picks(NextIndex(index, avails[0]), avails[1..])
  }

  /** Bounded waiting: a load balancer that can serve every request is chosen no later than its
      cyclic distance from the cursor, hence within `n` requests, whatever happens to the others. */
  lemma {:induction false} BoundedWaiting(index: nat, avails: seq<seq<bool>>, n: nat, j: nat) returns (k: nat)
    requires j < n <= |avails|
    requires forall a :: a in avails ==> |a| == n && a[j]
    ensures k <= Distance(index, j, n)
    ensures k < |avails| && Picks(index, avails)[k] == Some(j)
  {
    k := WaitAtMost(index, avails, n, j);
  }

  lemma {:induction false} WaitAtMost(index: nat, avails: seq<seq<bool>>, n: nat, j: nat) returns (k: nat)
    requires j < n && Distance(index, j, n) < |avails|
    requires forall a :: a in avails ==> |a| == n && a[j]
    ensures k <= Distance(index, j, n)
    ensures k < |avails| && Picks(index, avails)[k] == Some(j)
    decreases |avails|
  {
    var avail := avails[0];
    PickNearest(index, avail);
    var p := Pick(index, avail).value;
    if p == j {
      k := 0;
    } else {
      var e := Distance(index, p, n);
      DistanceInverse(index, e, p, n);
      DistanceInverse(index, Distance(index, j, n), j, n);
      DistanceAfter(index, e, j, n);
      k := WaitAtMost(NextIndex(index, avail), avails[1..], n, j);
      k := k + 1;
    }
  }

  predicate AllAvailable(avails: seq<seq<bool>>, n: nat) {
    forall a :: a in avails ==> |a| == n && forall i :: 0 <= i < n ==> a[i]
  }

  /** While every load balancer has room, the `k`-th choice is `k` places past the cursor. */
  lemma {:induction false} PicksRotate(index: nat, avails: seq<seq<bool>>, n: nat, k: nat)
    requires n > 0 && AllAvailable(avails, n) && k < |avails|
    ensures Picks(index, avails)[k] == Some((index + k) % n)
    decreases k
  {
    FirstPick(index, avails[0], n);
    if k > 0 {
      var next := NextIndex(index, avails[0]);
      PicksRotate(next, avails[1..], n, k - 1);
      RotateOnce(index, k, n);
    }
  }

  lemma FirstPick(index: nat, avail: seq<bool>, n: nat)
    requires n > 0 && |avail| == n && forall i :: 0 <= i < n ==> avail[i]
    ensures Pick(index, avail) == Some(index % n) && NextIndex(index, avail) == (index % n + 1) % n
  {
    PositionOf(index, 0, n);
  }

  lemma RotateOnce(index: nat, k: nat, n: nat)
    requires n > 0 && k > 0
    ensures ((index % n + 1) % n + (k - 1)) % n == (index + k) % n
  {
    var q, r := index / n, index % n;
    var r1, q1 := (r + 1) % n, (r + 1) / n;
    var x := r1 + (k - 1);
    var q2 := x / n;
    assert index + k == (q + q1 + q2) * n + x % n;
    ModUnique(index + k, q + q1 + q2, x % n, n);
  }

  /** How often position `j` was chosen. */
  function Times(picks: seq<Option<nat>>, j: nat): nat {
    if picks == [] then 0 else (if picks[0] == Some(j) then 1 else 0) + Times(picks[1..], j)
  }

  /** Fairness: over any window in which all load balancers have room, no two are chosen a number
      of times differing by more than one; the one nearer the cursor is never behind. */
  lemma {:induction false} Fairness(index: nat, avails: seq<seq<bool>>, n: nat, i: nat, j: nat)
    requires i < n && j < n && AllAvailable(avails, n)
    requires Distance(index, i, n) < Distance(index, j, n)
    ensures 0 <= Times(Picks(index, avails), i) - Times(Picks(index, avails), j) <= 1
    decreases |avails|
  {
    hide Pick, FirstAround;
    if avails != [] {
      FirstPick(index, avails[0], n);
      var p, next := index % n, NextIndex(index, avails[0]);
      PositionOf(index, 0, n);
      DistanceAfter(index, 0, i, n);
      DistanceAfter(index, 0, j, n);
      DistanceInverse(index, 0, i, n);
      DistanceInverse(index, 0, j, n);
      assert Picks(index, avails)[1..] == Picks(next, avails[1..]);
      if p == i {
        Fairness(next, avails[1..], n, j, i);
      } else {
        Fairness(next, avails[1..], n, i, j);
      }
    }
  }

  // ---------- Interleaved pools ----------

  type Cursors = map<string, nat>

  function CursorOf(cursors: Cursors, key: string): nat { if key in cursors then cursors[key] else 0 }

  /** A selection made for the pool with cursor key `key`. */
  datatype Selection = Selection(key: string, avail: seq<bool>)

  function Advance(cursors: Cursors, key: string, avail: seq<bool>): Cursors {
    match Pick(CursorOf(cursors, key), avail)
    case Some(p) => cursors[key := (p + 1) % |avail|]
    case None => cursors
  }

  /** What one selection does, told from the cursor map: a pool not selected from before starts at its first
      load balancer, a success leaves the cursor just past the choice, and a failure leaves all cursors alone. */
  lemma AdvanceExactly(cursors: Cursors, key: string, avail: seq<bool>)
    ensures match Pick(CursorOf(cursors, key), avail)
            case Some(p) =>
              && FirstAround(if key in cursors then cursors[key] else 0, avail, p)
              && (key !in cursors ==> forall q :: 0 <= q < p ==> !avail[q])
              && Advance(cursors, key, avail) == cursors[key := if p + 1 == |avail| then 0 else p + 1]
            case None =>
              && (forall q :: 0 <= q < |avail| ==> !avail[q])
              && Advance(cursors, key, avail) == cursors
  {
    hide Pick;
    PickIsFirst(CursorOf(cursors, key), avail);
    match Pick(CursorOf(cursors, key), avail)
    case None =>
    case Some(p) =>
      PastChoice(p, |avail|);
      if key !in cursors { SmallMod(0, |avail|); }
  }

  lemma SmallMod(x: nat, n: nat)
    requires x < n
    ensures x % n == x
  {
  }

  lemma PastChoice(p: nat, n: nat)
    requires p < n
    ensures (p + 1) % n == if p + 1 == n then 0 else p + 1
  {
    if p + 1 < n { SmallMod(p + 1, n); }
  }

  function Requests(sels: seq<Selection>, key: string): seq<seq<bool>> {
    if sels == [] then []
    else (if sels[0].key == key then [sels[0].avail] else []) + Requests(sels[1..], key)
  }

  /** Choices handed to `key` while selections of all pools share the cursor map. */
  function PicksFor(cursors: Cursors, sels: seq<Selection>, key: string): seq<Option<nat>>
    decreases |sels|
  {
    if sels == [] then []
    else
      (if sels[0].key == key then [Pick(CursorOf(cursors, key), sels[0].avail)] else [])
      + PicksFor(Advance(cursors, sels[0].key, sels[0].avail), sels[1..], key)
  }

  /** Independence: a pool sees the choices it would see if its own requests were the only ones. */
  lemma {:induction false} Independence(cursors: Cursors, sels: seq<Selection>, key: string)
    ensures PicksFor(cursors, sels, key) == Picks(CursorOf(cursors, key), Requests(sels, key))
    decreases |sels|
  {
    if sels != [] {
      var sel := sels[0];
      var cursors' := Advance(cursors, sel.key, sel.avail);
      Independence(cursors', sels[1..], key);
      if sel.key == key {
        var reqs := Requests(sels, key);
        assert reqs[0] == sel.avail && reqs[1..] == Requests(sels[1..], key);
        assert CursorOf(cursors', key) == NextIndex(CursorOf(cursors, key), sel.avail);
      } else {
        assert Requests(sels, key) == Requests(sels[1..], key);
        assert CursorOf(cursors', key) == CursorOf(cursors, key);
      }
    }
  }
}
