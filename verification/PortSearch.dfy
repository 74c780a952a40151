/** The counting test that guards the choice of a load balancer, the first-fit scan that follows it,
    and when the one may stand in for the other. */
module PortSearch {
  import opened Types
  import opened Ledger

  /** Size of the range less the number of exclusion entries, before 32-bit truncation. */
  function Capacity(r: PortRange): int { r.max - r.min + 1 - |r.excluded| }

  /** The test behind every selection: a subtraction of counts, in 32 bits. */
  predicate HasAvailable(s: Snapshot, id: string, n: int) {
    Wrap32(Capacity(s.pool.portRange) - Usage(s.items, id)) >= Wrap32(n)
  }

  function Excluded(r: PortRange): set<int> { set i | 0 <= i < |r.excluded| :: r.excluded[i] }

  function Blocked(s: Snapshot, id: string): set<int> {
    UsedPorts(s.items, id) + Excluded(s.pool.portRange)
  }

  function Span(lo: int, hi: int): (s: set<int>)
    ensures forall p :: p in s <==> lo <= p <= hi
    decreases hi - lo + 1
  {
    if lo > hi then {} else {lo} + Span(lo + 1, hi)
  }

  /** The ports a request on `id` may receive: in range, not excluded, not bound on `id`. */
  function FreePorts(s: Snapshot, id: string): set<int> {
    Span(s.pool.portRange.min, s.pool.portRange.max) - Blocked(s, id)
  }

  /** Ascending scan from `lo`, keeping unblocked ports until `n` are found. */
  function FirstFit(lo: int, hi: int, blocked: set<int>, n: nat): seq<int>
    decreases hi - lo + 1
  {
    if lo > hi || n == 0 then []
    else if lo in blocked then FirstFit(lo + 1, hi, blocked, n)
    else [lo] + FirstFit(lo + 1, hi, blocked, n - 1)
  }

  function FindPorts(s: Snapshot, id: string, n: int): Result<seq<int>> {
    if n <= 0 then Err(InvalidCount)
    else
      var found := FirstFit(s.pool.portRange.min, s.pool.portRange.max, Blocked(s, id), n);
      if |found| < n then Err(TooFewPorts) else Ok(found)
  }

  // ---------- The scan returns the n smallest free ports ----------

  ghost predicate StrictlyIncreasing(r: seq<int>) { forall i, j :: 0 <= i < j < |r| ==> r[i] < r[j] }

  /** `r` lists the `n` smallest elements of `free` in increasing order. */
  ghost predicate IsSmallest(r: seq<int>, free: set<int>, n: nat) {
    && |r| == n
    && StrictlyIncreasing(r)
    && (forall i :: 0 <= i < |r| ==> r[i] in free)
    && (forall q, i :: q in free && q !in r && 0 <= i < |r| ==> r[i] < q)
  }

  lemma SpanStep(lo: int, hi: int, blocked: set<int>)
    requires lo <= hi
    ensures Span(lo, hi) - blocked == (Span(lo + 1, hi) - blocked) + (if lo in blocked then {} else {lo})
    ensures lo !in Span(lo + 1, hi)
  {
  }

  lemma {:induction false} SpanSize(lo: int, hi: int)
    ensures |Span(lo, hi)| == if lo <= hi then hi - lo + 1 else 0
    decreases hi - lo + 1
  {
    if lo <= hi {
      SpanStep(lo, hi, {});
      SpanSize(lo + 1, hi);
      assert Span(lo, hi) == Span(lo, hi) - {} && Span(lo + 1, hi) == Span(lo + 1, hi) - {};
      assert Span(lo, hi) == Span(lo + 1, hi) + {lo};
    } else {
      assert Span(lo, hi) == {};
    }
  }

  lemma {:induction false} FirstFitSize(lo: int, hi: int, blocked: set<int>, n: nat)
    ensures var free := |Span(lo, hi) - blocked|;
            |FirstFit(lo, hi, blocked, n)| == if free < n then free else n
    decreases hi - lo + 1
  {
    if lo > hi {
      assert Span(lo, hi) - blocked == {};
    } else {
      SpanStep(lo, hi, blocked);
      FirstFitSize(lo + 1, hi, blocked, n);
      if n > 0 { FirstFitSize(lo + 1, hi, blocked, n - 1); }
    }
  }

  lemma {:induction false} FirstFitSmallest(lo: int, hi: int, blocked: set<int>, n: nat)
    requires n <= |Span(lo, hi) - blocked|
    ensures IsSmallest(FirstFit(lo, hi, blocked, n), Span(lo, hi) - blocked, n)
    decreases hi - lo + 1
  {
    if lo > hi {
      assert Span(lo, hi) - blocked == {};
    } else if n > 0 {
      SpanStep(lo, hi, blocked);
      var k := if lo in blocked then n else n - 1;
      FirstFitSmallest(lo + 1, hi, blocked, k);
      if lo in blocked {
        assert Span(lo, hi) - blocked == Span(lo + 1, hi) - blocked;
      } else {
        SmallestCons(lo, FirstFit(lo + 1, hi, blocked, k), Span(lo + 1, hi) - blocked, k);
      }
    }
  }

  /** Putting a new least element in front of a list of smallest elements, */
  lemma SmallestCons(x: int, tail: seq<int>, free: set<int>, n: nat)
    requires (forall p :: p in free ==> x < p) && IsSmallest(tail, free, n)
    ensures IsSmallest([x] + tail, free + {x}, n + 1)
  {
    var r := [x] + tail;
    assert forall i :: 0 < i < |r| ==> r[i] == tail[i - 1];
    forall q, i | q in free + {x} && q !in r && 0 <= i < |r| ensures r[i] < q {
      assert q != r[0] && q !in tail;
    }
  }

  /** and taking it off again. */
  lemma SmallestTail(r: seq<int>, x: int, free: set<int>, n: nat)
    requires IsSmallest(r, free + {x}, n + 1) && r[0] == x && x !in free
    ensures IsSmallest(r[1..], free, n)
  {
    var first := r[0];
    forall i | 0 < i < |r| ensures r[i] in free {
      assert first < r[i];
    }
    forall q, i | q in free && q !in r[1..] && 0 < i < |r| ensures r[i] < q {
      assert r == [first] + r[1..];
      assert q !in r;
    }
  }

  lemma SmallestHead(r: seq<int>, x: int, free: set<int>, n: nat)
    requires n > 0 && IsSmallest(r, free, n)
    requires x in free && forall p :: p in free ==> x <= p
    ensures r == [x] + r[1..]
  {
    var first := r[0];
    assert first in free;
    assert x !in r ==> first < x;
    var i :| 0 <= i < |r| && r[i] == x;
    var ri := r[i];
    assert i == 0 || first < ri;
  }

  lemma {:induction false} SmallestUnique(r: seq<int>, lo: int, hi: int, blocked: set<int>, n: nat)
    requires IsSmallest(r, Span(lo, hi) - blocked, n)
    ensures r == FirstFit(lo, hi, blocked, n)
    decreases hi - lo + 1
  {
    var free := Span(lo, hi) - blocked;
    if n == 0 { return; }
    assert r[0] in free;
    SpanStep(lo, hi, blocked);
    var later := Span(lo + 1, hi) - blocked;
    if lo in blocked {
      assert free == later;
      SmallestUnique(r, lo + 1, hi, blocked, n);
    } else {
      assert free == later + {lo};
      SmallestHead(r, lo, free, n);
      SmallestTail(r, lo, later, n - 1);
      SmallestUnique(r[1..], lo + 1, hi, blocked, n - 1);
    }
  }

  /** The search refuses a count that is not positive. */
  lemma CountRefused(s: Snapshot, id: string, n: int)
    ensures FindPorts(s, id, n) == Err(InvalidCount) <==> n <= 0
  {
  }

  /** The search succeeds exactly when enough ports are free, and its answer is the one list of
      the `n` smallest. */
  lemma FindPortsExactly(s: Snapshot, id: string, n: nat)
    requires n > 0
    ensures FindPorts(s, id, n).Ok? <==> |FreePorts(s, id)| >= n
    ensures FindPorts(s, id, n).Err? ==> FindPorts(s, id, n).error == TooFewPorts
    ensures forall r :: FindPorts(s, id, n) == Ok(r) <==> IsSmallest(r, FreePorts(s, id), n)
  {
    var lo, hi, blocked := s.pool.portRange.min, s.pool.portRange.max, Blocked(s, id);
    FirstFitSize(lo, hi, blocked, n);
    if n <= |FreePorts(s, id)| { FirstFitSmallest(lo, hi, blocked, n); }
    forall r | IsSmallest(r, FreePorts(s, id), n) ensures FindPorts(s, id, n) == Ok(r) {
      SmallestUnique(r, lo, hi, blocked, n);
    }
  }

  // ---------- Counting against searching ----------

  lemma SetDifferenceSize(a: set<int>, b: set<int>)
    ensures |a - b| >= |a| - |b|
    ensures b <= a ==> |a - b| == |a| - |b|
  {
    assert a == (a - b) + (a * b);
    assert b == (b - a) + (a * b);
    if b <= a { assert a * b == b; }
  }

  lemma {:induction false} ExcludedSize(r: PortRange)
    ensures |Excluded(r)| <= |r.excluded|
    ensures |Excluded(r)| == |r.excluded| <==> NoRepeats(r.excluded)
    decreases |r.excluded|
  {
    if r.excluded == [] {
      assert Excluded(r) == {};
    } else {
      ExcludedSize(r.(excluded := r.excluded[..|r.excluded| - 1]));
      LastExcluded(r);
      hide Excluded, NoRepeats;
    }
  }

  lemma LastExcluded(r: PortRange)
    requires r.excluded != []
    ensures var n := |r.excluded| - 1; var rest := r.(excluded := r.excluded[..n]);
            && Excluded(r) == Excluded(rest) + {r.excluded[n]}
            && (NoRepeats(r.excluded) <==> NoRepeats(rest.excluded) && r.excluded[n] !in Excluded(rest))
  {
    var n := |r.excluded| - 1;
    var rest := r.excluded[..n];
    assert r.excluded == rest + [r.excluded[n]];
    if NoRepeats(r.excluded) {
      forall i, j | 0 <= i < j < n ensures rest[i] != rest[j] {
        assert r.excluded[i] != r.excluded[j];
      }
    }
  }

  ghost predicate NoRepeats(s: seq<int>) { forall i, j :: 0 <= i < j < |s| ==> s[i] != s[j] }

  /** Whatever the ledger and the exclusion list hold, counting never overstates the free ports. */
  lemma CountUnderestimates(s: Snapshot, id: string)
    ensures |FreePorts(s, id)| >= Capacity(s.pool.portRange) - Usage(s.items, id)
  {
    var r := s.pool.portRange;
    SpanSize(r.min, r.max);
    SetDifferenceSize(Span(r.min, r.max), Blocked(s, id));
    ExcludedSize(r);
    Pigeonhole(Bindings(s.items), id);
  }

  /** Soundness for every ledger and exclusion list: an accepted count is always found by the scan,
      provided the 32-bit difference did not underflow. */
  lemma CountingTestSound(s: Snapshot, id: string, n: nat)
    requires 0 < n <= MAX_INT32
    requires Capacity(s.pool.portRange) - Usage(s.items, id) >= -MAX_INT32 - 1
    requires HasAvailable(s, id, n)
    ensures FindPorts(s, id, n).Ok?
  {
    CountUnderestimates(s, id);
    FindPortsExactly(s, id, n);
    WrapNotAbove(Capacity(s.pool.portRange) - Usage(s.items, id));
  }

  lemma WrapNotAbove(x: int)
    requires x >= -MAX_INT32 - 1
    ensures Wrap32(x) <= x
  {
  }

  /** The full story: on ranges with 32-bit bounds and lists of feasible length, the test is a sound
      stand-in exactly when the difference does not fall into the window where it wraps to a positive value. */
  lemma CountingTestSoundExactly(s: Snapshot, id: string)
    requires Fits32(s.pool.portRange.min) && Fits32(s.pool.portRange.max)
    requires |s.pool.portRange.excluded| + Usage(s.items, id) <= MAX_INT32
    ensures var c := Capacity(s.pool.portRange) - Usage(s.items, id);
            (forall n: nat :: 0 < n <= MAX_INT32 && HasAvailable(s, id, n) ==> FindPorts(s, id, n).Ok?)
            <==> !(-TWO32 < c < -MAX_INT32 - 1)
  {
    var c := Capacity(s.pool.portRange) - Usage(s.items, id);
    if c >= -MAX_INT32 - 1 {
      forall n: nat | 0 < n <= MAX_INT32 && HasAvailable(s, id, n) ensures FindPorts(s, id, n).Ok? {
        CountingTestSound(s, id, n);
      }
    } else {
      assert s.pool.portRange.min > s.pool.portRange.max;
      WrapShift(c, 1);
      assert Wrap32(c) == c + TWO32;
      assert Span(s.pool.portRange.min, s.pool.portRange.max) == {};
      FindPortsExactly(s, id, 1);
      if c > -TWO32 {
        assert HasAvailable(s, id, 1) && !FindPorts(s, id, 1).Ok?;
      }
    }
  }

  /** An inverted range in that window: an empty load balancer without a single port passes the test. */
  lemma SpuriousAcceptance() returns (s: Snapshot)
    ensures Fits32(s.pool.portRange.min) && Fits32(s.pool.portRange.max) && s.items == []
    ensures HasAvailable(s, "lb", 1) && FindPorts(s, "lb", 1) == Err(TooFewPorts)
  {
    s := Snapshot(Pool("p", "", [LoadBalancerRef("lb", "", "", "")], PortRange(2_000_000_000, -2_000_000_000, []),
                       false, 0), []);
    assert Usage(s.items, "lb") == 0;
    assert Span(2_000_000_000, -2_000_000_000) == {};
    FindPortsExactly(s, "lb", 1);
  }

  /** A range with room in 32 bits whose exclusions are distinct ports of the range. */
  ghost predicate WellFormedRange(r: PortRange) {
    && r.min <= r.max + 1
    && r.max - r.min < MAX_INT32 - 1
    && NoRepeats(r.excluded)
    && Excluded(r) <= Span(r.min, r.max)
  }

  /** On load balancer `id` the ledger binds distinct, in-range, unexcluded ports. */
  ghost predicate TidyOn(s: Snapshot, id: string) {
    && DistinctOn(Bindings(s.items), id)
    && UsedPorts(s.items, id) <= Span(s.pool.portRange.min, s.pool.portRange.max) - Excluded(s.pool.portRange)
  }

  /** On a tidy ledger the count is the number of free ports, so test and search agree both ways. */
  lemma CountingTestExact(s: Snapshot, id: string)
    requires WellFormedRange(s.pool.portRange) && TidyOn(s, id)
    ensures |FreePorts(s, id)| == Capacity(s.pool.portRange) - Usage(s.items, id)
    ensures forall n: nat :: 0 < n <= MAX_INT32 ==>
              (HasAvailable(s, id, n) <==> |FreePorts(s, id)| >= n)
              && (HasAvailable(s, id, n) <==> FindPorts(s, id, n).Ok?)
  {
    var r := s.pool.portRange;
    var used, excluded := UsedPorts(s.items, id), Excluded(r);
    SpanSize(r.min, r.max);
    SetDifferenceSize(Span(r.min, r.max), Blocked(s, id));
    ExcludedSize(r);
    Pigeonhole(Bindings(s.items), id);
    assert used !! excluded;
    assert |used + excluded| == |used| + |excluded|;
    var free := |FreePorts(s, id)|;
    assert Fits32(free);
    forall n: nat | 0 < n <= MAX_INT32
      ensures (HasAvailable(s, id, n) <==> free >= n) && (HasAvailable(s, id, n) <==> FindPorts(s, id, n).Ok?)
    {
      FindPortsExactly(s, id, n);
    }
  }
}
