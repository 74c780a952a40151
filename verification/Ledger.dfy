/** Counting and set views of the bindings recorded for a pool, and what it means for a list
    to be an answer of the API server's label query. */
module Ledger {
  import opened Types

  // ---------- A sequence of bindings ----------

  /** Number of bindings on load balancer `id`. */
  function CountOn(bs: seq<PortBinding>, id: string): nat {
    if bs == [] then 0
    else CountOn(bs[..|bs| - 1], id) + if bs[|bs| - 1].lb.id == id then 1 else 0
  }

  /** Ports bound on load balancer `id`. */
  function PortsOn(bs: seq<PortBinding>, id: string): set<int> {
    set j | 0 <= j < |bs| && bs[j].lb.id == id :: bs[j].lbPort
  }

  ghost predicate DistinctOn(bs: seq<PortBinding>, id: string) {
    forall i, j :: 0 <= i < j < |bs| && bs[i].lb.id == id && bs[j].lb.id == id ==> bs[i].lbPort != bs[j].lbPort
  }

  lemma CountConcat(a: seq<PortBinding>, b: seq<PortBinding>, id: string)
    ensures CountOn(a + b, id) == CountOn(a, id) + CountOn(b, id)
  {
    if b == [] {
      assert a + b == a;
    } else {
      var c := b[..|b| - 1];
      assert (a + b)[..|a + b| - 1] == a + c;
      CountConcat(a, c, id);
    }
  }

  lemma PortsConcat(a: seq<PortBinding>, b: seq<PortBinding>, id: string)
    ensures PortsOn(a + b, id) == PortsOn(a, id) + PortsOn(b, id)
  {
    forall p | p in PortsOn(a, id) + PortsOn(b, id) ensures p in PortsOn(a + b, id) {
      if p in PortsOn(a, id) {
        var j :| 0 <= j < |a| && a[j].lb.id == id && a[j].lbPort == p;
        assert (a + b)[j] == a[j];
      } else {
        var j :| 0 <= j < |b| && b[j].lb.id == id && b[j].lbPort == p;
        assert (a + b)[|a| + j] == b[j];
      }
    }
  }

  /** Positions bound to load balancer `id`. */
  ghost function SlotsOn(bs: seq<PortBinding>, id: string): set<int> {
    set j | 0 <= j < |bs| && bs[j].lb.id == id
  }

  /** The count is the cardinality of the set of positions bound to `id`. */
  lemma {:induction false} CountIsCardinality(bs: seq<PortBinding>, id: string)
    ensures CountOn(bs, id) == |SlotsOn(bs, id)|
  {
    if bs == [] {
      assert SlotsOn(bs, id) == {};
    } else {
      var n := |bs| - 1;
      CountIsCardinality(bs[..n], id);
      LastSlot(bs, id);
    }
  }

  lemma LastSlot(bs: seq<PortBinding>, id: string)
    requires bs != []
    ensures var n := |bs| - 1;
            SlotsOn(bs, id) == SlotsOn(bs[..n], id) + (if bs[n].lb.id == id then {n} else {})
            && n !in SlotsOn(bs[..n], id)
  {
  }

  lemma LastBinding(bs: seq<PortBinding>, id: string)
    requires bs != []
    ensures var n := |bs| - 1;
            && PortsOn(bs, id) == PortsOn(bs[..n], id) + (if bs[n].lb.id == id then {bs[n].lbPort} else {})
            && (DistinctOn(bs, id) <==>
                DistinctOn(bs[..n], id) && (bs[n].lb.id == id ==> bs[n].lbPort !in PortsOn(bs[..n], id)))
  {
    var n := |bs| - 1;
    var rest := bs[..n];
    assert bs == rest + [bs[n]];
    forall p | p in PortsOn(bs, id)
      ensures p in PortsOn(rest, id) || (bs[n].lb.id == id && p == bs[n].lbPort)
    {
      var j :| 0 <= j < |bs| && bs[j].lb.id == id && bs[j].lbPort == p;
      assert j < n ==> rest[j] == bs[j];
    }
    forall p | p in PortsOn(rest, id) ensures p in PortsOn(bs, id) {
      var j :| 0 <= j < |rest| && rest[j].lb.id == id && rest[j].lbPort == p;
      assert bs[j] == rest[j];
    }
    if DistinctOn(bs, id) {
      forall i, j | 0 <= i < j < n && rest[i].lb.id == id && rest[j].lb.id == id
        ensures rest[i].lbPort != rest[j].lbPort
      {
        assert bs[i] == rest[i] && bs[j] == rest[j];
      }
    } else if DistinctOn(rest, id) {
      var i, j :| 0 <= i < j < |bs| && bs[i].lb.id == id && bs[j].lb.id == id && bs[i].lbPort == bs[j].lbPort;
      assert bs[i] == rest[i];
    }
  }

  /** Pigeonhole: a load balancer never has more ports than bindings, and as many exactly when
      no port on it is bound twice. */
  lemma {:induction false} Pigeonhole(bs: seq<PortBinding>, id: string)
    ensures |PortsOn(bs, id)| <= CountOn(bs, id)
    ensures |PortsOn(bs, id)| == CountOn(bs, id) <==> DistinctOn(bs, id)
  {
    if bs == [] {
      assert PortsOn(bs, id) == {};
    } else {
      var n := |bs| - 1;
      var rest, last := bs[..n], bs[n];
      Pigeonhole(rest, id);
      LastBinding(bs, id);
    }
  }

  // ---------- A list of allocations ----------

  /** Every binding of every listed allocation, in list order. */
  function Bindings(items: seq<Allocation>): seq<PortBinding> {
    if items == [] then [] else Bindings(items[..|items| - 1]) + items[|items| - 1].bindings
  }

  function Usage(items: seq<Allocation>, id: string): nat { CountOn(Bindings(items), id) }

  function UsedPorts(items: seq<Allocation>, id: string): set<int> { PortsOn(Bindings(items), id) }

  lemma BindingsConcat(a: seq<Allocation>, b: seq<Allocation>)
    ensures Bindings(a + b) == Bindings(a) + Bindings(b)
  {
    if b == [] {
      assert a + b == a;
    } else {
      var c := b[..|b| - 1];
      assert (a + b)[..|a + b| - 1] == a + c;
      BindingsConcat(a, c);
    }
  }

  lemma BindingsMember(items: seq<Allocation>, b: PortBinding)
    ensures b in Bindings(items) <==> exists a :: a in items && b in a.bindings
  {
    if items != [] {
      var rest, last := items[..|items| - 1], items[|items| - 1];
      BindingsMember(rest, b);
      assert items == rest + [last];
    }
  }

  /** Usage and used ports do not depend on the order in which the API server lists objects. */
  lemma {:induction false} ListOrderIrrelevant(xs: seq<Allocation>, ys: seq<Allocation>, id: string)
    requires multiset(xs) == multiset(ys)
    ensures Usage(xs, id) == Usage(ys, id)
    ensures UsedPorts(xs, id) == UsedPorts(ys, id)
  {
    UsageOrder(xs, ys, id);
    UsedOrder(xs, ys, id);
    UsedOrder(ys, xs, id);
  }

  lemma UsedOrder(xs: seq<Allocation>, ys: seq<Allocation>, id: string)
    requires multiset(xs) == multiset(ys)
    ensures UsedPorts(xs, id) <= UsedPorts(ys, id)
  {
    forall p | p in UsedPorts(xs, id) ensures p in UsedPorts(ys, id) {
      var j :| 0 <= j < |Bindings(xs)| && Bindings(xs)[j].lb.id == id && Bindings(xs)[j].lbPort == p;
      var b := Bindings(xs)[j];
      BindingsMember(xs, b);
      var a :| a in xs && b in a.bindings;
      assert a in multiset(ys);
      BindingsMember(ys, b);
    }
  }

  lemma {:induction false} UsageOrder(xs: seq<Allocation>, ys: seq<Allocation>, id: string)
    requires multiset(xs) == multiset(ys)
    ensures Usage(xs, id) == Usage(ys, id)
    decreases |xs|
  {
    if xs == [] {
      assert multiset(ys) == multiset{};
    } else {
      var n := |xs| - 1;
      var last := xs[n];
      assert last in multiset(ys);
      var i :| 0 <= i < |ys| && ys[i] == last;
      RemoveAt(xs, n);
      RemoveAt(ys, i);
      UsageOrder(xs[..n] + xs[n + 1..], ys[..i] + ys[i + 1..], id);
      UsageSplit(xs, n, id);
      UsageSplit(ys, i, id);
    }
  }

  lemma RemoveAt<T>(s: seq<T>, i: nat)
    requires i < |s|
    ensures multiset(s[..i] + s[i + 1..]) == multiset(s) - multiset{s[i]}
  {
    assert s == s[..i] + [s[i]] + s[i + 1..];
  }

  lemma UsageSplit(items: seq<Allocation>, i: nat, id: string)
    requires i < |items|
    ensures Usage(items, id) == Usage(items[..i] + items[i + 1..], id) + CountOn(items[i].bindings, id)
  {
    var pre, a, post := items[..i], items[i], items[i + 1..];
    assert items == (pre + [a]) + post;
    assert (pre + [a])[..|pre|] == pre;
    BindingsConcat(pre + [a], post);
    BindingsConcat(pre, post);
    CountConcat(Bindings(pre + [a]), Bindings(post), id);
    CountConcat(Bindings(pre), a.bindings, id);
    CountConcat(Bindings(pre), Bindings(post), id);
  }

  // ---------- The object store as a ledger ----------

  ghost predicate KeysAgree(objects: Objects) {
    forall k :: k in objects ==> objects[k].ObjectKey() == k
  }

  /** Allocations labelled with `pool`. */
  ghost function Members(objects: Objects, pool: string): set<Allocation> {
    set k | k in objects && objects[k].poolLabel == pool :: objects[k]
  }

  /** `items` is an answer to the label query for `pool`: each member once, in any order. */
  ghost predicate IsListing(items: seq<Allocation>, objects: Objects, pool: string) {
    multiset(items) == multiset(Members(objects, pool))
  }

  lemma ListingMember(items: seq<Allocation>, objects: Objects, pool: string, a: Allocation)
    requires IsListing(items, objects, pool)
    ensures a in items <==> a in Members(objects, pool)
  {
    assert a in items <==> a in multiset(items);
  }

  lemma ListSet(s: set<Allocation>) returns (items: seq<Allocation>)
    ensures multiset(items) == multiset(s)
  {
    if s == {} {
      items := [];
    } else {
      var a :| a in s;
      var rest := ListSet(s - {a});
      items := rest + [a];
      assert s == (s - {a}) + {a};
    }
  }

  lemma ListingExists(objects: Objects, pool: string)
    ensures exists items :: IsListing(items, objects, pool)
  {
    var items := ListSet(Members(objects, pool));
    assert IsListing(items, objects, pool);
  }

  /** Some listing of the pool; by `ListOrderIrrelevant` it does not matter which. */
  ghost function Listing(objects: Objects, pool: string): (items: seq<Allocation>)
    ensures IsListing(items, objects, pool)
  {
    ListingExists(objects, pool);
    var items :| IsListing(items, objects, pool);
    items
  }

  /** No two bindings stored under one pool label share load balancer and port. */
  ghost predicate UniquePorts(objects: Objects) {
    forall k1, k2, i, j ::
      k1 in objects && k2 in objects && objects[k1].poolLabel == objects[k2].poolLabel
      && 0 <= i < |objects[k1].bindings| && 0 <= j < |objects[k2].bindings| && (k1 != k2 || i != j)
      ==> !SameSlot(objects[k1].bindings[i], objects[k2].bindings[j])
  }

  predicate SameSlot(a: PortBinding, b: PortBinding) { a.lb.id == b.lb.id && a.lbPort == b.lbPort }

  /** The same requirement on one list of allocations. */
  ghost predicate UniqueItems(items: seq<Allocation>) {
    forall m, n, i, j ::
      0 <= m < |items| && 0 <= n < |items| && 0 <= i < |items[m].bindings| && 0 <= j < |items[n].bindings|
      && (m != n || i != j)
      ==> !SameSlot(items[m].bindings[i], items[n].bindings[j])
  }

  lemma ListingUnique(items: seq<Allocation>, objects: Objects, pool: string)
    requires KeysAgree(objects) && UniquePorts(objects) && IsListing(items, objects, pool)
    ensures UniqueItems(items)
  {
    forall m, n, i, j |
      0 <= m < |items| && 0 <= n < |items| && 0 <= i < |items[m].bindings| && 0 <= j < |items[n].bindings|
      && (m != n || i != j)
      ensures !SameSlot(items[m].bindings[i], items[n].bindings[j])
    {
      var a, b := items[m], items[n];
      ListingMember(items, objects, pool, a);
      ListingMember(items, objects, pool, b);
      if m != n { ListingNoRepeat(items, Members(objects, pool), m, n); }
      assert a.ObjectKey() != b.ObjectKey() || i != j;
    }
  }

  lemma ListingNoRepeat(items: seq<Allocation>, s: set<Allocation>, m: nat, n: nat)
    requires multiset(items) == multiset(s) && m < |items| && n < |items| && m != n
    ensures items[m] != items[n]
  {
    var others := items[..m] + items[m + 1..];
    RemoveAt(items, m);
    assert items[n] == others[if n < m then n else n - 1];
    assert items[n] in multiset(others);
  }

  lemma UniqueItemsDistinct(items: seq<Allocation>, id: string)
    requires UniqueItems(items)
    ensures DistinctOn(Bindings(items), id)
  {
    if items != [] {
      var n := |items| - 1;
      var rest, last := items[..n], items[n];
      UniqueItemsDistinct(rest, id);
      var bs, pre := Bindings(items), Bindings(rest);
      forall i, j | 0 <= i < j < |bs| && bs[i].lb.id == id && bs[j].lb.id == id
        ensures bs[i].lbPort != bs[j].lbPort
      {
        if i < |pre| <= j {
          BindingsMember(rest, bs[i]);
          var a :| a in rest && bs[i] in a.bindings;
          var m :| 0 <= m < |rest| && rest[m] == a;
          var x :| 0 <= x < |a.bindings| && a.bindings[x] == bs[i];
          assert !SameSlot(items[m].bindings[x], items[n].bindings[j - |pre|]);
        } else if |pre| <= i {
          assert !SameSlot(items[n].bindings[i - |pre|], items[n].bindings[j - |pre|]);
        }
      }
    }
  }
}
