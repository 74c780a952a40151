/** The object store behind the client: allocations by key, pools by name. Any request may fail unless the
    server is reliable; writes may also report a conflict. */
module ApiServer {
  import opened Types
  import opened Ledger
  import opened Operations

  /** Errors that say something about the transport rather than about the request. */
  predicate IsFault(e: Error) { e == ApiFault || e == Conflict }

  class Client {
    var objects: Objects
    var pools: Pools
    const reliable: bool

    constructor (pools: Pools, reliable: bool)
      ensures objects == map[] && this.pools == pools && this.reliable == reliable
    {
      this.objects := map[];
      this.pools := pools;
      this.reliable := reliable;
    }

    method Get(k: Key) returns (r: Result<Allocation>)
      ensures r.Ok? ==> k in objects && r.value == objects[k]
      ensures r.Err? ==> (r.error == NotFound && k !in objects) || (r.error == ApiFault && !reliable)
    {
      var down := *;
      if !reliable && down { return Err(ApiFault); }
      r := if k in objects then Ok(objects[k]) else Err(NotFound);
    }

    method GetPool(name: string) returns (r: Result<Pool>)
      ensures r.Ok? ==> name in pools && r.value == pools[name]
      ensures r.Err? ==> (r.error == PoolNotFound && name !in pools) || (r.error == ApiFault && !reliable)
    {
      var down := *;
      if !reliable && down { return Err(ApiFault); }
      r := if name in pools then Ok(pools[name]) else Err(PoolNotFound);
    }

    /** The answer to a label query, in no particular order. */
    method List(pool: string) returns (r: Result<seq<Allocation>>)
      requires KeysAgree(objects)
      ensures r.Ok? ==> IsListing(r.value, objects, pool)
      ensures r.Err? ==> r.error == ApiFault && !reliable
    {
      var down := *;
      if !reliable && down { return Err(ApiFault); }
      var keys := objects.Keys;
      var items: seq<Allocation> := [];
      ghost var found: set<Allocation> := {};
      while keys != {}
        invariant keys <= objects.Keys
        invariant multiset(items) == multiset(found)
        invariant forall a :: a in found <==>
                    a.ObjectKey() in objects.Keys - keys && objects[a.ObjectKey()] == a && a.poolLabel == pool
        decreases keys
      {
        var k :| k in keys;
        keys := keys - {k};
        if objects[k].poolLabel == pool {
          assert objects[k] !in found;
          items := items + [objects[k]];
          found := found + {objects[k]};
        }
      }
      assert found == Members(objects, pool);
      r := Ok(items);
    }

    /** One page, of at most `limit` objects, of the answer to a query by pool and pod label. */
    method ListByLabels(pool: string, pod: string, limit: nat) returns (r: Result<seq<Allocation>>)
      requires KeysAgree(objects)
      ensures r.Ok? ==> forall a :: a in r.value ==>
                a.ObjectKey() in LabelMatches(objects, pool, pod) && objects[a.ObjectKey()] == a
      ensures r.Ok? && |LabelMatches(objects, pool, pod)| <= limit ==>
                forall k :: k in LabelMatches(objects, pool, pod) ==> objects[k] in r.value
      ensures r.Err? ==> r.error == ApiFault && !reliable
    {
      var down := *;
      if !reliable && down { return Err(ApiFault); }
      var keys := objects.Keys;
      var items: seq<Allocation> := [];
      ghost var found: set<Key> := {};
      ghost var matches := LabelMatches(objects, pool, pod);
      while keys != {} && |items| < limit
        invariant keys <= objects.Keys
        invariant found == matches - keys && |found| == |items|
        invariant forall a: Allocation :: a in items ==> a.ObjectKey() in matches && objects[a.ObjectKey()] == a
        invariant forall k :: k in found ==> objects[k] in items
        decreases keys
      {
        var k :| k in keys;
        keys := keys - {k};
        if objects[k].poolLabel == pool && objects[k].podLabel == pod {
          items := items + [objects[k]];
          assert matches - keys == found + {k};
          found := found + {k};
        }
      }
      if |matches| <= limit && keys != {} {
        FullSubset(found, matches);
      }
      r := Ok(items);
    }

    method Create(a: Allocation) returns (r: Result<()>)
      modifies this`objects
      ensures r.Ok? ==> a.ObjectKey() !in old(objects) && objects == old(objects)[a.ObjectKey() := a]
      ensures r.Err? ==> objects == old(objects)
      ensures r.Err? ==> (r.error == NameTaken && a.ObjectKey() in objects) || (IsFault(r.error) && !reliable)
    {
      var down, conflict := *, *;
      if !reliable && down { return Err(ApiFault); }
      if !reliable && conflict { return Err(Conflict); }
      if a.ObjectKey() in objects { return Err(NameTaken); }
      objects := objects[a.ObjectKey() := a];
      r := Ok(());
    }

    method Delete(k: Key) returns (r: Result<()>)
      modifies this`objects
      ensures r.Ok? ==> k in old(objects) && objects == Deleted(old(objects), k)
      ensures r.Err? ==> objects == old(objects)
      ensures r.Err? ==> (r.error == NotFound && k !in objects) || (r.error == ApiFault && !reliable)
    {
      var down := *;
      if !reliable && down { return Err(ApiFault); }
      if k !in objects { return Err(NotFound); }
      objects := Deleted(objects, k);
      r := Ok(());
    }
  }

  lemma FullSubset(a: set<Key>, b: set<Key>)
    requires a <= b && |a| >= |b|
    ensures a == b
  {
    assert b == a + (b - a);
    assert |b| == |a| + |b - a|;
  }
}
