/** The pod reconciler's methods, proved against the functions of `PodLifecycle`. */
module PodController {
  import opened Types
  import opened Operations
  import ApiServer
  import Allocator
  import opened PodLifecycle
  import opened ScanSafety

  class PodReconciler {
    const client: ApiServer.Client
    const allocator: Allocator.PoolAllocator
    ghost const ns: Namespaces
    /** The API server's pods. */
    var pods: Pods

    constructor (client: ApiServer.Client, allocator: Allocator.PoolAllocator, ghost ns: Namespaces, pods: Pods)
      ensures this.client == client && this.allocator == allocator && this.ns == ns && this.pods == pods
    {
      this.client := client;
      this.allocator := allocator;
      this.ns := ns;
      this.pods := pods;
    }

    /** The reconciler and its allocator share a client whose store is well named, and no lock is held. */
    ghost predicate Ready()
      reads this, client, allocator
    {
      && allocator.client == client
      && !allocator.indexLocked && allocator.poolLocks == {}
      && PoolsAgree(client.pools, ns) && ScanSafe(client.objects, client.pools)
      && WellNamed(client.objects, ns)
      && PodsKeyed(pods)
      && forall k :: k in pods ==> |PortsOf(pods[k])| <= MAX_INT32
    }

    ghost function Now(): World
      reads this, client, allocator
    {
      World(client.objects, allocator.roundRobinIndex, pods)
    }

    method ParseNetworkPools(pod: Pod) returns (r: Result<seq<string>>)
      ensures r == PoolsOf(pod)
      ensures r.Ok? ==> pod.pools.Names? && Lists(r.value, pod.pools.raw)
      ensures r.Err? <==> !pod.pools.Names? || forall n :: n in pod.pools.raw ==> AllSpace(n)
    {
      if !pod.pools.Names? { return Err(InvalidAnnotation); }
      var rawPools := pod.pools.raw;
      CleanNamesAre(rawPools);
      var poolsSet: set<string> := {};
      var validPools: seq<string> := [];
      for i := 0 to |rawPools|
        invariant validPools == CleanNames(rawPools[..i])
        invariant forall n :: n in poolsSet <==> n in validPools
      {
        var name := Trim(rawPools[i]);
        assert rawPools[..i + 1][..i] == rawPools[..i];
        if name != "" && name !in poolsSet {
          poolsSet := poolsSet + {name};
          validPools := validPools + [name];
        }
      }
      assert rawPools[..|rawPools|] == rawPools;
      if |validPools| == 0 { return Err(InvalidAnnotation); }
      r := Ok(validPools);
    }

    /** Finds the pod's allocation on the first page of the two-label query. */
    method FindExistingAllocation(pool: string, podName: string, podNamespace: string)
      returns (r: Result<Option<Allocation>>)
      requires WellNamed(client.objects, ns)
      ensures r.Ok? ==> (r.value.Some? <==> Holds(client.objects, pool, podName, podNamespace))
      ensures r.Err? ==> r.error == ApiFault && !client.reliable
    {
      var page := client.ListByLabels(pool, podName, 100);
      if page.Err? { return Err(page.error); }
      var items := page.value;
      LabelQueryAgrees(client.objects, ns, pool, podName, podNamespace);
      for i := 0 to |items|
        invariant forall j :: 0 <= j < i ==> !items[j].ServesPod(podName, podNamespace)
      {
        if items[i].ServesPod(podName, podNamespace) {
          assert items[i].ObjectKey() in LabelMatches(client.objects, pool, podName);
          return Ok(Some(items[i]));
        }
      }
      return Ok(None);
    }

    /** The API server's answer to a patch of a pod's finalizers. */
    method PatchFinalizers(k: Key, finalizers: set<string>) returns (failure: Option<Error>)
      modifies this`pods
      ensures failure == None ==> Patched(old(pods), k, finalizers) == Ok(pods)
      ensures failure == None ==>
                k in old(pods) && pods == old(pods)[k := old(pods)[k].(finalizers := finalizers)]
      ensures client.reliable ==>
                (failure == None <==>
                  k in old(pods) && (old(pods)[k].deleting ==> finalizers <= old(pods)[k].finalizers))
      ensures failure.Some? ==> pods == old(pods)
      ensures failure.Some? ==>
                || Patched(old(pods), k, finalizers) == Err(failure.value)
                || (failure.value == ApiFault && !client.reliable)
    {
      var down := *;
      if !client.reliable && down { return Some(ApiFault); }
      if k !in pods { return Some(NotFound); }
      if pods[k].deleting && !(finalizers <= pods[k].finalizers) { return Some(Refused); }
      pods := pods[k := pods[k].(finalizers := finalizers)];
      return None;
    }

    /** `pod` is the pod as read; what is patched is the pod of that name as it is now. */
    method EnsureFinalizer(pod: Pod) returns (failure: Option<Error>)
      modifies this`pods
      ensures failure == None ==> SetFinalizer(old(pods), pod) == Ok(pods)
      ensures failure.Some? ==> pods == old(pods)
      ensures failure.Some? ==>
                (SetFinalizer(old(pods), pod) == Err(failure.value) || (failure.value == ApiFault && !client.reliable))
    {
      if FINALIZER in pod.finalizers { return None; }
      failure := PatchFinalizers(PodKey(pod), pod.finalizers + {FINALIZER});
    }

    method RemoveFinalizer(pod: Pod) returns (failure: Option<Error>)
      modifies this`pods
      ensures failure == None ==> ClearFinalizer(old(pods), pod) == Ok(pods)
      ensures failure.Some? ==> pods == old(pods)
      ensures failure.Some? ==>
                || ClearFinalizer(old(pods), pod) == Err(failure.value)
                || (failure.value == ApiFault && !client.reliable)
    {
      if FINALIZER !in pod.finalizers { return None; }
      failure := PatchFinalizers(PodKey(pod), pod.finalizers - {FINALIZER});
    }

    /** One turn of the allocation loop. Whatever fails, only allocations of this pod in this pool appear. */
    method AllocateIn(name: string, pod: Pod, ports: seq<ContainerPort>, ghost succeeded: nat, ghost failed: nat)
      returns (ok: bool)
      requires Ready() && |ports| <= MAX_INT32
      modifies client`objects, allocator`roundRobinIndex, allocator`indexLocked, allocator`poolLocks
      ensures Ready()
      ensures Grows(old(client.objects), client.objects, [name], pod)
      ensures ok ==> Holds(client.objects, name, pod.name, pod.namespace)
      ensures client.reliable ==>
                AllocateNext(allocator.strategy, client.pools,
                             Progress(old(client.objects), old(allocator.roundRobinIndex), succeeded, failed),
                             name, pod, ports)
                == Progress(client.objects, allocator.roundRobinIndex, succeeded + (if ok then 1 else 0),
                            failed + (if ok then 0 else 1))
    {
      hide Plan, Prepare, Attempt;
      var existing := FindExistingAllocation(name, pod.name, pod.namespace);
      if existing.Err? { return false; }
      if existing.value.Some? { return true; }
      var req := PodRequest(name, pod.name, pod.namespace);
      var allocation, attempts := allocator.AllocatePort(req, ports);
      ok := allocation.Ok?;
      if ok {
        ghost var cursors := Retried(allocator.strategy, old(client.objects), client.pools,
                                     old(allocator.roundRobinIndex), req, ports, attempts - 1);
        AttemptEffect(allocator.strategy, old(client.objects), client.pools, cursors, req, ports, ns);
        AttemptKeepsSafe(allocator.strategy, old(client.objects), client.pools, cursors, req, ports, ns);
        AttemptKeepsNames(allocator.strategy, old(client.objects), client.pools, cursors, req, ports, ns);
      }
    }

    /** Is the pod's allocation present in every pool? Stops at the first that lacks one. */
    method AllExist(names: seq<string>, pod: Pod) returns (r: Result<bool>)
      requires WellNamed(client.objects, ns)
      ensures r.Ok? ==> (r.value <==> forall p :: p in names ==> Holds(client.objects, p, pod.name, pod.namespace))
      ensures r.Err? ==> r.error == ApiFault && !client.reliable
    {
      for i := 0 to |names|
        invariant forall j :: 0 <= j < i ==> Holds(client.objects, names[j], pod.name, pod.namespace)
      {
        var existing := FindExistingAllocation(names[i], pod.name, pod.namespace);
        if existing.Err? { return Err(existing.error); }
        if existing.value.None? { return Ok(false); }
      }
      return Ok(true);
    }

    /** Allocates in every pool in turn, counting successes and failures. */
    method AllocateEverywhere(names: seq<string>, pod: Pod, ports: seq<ContainerPort>)
      returns (succeeded: nat, failed: nat)
      requires Ready() && |ports| <= MAX_INT32
      modifies client`objects, allocator`roundRobinIndex, allocator`indexLocked, allocator`poolLocks
      ensures Ready()
      ensures Grows(old(client.objects), client.objects, names, pod)
      ensures succeeded + failed == |names|
      ensures succeeded > 0 ==> exists p :: p in names && Holds(client.objects, p, pod.name, pod.namespace)
      ensures client.reliable ==>
                AllocateAll(allocator.strategy, client.pools, old(client.objects), old(allocator.roundRobinIndex),
                            names, pod, ports)
                == Progress(client.objects, allocator.roundRobinIndex, succeeded, failed)
    {
      succeeded, failed := 0, 0;
      for i := 0 to |names|
        invariant Ready()
        invariant Grows(old(client.objects), client.objects, names, pod)
        invariant succeeded + failed == i
        invariant succeeded > 0 ==> exists p :: p in names && Holds(client.objects, p, pod.name, pod.namespace)
        invariant client.reliable ==>
          AllocateAll(allocator.strategy, client.pools, old(client.objects), old(allocator.roundRobinIndex), names[..i],
                      pod, ports)
          == Progress(client.objects, allocator.roundRobinIndex, succeeded, failed)
      {
        ghost var before := client.objects;
        assert names[..i + 1][..i] == names[..i];
        var ok := AllocateIn(names[i], pod, ports, succeeded, failed);
        GrowsOn(old(client.objects), before, client.objects, names, names[i], pod);
        if succeeded > 0 {
          ghost var p :| p in names && Holds(before, p, pod.name, pod.namespace);
          HoldsGrows(before, client.objects, [names[i]], pod, p);
        }
        if ok { succeeded := succeeded + 1; } else { failed := failed + 1; }
      }
      assert names[..|names|] == names;
    }

    /** The part of `HandlePodAllocation` after parsing: the check whether everything exists already, the
        allocation loop, and the finalizer. */
    method AllocateAndGuard(pod: Pod, names: seq<string>, ports: seq<ContainerPort>) returns (error: Option<Error>)
      requires Ready() && names != [] && |ports| <= MAX_INT32
      modifies this`pods, client`objects, allocator`roundRobinIndex, allocator`indexLocked, allocator`poolLocks
      ensures Ready()
      ensures Grows(old(client.objects), client.objects, names, pod)
      ensures error.Some? ==> pods == old(pods)
      ensures error == None ==>
                && SetFinalizer(old(pods), pod) == Ok(pods)
                && exists p :: p in names && Holds(client.objects, p, pod.name, pod.namespace)
      ensures client.reliable ==>
                var done := AllocateAll(allocator.strategy, client.pools, old(client.objects),
                                        old(allocator.roundRobinIndex), names, pod, ports);
                && client.objects == done.objects && allocator.roundRobinIndex == done.cursors
                && (if done.succeeded == 0 then error == Some(AllFailed)
                    else SetFinalizer(old(pods), pod) == if error == None then Ok(pods) else Err(error.value))
    {
      var allAllocationsExist := AllExist(names, pod);
      if allAllocationsExist.Err? { return Some(allAllocationsExist.error); }
      if allAllocationsExist.value {
        AllocateAllIdle(allocator.strategy, client.pools, client.objects, allocator.roundRobinIndex, names, pod, ports);
        assert names[0] in names;
        error := EnsureFinalizer(pod);
        return;
      }

      var succeeded, failed := AllocateEverywhere(names, pod, ports);
      if succeeded > 0 {
        var failure := EnsureFinalizer(pod);
        if failure.Some? { return failure; }
      }
      if failed > 0 && succeeded == 0 { return Some(AllFailed); }
      return None;
    }

    /** Whatever fails on the way: success means the finalizer is set and some pool serves the pod, and the
        store gains nothing but allocations of this pod in its own pools. */
    method HandlePodAllocation(pod: Pod) returns (error: Option<Error>)
      requires Ready() && |PortsOf(pod)| <= MAX_INT32
      modifies this`pods, client`objects, allocator`roundRobinIndex, allocator`indexLocked, allocator`poolLocks
      ensures Ready()
      ensures Grows(old(client.objects), client.objects, Annotated(pod), pod)
      ensures error.Some? ==> pods == old(pods)
      ensures error == None ==>
                && SetFinalizer(old(pods), pod) == Ok(pods)
                && exists p :: p in Annotated(pod) && Holds(client.objects, p, pod.name, pod.namespace)
      ensures client.reliable ==>
                ReconcileAllocation(allocator.strategy, client.pools, old(Now()), pod) == Reconciled(Now(), error)
    {
      var pools := ParseNetworkPools(pod);
      if pools.Err? { return Some(pools.error); }
      if pod.ports.Err? { return Some(pod.ports.error); }
      error := AllocateAndGuard(pod, pools.value, pod.ports.value);
    }

    /** Releases in every pool, then drops the finalizer whether or not releases failed. Whatever fails, no other
        allocation is touched, and what stays active is what met a fault. */
    method HandlePodDeletion(pod: Pod) returns (error: Option<Error>, ghost faulted: set<string>)
      requires Ready()
      modifies this`pods, client`objects, allocator`poolLocks
      ensures Ready()
      ensures OnlyOwn(old(client.objects), client.objects, Annotated(pod), pod)
      ensures FINALIZER !in pod.finalizers ==> error == None && client.objects == old(client.objects)
      ensures if error == None then ClearFinalizer(old(pods), pod) == Ok(pods) else pods == old(pods)
      ensures FINALIZER in pod.finalizers ==>
                RemainsOnFault(old(client.objects), client.objects, Annotated(pod), pod, faulted, ns)
      ensures client.reliable ==> faulted == {} && ReconcileDeletion(old(Now()), pod) == Reconciled(Now(), error)
    {
      faulted := {};
      if FINALIZER !in pod.finalizers { return None, {}; }
      var pools := ParseNetworkPools(pod);
      if pools.Err? {
        error := RemoveFinalizer(pod);
        return;
      }
      CleanNamesAre(pod.pools.raw);
      faulted := ReleaseEverywhere(pools.value, pod);
      error := RemoveFinalizer(pod);
    }

    /** The release loop; failures are logged and passed over. Returns the pools whose release met a fault. */
    method ReleaseEverywhere(names: seq<string>, pod: Pod) returns (faulted: set<string>)
      requires Ready() && forall i, j :: 0 <= i < j < |names| ==> names[i] != names[j]
      modifies client`objects, allocator`poolLocks
      ensures Ready()
      ensures OnlyOwn(old(client.objects), client.objects, names, pod)
      ensures RemainsOnFault(old(client.objects), client.objects, names, pod, faulted, ns)
      ensures client.reliable ==> faulted == {} && client.objects == ReleaseAll(old(client.objects), names, pod)
    {
      faulted := {};
      for i := 0 to |names|
        invariant Ready()
        invariant ReleasedTo(old(client.objects), client.objects, names, i, pod, faulted, ns)
        invariant client.reliable ==>
                    faulted == {} && client.objects == ReleaseAll(old(client.objects), names[..i], pod)
      {
        ghost var before := client.objects;
        assert names[..i + 1][..i] == names[..i];
        var ok := ReleaseIn(names[i], pod);
        ReleasedNext(old(client.objects), before, client.objects, names, i, pod, faulted, ok, ns);
        if !ok {
          faulted := faulted + {names[i]};
        }
      }
      assert names[..|names|] == names;
    }

    /** One release; false if a fault got in its way. */
    method ReleaseIn(name: string, pod: Pod) returns (ok: bool)
      requires Ready()
      modifies client`objects, allocator`poolLocks
      ensures Ready()
      ensures client.objects ==
                if ok then Release(old(client.objects), PodRequest(name, pod.name, pod.namespace)).objects
                                else old(client.objects)
      ensures client.reliable ==> ok
    {
      var released := allocator.ReleasePort(PodRequest(name, pod.name, pod.namespace));
      ok := released != Err(ApiFault);
      ReleaseDeactivates(old(client.objects), name, pod, ns);
      ReleaseKeepsSafe(old(client.objects), client.pools, PodRequest(name, pod.name, pod.namespace));
    }

    /** One reconcile of one pod, which it reads first. */
    method ReconcilePod(k: Key) returns (error: Option<Error>)
      requires Ready()
      modifies this`pods, client`objects, allocator`roundRobinIndex, allocator`indexLocked, allocator`poolLocks
      ensures Ready()
      ensures OtherPodsKept(old(pods), pods, k)
      ensures k !in old(pods) || old(pods)[k].enable != Some("true") || old(pods)[k].pools == Absent ==>
                Now() == old(Now()) && (client.reliable ==> error == None)
      ensures k in old(pods) && !old(pods)[k].deleting ==>
                Grows(old(client.objects), client.objects, Annotated(old(pods)[k]), old(pods)[k])
      ensures k in old(pods) && old(pods)[k].deleting ==>
                OnlyOwn(old(client.objects), client.objects, Annotated(old(pods)[k]), old(pods)[k])
      ensures error == None && k in old(pods) && old(pods)[k].enable == Some("true") && old(pods)[k].pools != Absent ==>
                if old(pods)[k].deleting then !Finalized(pods, k)
                else && Finalized(pods, k)
                     && exists p :: p in Annotated(pods[k]) && Holds(client.objects, p, k.name, k.namespace)
      ensures client.reliable ==> Reconcile(allocator.strategy, client.pools, old(Now()), k) == Reconciled(Now(), error)
      ensures client.reliable && k in old(pods) && old(pods)[k].enable == Some("true")
              && old(pods)[k].pools != Absent ==>
                Reconciled(Now(), error) == if old(pods)[k].deleting then ReconcileDeletion(old(Now()), old(pods)[k])
                else ReconcileAllocation(allocator.strategy, client.pools, old(Now()), old(pods)[k])
    {
      var down := *;
      if !client.reliable && down { return Some(ApiFault); }
      if k !in pods { return None; }
      var pod := pods[k];
      if !ShouldManage(pod) { return None; }
      if pod.deleting {
        ghost var faulted;
        error, faulted := HandlePodDeletion(pod);
      } else {
        error := HandlePodAllocation(pod);
      }
    }
  }

  /** In the cluster-scoped pools among `names`, exactly what was active and met a fault is active still. */
  ghost predicate RemainsOnFault(objects: Objects, objects': Objects, names: seq<string>, pod: Pod,
                                 faulted: set<string>, ns: Namespaces) {
    forall p :: p in names && ns(p) == "" ==>
      (HoldsActive(objects', p, pod.name, pod.namespace) <==>
        p in faulted && HoldsActive(objects, p, pod.name, pod.namespace))
  }

  /** The first `i` pools have been released, the others not yet. */
  ghost predicate ReleasedTo(objects: Objects, now: Objects, names: seq<string>, i: nat, pod: Pod, faulted: set<string>,
                             ns: Namespaces)
    requires i <= |names|
  {
    && OnlyOwn(objects, now, names[..i], pod)
    && RemainsOnFault(objects, now, names[..i], pod, faulted, ns)
    && (forall p :: p in faulted ==> p in names[..i])
    && (forall p :: p !in names[..i] ==>
          (HoldsActive(now, p, pod.name, pod.namespace) <==> HoldsActive(objects, p, pod.name, pod.namespace)))
  }

  lemma ReleasedNext(objects: Objects, before: Objects, now: Objects, names: seq<string>, i: nat, pod: Pod,
                     faulted: set<string>, ok: bool, ns: Namespaces)
    requires i < |names| && (forall a, b :: 0 <= a < b < |names| ==> names[a] != names[b]) && WellNamed(before, ns)
    requires ReleasedTo(objects, before, names, i, pod, faulted, ns)
    requires now == if ok then Release(before, PodRequest(names[i], pod.name, pod.namespace)).objects else before
    ensures ReleasedTo(objects, now, names, i + 1, pod, if ok then faulted else faulted + {names[i]}, ns)
  {
    hide HoldsActive, Release, WellNamed, OnlyOwn;
    var name := names[i];
    assert names[..i + 1] == names[..i] + [name] && name !in names[..i];
    if ok {
      NextReleaseOwn(objects, before, names[..i], name, pod);
      ReleaseDeactivates(before, name, pod, ns);
    } else {
      OwnWidens(objects, before, names[..i], name, pod);
    }
  }

  lemma OwnWidens(objects: Objects, objects': Objects, names: seq<string>, name: string, pod: Pod)
    requires OnlyOwn(objects, objects', names, pod)
    ensures OnlyOwn(objects, objects', names + [name], pod)
  {
    assert forall p :: p in names ==> p in names + [name];
  }

  lemma GrowsOn(a: Objects, b: Objects, c: Objects, names: seq<string>, name: string, pod: Pod)
    requires Grows(a, b, names, pod) && Grows(b, c, [name], pod) && name in names
    ensures Grows(a, c, names, pod)
  {
    forall k | k in c && k !in a
      ensures c[k].poolLabel in names && c[k].ServesPod(pod.name, pod.namespace) && !c[k].terminating
    {
      if k in b { assert c[k] == b[k]; }
    }
  }
}
