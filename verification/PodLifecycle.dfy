/** Pod reconciliation as a function of the cluster: multi-pool allocation, release and the finalizer. A
    reconcile works on its pod as read, which may have changed since. */
module PodLifecycle {
  import opened Types
  import opened Operations
  import Ledger
  import RR = RoundRobin

  const FINALIZER := "apollo.magicsong.io/port-allocation"

  /** The network-pool annotation: absent, present but undecodable, or the names it lists. */
  datatype PoolsAnnotation = Absent | Malformed | Names(raw: seq<string>)

  datatype Pod = Pod(name: string, namespace: string, enable: Option<string>, pools: PoolsAnnotation,
                     ports: Result<seq<ContainerPort>>, deleting: bool, finalizers: set<string>)

  predicate ShouldManage(pod: Pod) { pod.enable == Some("true") && !pod.pools.Absent? }

  // ---------- The list of pools ----------

  /** Unicode white space. */
  predicate IsSpace(c: char) {
    c in "\t\n\U{b}\U{c}\r \U{85}\U{a0}\U{1680}\U{2028}\U{2029}\U{202f}\U{205f}\U{3000}"
    || '\U{2000}' <= c <= '\U{200a}'
  }

  function TrimLeft(s: string): string { if s != "" && IsSpace(s[0]) then TrimLeft(s[1..]) else s }

  function TrimRight(s: string): string {
    if s != "" && IsSpace(s[|s| - 1]) then TrimRight(s[..|s| - 1]) else s
  }

  function Trim(s: string): string { TrimRight(TrimLeft(s)) }

  /** Trimmed, non-empty names in order of first occurrence. */
  function CleanNames(raw: seq<string>): seq<string> {
    if raw == [] then []
    else
      var before, name := CleanNames(raw[..|raw| - 1]), Trim(raw[|raw| - 1]);
      if name == "" || name in before then before else before + [name]
  }

  /** White space told by code points: the ASCII controls and blanks, and the separators of Unicode. */
  lemma SpaceExactly(c: char)
    ensures IsSpace(c) <==>
            var u := c as int;
            || 0x09 <= u <= 0x0d || u == 0x20 || u == 0x85 || u == 0xa0 || u == 0x1680
            || 0x2000 <= u <= 0x200a || u in {0x2028, 0x2029, 0x202f, 0x205f, 0x3000}
  {
    assert '\U{2000}' as int == 0x2000 && '\U{200a}' as int == 0x200a;
  }

  /** `n` is what remains of `r` once the white space at both ends is gone. */
  ghost predicate IsTrimmed(r: string, n: string) {
    && (exists i, j :: 0 <= i <= j <= |r| && n == r[i..j] && AllSpace(r[..i]) && AllSpace(r[j..]))
    && (n != "" ==> !IsSpace(n[0]) && !IsSpace(n[|n| - 1]))
  }

  predicate AllSpace(s: string) { forall i :: 0 <= i < |s| ==> IsSpace(s[i]) }

  lemma {:induction false} TrimLeftIs(s: string) returns (i: nat)
    ensures i <= |s| && TrimLeft(s) == s[i..] && AllSpace(s[..i])
    ensures TrimLeft(s) != "" ==> !IsSpace(TrimLeft(s)[0])
    decreases |s|
  {
    hide IsSpace;
    if s != "" && IsSpace(s[0]) {
      i := TrimLeftIs(s[1..]);
      i := i + 1;
      assert s[..i] == [s[0]] + s[1..][..i - 1];
    } else {
      i := 0;
    }
  }

  lemma {:induction false} TrimRightIs(s: string) returns (j: nat)
    ensures j <= |s| && TrimRight(s) == s[..j] && AllSpace(s[j..])
    ensures TrimRight(s) != "" ==> !IsSpace(TrimRight(s)[|TrimRight(s)| - 1])
    decreases |s|
  {
    hide IsSpace;
    var n := |s| - 1;
    if s != "" && IsSpace(s[n]) {
      j := TrimRightIs(s[..n]);
      assert s[j..] == s[..n][j..] + [s[n]] && s[..n][..j] == s[..j];
    } else {
      j := |s|;
    }
  }

  lemma TrimIs(s: string)
    ensures IsTrimmed(s, Trim(s))
  {
    hide IsSpace;
    var i := TrimLeftIs(s);
    var j := TrimRightIs(s[i..]);
    assert s[i..][..j] == s[i..i + j] && s[i..][j..] == s[i + j..];
  }

  /** Trimming takes away the white space at both ends, and nothing else. */
  lemma TrimExactly(s: string, n: string)
    ensures Trim(s) == n <==> IsTrimmed(s, n)
  {
    hide IsSpace, Trim;
    TrimIs(s);
    if IsTrimmed(s, n) {
      var i, j := Cut(s, n);
      var k, l := Cut(s, Trim(s));
      hide IsTrimmed;
      assert s[i..j] == s[k..l];
    }
  }

  lemma Cut(s: string, n: string) returns (i: nat, j: nat)
    requires IsTrimmed(s, n)
    ensures i <= j <= |s| && n == s[i..j] && (i < j ==> !IsSpace(s[i]) && !IsSpace(s[j - 1]))
    ensures forall x :: 0 <= x < i || j <= x < |s| ==> IsSpace(s[x])
  {
    hide IsSpace;
    i, j :| 0 <= i <= j <= |s| && n == s[i..j] && AllSpace(s[..i]) && AllSpace(s[j..]);
    SpaceOutside(s, i, j);
    if i < j { assert n[0] == s[i] && n[|n| - 1] == s[j - 1]; }
  }

  lemma SpaceOutside(s: string, i: nat, j: nat)
    requires i <= j <= |s| && AllSpace(s[..i]) && AllSpace(s[j..])
    ensures forall x :: 0 <= x < i || j <= x < |s| ==> IsSpace(s[x])
  {
    hide IsSpace;
    assert forall x :: 0 <= x < i ==> s[..i][x] == s[x];
    assert forall x :: j <= x < |s| ==> s[j..][x - j] == s[x];
  }

  /** Of the names the annotation lists, `a` is met before `b`. */
  ghost predicate MetBefore(raw: seq<string>, a: string, b: string) {
    exists k :: 0 <= k < |raw| && IsTrimmed(raw[k], a) && forall l :: 0 <= l <= k ==> !IsTrimmed(raw[l], b)
  }

  /** `names` are the trimmed, non-empty names among `raw`, each once, in the order they are met. */
  ghost predicate Lists(names: seq<string>, raw: seq<string>) {
    && (forall n :: n in names <==> n != "" && exists r :: r in raw && IsTrimmed(r, n))
    && (forall i, j :: 0 <= i < j < |names| ==> names[i] != names[j] && MetBefore(raw, names[i], names[j]))
  }

  lemma {:induction false} CleanNamesAre(raw: seq<string>)
    ensures Lists(CleanNames(raw), raw)
    ensures CleanNames(raw) == [] <==> forall r :: r in raw ==> AllSpace(r)
  {
    hide IsTrimmed, Trim;
    if raw != [] {
      var rest, last := raw[..|raw| - 1], raw[|raw| - 1];
      CleanNamesAre(rest);
      assert raw == rest + [last];
      TrimExactly(last, Trim(last));
      forall n | IsTrimmed(last, n) ensures n == Trim(last) { TrimExactly(last, n); }
      forall n ensures n in CleanNames(raw) <==> n != "" && exists r :: r in raw && IsTrimmed(r, n) {
        if n in CleanNames(raw) && n !in CleanNames(rest) {
          assert n == Trim(last) && last in raw;
        } else if n in CleanNames(rest) {
          var r :| r in rest && IsTrimmed(r, n);
          assert r in raw;
        }
      }
      var names := CleanNames(raw);
      forall i, j | 0 <= i < j < |names| ensures names[i] != names[j] && MetBefore(raw, names[i], names[j]) {
        if j == |CleanNames(rest)| {
          assert names[i] == CleanNames(rest)[i] && names[i] in CleanNames(rest);
          MetFirst(rest, names[i], names[j]);
        }
        MetEarlier(rest, last, names[i], names[j]);
      }
      BlankTrimmed(last);
    }
  }

  lemma BlankTrimmed(s: string)
    ensures Trim(s) == "" <==> AllSpace(s)
  {
    hide IsSpace, Trim;
    TrimExactly(s, "");
    if AllSpace(s) {
      assert s[0..0] == "" && s[..0] == "" && s[0..] == s;
    } else if Trim(s) == "" {
      var i, j := Cut(s, "");
    }
  }

  lemma MetFirst(rest: seq<string>, a: string, b: string)
    requires exists r :: r in rest && IsTrimmed(r, a)
    requires !exists r :: r in rest && IsTrimmed(r, b)
    ensures MetBefore(rest, a, b)
  {
    hide IsTrimmed;
    var r :| r in rest && IsTrimmed(r, a);
    var k :| 0 <= k < |rest| && rest[k] == r;
  }

  lemma MetEarlier(rest: seq<string>, last: string, a: string, b: string)
    requires MetBefore(rest, a, b)
    ensures MetBefore(rest + [last], a, b)
  {
    hide IsTrimmed;
    var raw := rest + [last];
    var k :| 0 <= k < |rest| && IsTrimmed(rest[k], a) && forall l :: 0 <= l <= k ==> !IsTrimmed(rest[l], b);
    assert raw[k] == rest[k] && forall l :: 0 <= l <= k ==> raw[l] == rest[l];
  }

  function PoolsOf(pod: Pod): Result<seq<string>> {
    if !pod.pools.Names? || CleanNames(pod.pools.raw) == [] then Err(InvalidAnnotation)
    else Ok(CleanNames(pod.pools.raw))
  }

  /** The pools a pod is annotated with, as far as they can be read. */
  function Annotated(pod: Pod): seq<string> {
    match PoolsOf(pod)
    case Ok(names) => names
    case Err(_) => []
  }

  // ---------- Multi-pool allocation and release ----------

  /** The reconciler passes the empty namespace: pools are cluster-scoped. */
  function PodRequest(pool: string, podName: string, podNamespace: string): Request {
    Request(pool, "", podName, podNamespace)
  }

  datatype Progress = Progress(objects: Objects, cursors: Cursors, succeeded: nat, failed: nat)

  /** Allocating in each named pool in turn where the pod holds nothing yet. */
  ghost function AllocateAll(strategy: Strategy, pools: Pools, objects: Objects, cursors: Cursors,
                             names: seq<string>, pod: Pod, ports: seq<ContainerPort>): Progress
  {
    if names == [] then Progress(objects, cursors, 0, 0)
    else
      var n := |names| - 1;
      AllocateNext(strategy, pools, AllocateAll(strategy, pools, objects, cursors, names[..n], pod, ports), names[n],
                   pod, ports)
  }

  ghost function AllocateNext(strategy: Strategy, pools: Pools, before: Progress, name: string, pod: Pod,
                              ports: seq<ContainerPort>): Progress {
    if Holds(before.objects, name, pod.name, pod.namespace) then before.(succeeded := before.succeeded + 1)
    else
      var o := Attempt(strategy, before.objects, pools, before.cursors, PodRequest(name, pod.name, pod.namespace),
                       ports);
      if o.result.Ok? then Progress(o.objects, o.cursors, before.succeeded + 1, before.failed)
      else Progress(o.objects, o.cursors, before.succeeded, before.failed + 1)
  }

  function ReleaseAll(objects: Objects, names: seq<string>, pod: Pod): Objects {
    if names == [] then objects
    else
      var n := |names| - 1;
      Release(ReleaseAll(objects, names[..n], pod), PodRequest(names[n], pod.name, pod.namespace)).objects
  }

  // ---------- Reconciling ----------

  type Pods = map<Key, Pod>

  datatype World = World(objects: Objects, cursors: Cursors, pods: Pods)

  function PodKey(pod: Pod): Key { Key(pod.namespace, pod.name) }

  ghost predicate PodsKeyed(pods: Pods) { forall k :: k in pods ==> PodKey(pods[k]) == k }

  predicate Finalized(pods: Pods, k: Key) { k in pods && FINALIZER in pods[k].finalizers }

  /** A merge patch replaces the whole list of finalizers. It is refused for a pod that is gone, or if it would
      give new finalizers to one that is being deleted. */
  function Patched(pods: Pods, k: Key, finalizers: set<string>): Result<Pods> {
    if k !in pods then Err(NotFound)
    else if pods[k].deleting && !(finalizers <= pods[k].finalizers) then Err(Refused)
    else Ok(pods[k := pods[k].(finalizers := finalizers)])
  }

  /** Setting our finalizer on a pod that was read as `pod`. */
  function SetFinalizer(pods: Pods, pod: Pod): Result<Pods> {
    if FINALIZER in pod.finalizers then Ok(pods) else Patched(pods, PodKey(pod), pod.finalizers + {FINALIZER})
  }

  /** Dropping it. */
  function ClearFinalizer(pods: Pods, pod: Pod): Result<Pods> {
    if FINALIZER !in pod.finalizers then Ok(pods) else Patched(pods, PodKey(pod), pod.finalizers - {FINALIZER})
  }

  /** A patch is made from the pod as read: where one is sent and accepted, the pod's finalizers become those that
      were read, with ours or without it. What other controllers have set since is lost, and what they have
      cleared is back, or gets the patch refused if the pod is being deleted. */
  lemma PatchesFromRead(pods: Pods, pod: Pod)
    ensures var k, ours, set', cleared := PodKey(pod), FINALIZER in pod.finalizers, SetFinalizer(pods, pod),
                                          ClearFinalizer(pods, pod);
            && (if ours then set' == Ok(pods) else cleared == Ok(pods))
            && (!ours ==>
                  && (set'.Ok? <==>
                        k in pods && (pods[k].deleting ==>
                                        FINALIZER in pods[k].finalizers && pod.finalizers <= pods[k].finalizers))
                  && (set'.Ok? ==> OnlyFinalizers(pods, set'.value, k)
                                   && forall f :: f in set'.value[k].finalizers <==>
                                     f in pod.finalizers || f == FINALIZER))
            && (ours ==>
                  && (cleared.Ok? <==>
                        k in pods && (pods[k].deleting ==>
                                        forall f :: f in pod.finalizers && f != FINALIZER ==> f in pods[k].finalizers))
                  && (cleared.Ok? ==> OnlyFinalizers(pods, cleared.value, k)
                                      && forall f :: f in cleared.value[k].finalizers <==>
                                           f in pod.finalizers && f != FINALIZER))
  {
  }

  /** Nothing but the finalizers of pod `k` differs. */
  ghost predicate OnlyFinalizers(pods: Pods, pods': Pods, k: Key) {
    && OtherPodsKept(pods, pods', k) && k in pods && k in pods'
    && pods'[k] == pods[k].(finalizers := pods'[k].finalizers)
  }

  datatype Reconciled = Reconciled(world: World, error: Option<Error>)

  function WithPods(w: World, pods: Result<Pods>): Reconciled {
    match pods
    case Ok(pods') => Reconciled(w.(pods := pods'), None)
    case Err(e) => Reconciled(w, Some(e))
  }

  function PortsOf(pod: Pod): seq<ContainerPort> { if pod.ports.Ok? then pod.ports.value else [] }

  ghost function ReconcileAllocation(strategy: Strategy, pools: Pools, w: World, pod: Pod): Reconciled {
    if PoolsOf(pod).Err? then Reconciled(w, Some(PoolsOf(pod).error))
    else if pod.ports.Err? then Reconciled(w, Some(pod.ports.error))
    else
      var done := AllocateAll(strategy, pools, w.objects, w.cursors, Annotated(pod), pod, PortsOf(pod));
      var w' := World(done.objects, done.cursors, w.pods);
      if done.succeeded == 0 then Reconciled(w', Some(AllFailed)) else WithPods(w', SetFinalizer(w.pods, pod))
  }

  function ReconcileDeletion(w: World, pod: Pod): Reconciled {
    if FINALIZER !in pod.finalizers then Reconciled(w, None)
    else WithPods(w.(objects := ReleaseAll(w.objects, Annotated(pod), pod)), ClearFinalizer(w.pods, pod))
  }

  ghost function Reconcile(strategy: Strategy, pools: Pools, w: World, k: Key): Reconciled {
    if k !in w.pods || !ShouldManage(w.pods[k]) then Reconciled(w, None)
    else if w.pods[k].deleting then ReconcileDeletion(w, w.pods[k])
    else ReconcileAllocation(strategy, pools, w, w.pods[k])
  }

  // ---------- Multi-pool allocation: completeness and idempotence ----------

  /** Steps of one pod's allocation only add active allocations of that pod, in the named pools. */
  ghost predicate Grows(objects: Objects, objects': Objects, names: seq<string>, pod: Pod) {
    && (forall k :: k in objects ==> k in objects' && objects'[k] == objects[k])
    && (forall k :: k in objects' && k !in objects ==>
          objects'[k].poolLabel in names && objects'[k].ServesPod(pod.name, pod.namespace) && !objects'[k].terminating)
  }

  lemma HoldsGrows(objects: Objects, objects': Objects, names: seq<string>, pod: Pod, pool: string)
    requires Grows(objects, objects', names, pod) && Holds(objects, pool, pod.name, pod.namespace)
    ensures Holds(objects', pool, pod.name, pod.namespace)
  {
    var k :| k in objects && objects[k].poolLabel == pool && objects[k].ServesPod(pod.name, pod.namespace);
    assert k in objects';
  }

  lemma AttemptKeepsNames(strategy: Strategy, objects: Objects, pools: Pools, cursors: Cursors,
                          req: Request, ports: seq<ContainerPort>, ns: Namespaces)
    requires PoolsAgree(pools, ns) && WellNamed(objects, ns)
    ensures WellNamed(Attempt(strategy, objects, pools, cursors, req, ports).objects, ns)
  {
    if Attempt(strategy, objects, pools, cursors, req, ports).result.Ok? {
      var a, s := AttemptCreates(strategy, objects, pools, cursors, req, ports, ns);
      CreateKeeps(objects, a, s, ns);
    } else {
      AttemptEffect(strategy, objects, pools, cursors, req, ports, ns);
    }
  }

  lemma NextGrows(strategy: Strategy, pools: Pools, before: Progress, name: string, pod: Pod, ports: seq<ContainerPort>,
                  ns: Namespaces)
    requires PoolsAgree(pools, ns) && WellNamed(before.objects, ns)
    ensures var after := AllocateNext(strategy, pools, before, name, pod, ports);
            && Grows(before.objects, after.objects, [name], pod)
            && WellNamed(after.objects, ns)
            && after.succeeded + after.failed == before.succeeded + before.failed + 1
            && after.failed >= before.failed && after.succeeded >= before.succeeded
            && (after.failed == before.failed <==> Holds(after.objects, name, pod.name, pod.namespace))
  {
    if !Holds(before.objects, name, pod.name, pod.namespace) {
      var req := PodRequest(name, pod.name, pod.namespace);
      AttemptEffect(strategy, before.objects, pools, before.cursors, req, ports, ns);
      AttemptKeepsNames(strategy, before.objects, pools, before.cursors, req, ports, ns);
    }
  }

  lemma HoldsShrinks(objects: Objects, objects': Objects, name: string, pod: Pod, p: string)
    requires Grows(objects, objects', [name], pod) && Holds(objects', p, pod.name, pod.namespace)
    ensures Holds(objects, p, pod.name, pod.namespace) || p == name
  {
    var k :| k in objects' && objects'[k].poolLabel == p && objects'[k].ServesPod(pod.name, pod.namespace);
    if k in objects { assert objects[k] == objects'[k]; }
  }

  /** Each named pool was counted once; some pool counts as a success exactly when the pod holds an allocation
      in one, and without failures it holds one in every pool; nothing else in the store has changed. */
  ghost predicate Delivered(objects: Objects, done: Progress, names: seq<string>, pod: Pod) {
    && Grows(objects, done.objects, names, pod)
    && done.succeeded + done.failed == |names|
    && (done.succeeded > 0 <==> exists p :: p in names && Holds(done.objects, p, pod.name, pod.namespace))
    && (done.failed == 0 ==> forall p :: p in names ==> Holds(done.objects, p, pod.name, pod.namespace))
  }

  lemma DeliveredNext(objects: Objects, before: Progress, after: Progress, rest: seq<string>, name: string, pod: Pod)
    requires Delivered(objects, before, rest, pod) && Grows(before.objects, after.objects, [name], pod)
    requires after.succeeded + after.failed == before.succeeded + before.failed + 1
    requires after.failed >= before.failed && after.succeeded >= before.succeeded
    requires after.failed == before.failed <==> Holds(after.objects, name, pod.name, pod.namespace)
    ensures Delivered(objects, after, rest + [name], pod)
  {
    forall p | p in rest
      ensures Holds(after.objects, p, pod.name, pod.namespace) <==>
              Holds(before.objects, p, pod.name, pod.namespace) || (p == name && after.failed == before.failed)
    {
      if Holds(before.objects, p, pod.name, pod.namespace) {
        HoldsGrows(before.objects, after.objects, [name], pod, p);
      } else if Holds(after.objects, p, pod.name, pod.namespace) {
        HoldsShrinks(before.objects, after.objects, name, pod, p);
      }
    }
    GrowsTwice(objects, before.objects, after.objects, rest, name, pod);
    assert name in rest + [name] && forall p :: p in rest + [name] <==> p in rest || p == name;
  }

  lemma GrowsTwice(a: Objects, b: Objects, c: Objects, rest: seq<string>, name: string, pod: Pod)
    requires Grows(a, b, rest, pod) && Grows(b, c, [name], pod)
    ensures Grows(a, c, rest + [name], pod)
  {
    forall k | k in c && k !in a
      ensures c[k].poolLabel in rest + [name] && c[k].ServesPod(pod.name, pod.namespace) && !c[k].terminating
    {
      if k in b { assert c[k] == b[k]; }
    }
  }

  lemma NextDelivers(strategy: Strategy, pools: Pools, objects: Objects, before: Progress, rest: seq<string>,
                     name: string,
                     pod: Pod, ports: seq<ContainerPort>, ns: Namespaces)
    requires PoolsAgree(pools, ns) && WellNamed(before.objects, ns) && Delivered(objects, before, rest, pod)
    ensures var after := AllocateNext(strategy, pools, before, name, pod, ports);
            WellNamed(after.objects, ns) && Delivered(objects, after, rest + [name], pod)
  {
    NextGrows(strategy, pools, before, name, pod, ports, ns);
    DeliveredNext(objects, before, AllocateNext(strategy, pools, before, name, pod, ports), rest, name, pod);
  }

  /** Allocating in every pool delivers, from any well-named store. */
  lemma {:induction false} AllocateAllDelivers(strategy: Strategy, pools: Pools, objects: Objects, cursors: Cursors,
                                               names: seq<string>, pod: Pod, ports: seq<ContainerPort>, ns: Namespaces)
    requires PoolsAgree(pools, ns) && WellNamed(objects, ns)
    ensures var done := AllocateAll(strategy, pools, objects, cursors, names, pod, ports);
            Delivered(objects, done, names, pod) && WellNamed(done.objects, ns)
    decreases |names|
  {
    if names != [] {
      var n := |names| - 1;
      AllocateAllDelivers(strategy, pools, objects, cursors, names[..n], pod, ports, ns);
      assert names == names[..n] + [names[n]];
      NextDelivers(strategy, pools, objects, AllocateAll(strategy, pools, objects, cursors, names[..n], pod, ports),
                   names[..n], names[n], pod, ports, ns);
    }
  }

  /** Where the pod already holds everything, allocating again changes nothing. */
  lemma {:induction false} AllocateAllIdle(strategy: Strategy, pools: Pools, objects: Objects, cursors: Cursors,
                                           names: seq<string>, pod: Pod, ports: seq<ContainerPort>)
    requires forall p :: p in names ==> Holds(objects, p, pod.name, pod.namespace)
    ensures AllocateAll(strategy, pools, objects, cursors, names, pod, ports) == Progress(objects, cursors, |names|, 0)
    decreases |names|
  {
    if names != [] {
      AllocateAllIdle(strategy, pools, objects, cursors, names[..|names| - 1], pod, ports);
    }
  }

  /** A reconcile that returns no error has set the finalizer and left the pod holding an allocation in at
      least one annotated pool; if no pool failed, in every one. */
  lemma AllocationComplete(strategy: Strategy, pools: Pools, w: World, pod: Pod, ns: Namespaces)
    requires PoolsAgree(pools, ns) && WellNamed(w.objects, ns)
    requires ReconcileAllocation(strategy, pools, w, pod).error == None
    ensures var w' := ReconcileAllocation(strategy, pools, w, pod).world;
            && SetFinalizer(w.pods, pod) == Ok(w'.pods)
            && (exists p :: p in Annotated(pod) && Holds(w'.objects, p, pod.name, pod.namespace))
            && (AllocateAll(strategy, pools, w.objects, w.cursors, Annotated(pod), pod, PortsOf(pod)).failed == 0
                ==> forall p :: p in Annotated(pod) ==> Holds(w'.objects, p, pod.name, pod.namespace))
  {
    hide AllocateNext;
    AllocateAllDelivers(strategy, pools, w.objects, w.cursors, Annotated(pod), pod, PortsOf(pod), ns);
  }

  /** What a reconcile of a living pod reports: unreadable annotations first, and then it has changed nothing; a
      failure where no annotated pool ends up with an allocation of the pod; and otherwise, however many pools
      failed, what became of the finalizer patch. */
  lemma ErrorsExactly(strategy: Strategy, pools: Pools, w: World, pod: Pod, ns: Namespaces)
    requires PoolsAgree(pools, ns) && WellNamed(w.objects, ns)
    ensures var r := ReconcileAllocation(strategy, pools, w, pod);
            var blank := !pod.pools.Names? || forall n :: n in pod.pools.raw ==> AllSpace(n);
            && (blank ==> r == Reconciled(w, Some(InvalidAnnotation)))
            && (!blank && pod.ports.Err? ==> r == Reconciled(w, Some(pod.ports.error)))
            && (!blank && pod.ports.Ok? ==>
                  if exists p :: p in Annotated(pod) && Holds(r.world.objects, p, pod.name, pod.namespace)
                  then match SetFinalizer(w.pods, pod)
                       case Ok(pods') => r.error == None && r.world.pods == pods'
                       case Err(e) => r.error == Some(e) && r.world.pods == w.pods
                  else r.error == Some(AllFailed) && r.world.pods == w.pods)
  {
    hide AllocateNext, Holds, SetFinalizer, CleanNames, Lists;
    if pod.pools.Names? { CleanNamesAre(pod.pools.raw); }
    AllocateAllDelivers(strategy, pools, w.objects, w.cursors, Annotated(pod), pod, PortsOf(pod), ns);
  }

  /** Where the pod holds everything and carries the finalizer, a reconcile changes nothing. */
  lemma AllocationIdle(strategy: Strategy, pools: Pools, w: World, pod: Pod)
    requires PoolsOf(pod).Ok? && pod.ports.Ok? && FINALIZER in pod.finalizers
    requires forall p :: p in Annotated(pod) ==> Holds(w.objects, p, pod.name, pod.namespace)
    ensures ReconcileAllocation(strategy, pools, w, pod) == Reconciled(w, None)
  {
    AllocateAllIdle(strategy, pools, w.objects, w.cursors, Annotated(pod), pod, PortsOf(pod));
  }

  /** Reconciling a living pod again, after a reconcile in which no pool failed, changes nothing. */
  lemma ReconcileTwice(strategy: Strategy, pools: Pools, w: World, k: Key, ns: Namespaces)
    requires k in w.pods && PodKey(w.pods[k]) == k && !w.pods[k].deleting && ShouldManage(w.pods[k])
    requires PoolsAgree(pools, ns) && WellNamed(w.objects, ns)
    requires Reconcile(strategy, pools, w, k).error == None
    requires var pod := w.pods[k];
             AllocateAll(strategy, pools, w.objects, w.cursors, Annotated(pod), pod, PortsOf(pod)).failed == 0
    ensures var w' := Reconcile(strategy, pools, w, k).world; Reconcile(strategy, pools, w', k) == Reconciled(w', None)
  {
    hide AllocateAll, CleanNames;
    var pod, w' := w.pods[k], Reconcile(strategy, pools, w, k).world;
    AllocationComplete(strategy, pools, w, pod, ns);
    AllocationIdle(strategy, pools, w', w'.pods[k]);
  }

  // ---------- Held is not served ----------

  ghost predicate HoldsActive(objects: Objects, pool: string, podName: string, podNamespace: string) {
    exists k :: && k in objects && objects[k].poolLabel == pool && objects[k].ServesPod(podName, podNamespace)
                && !objects[k].terminating
  }

  ghost predicate HoldsTerminating(objects: Objects, pool: string, podName: string, podNamespace: string) {
    exists k :: && k in objects && objects[k].poolLabel == pool && objects[k].ServesPod(podName, podNamespace)
                && objects[k].terminating
  }

  /** After allocating everywhere, an allocation the pod holds in a named pool is active exactly when it held
      no terminating one there before: a terminating allocation passes for a success and is kept. */
  lemma ActiveExactly(strategy: Strategy, pools: Pools, objects: Objects, cursors: Cursors,
                      names: seq<string>, pod: Pod, ports: seq<ContainerPort>, ns: Namespaces, p: string)
    requires PoolsAgree(pools, ns) && WellNamed(objects, ns) && p in names
    ensures var done := AllocateAll(strategy, pools, objects, cursors, names, pod, ports);
            && (HoldsActive(done.objects, p, pod.name, pod.namespace) <==>
                  && Holds(done.objects, p, pod.name, pod.namespace)
                  && !HoldsTerminating(objects, p, pod.name, pod.namespace))
            && (done.failed == 0 ==>
                  (HoldsActive(done.objects, p, pod.name, pod.namespace) <==>
                    !HoldsTerminating(objects, p, pod.name, pod.namespace)))
  {
    AllocateAllDelivers(strategy, pools, objects, cursors, names, pod, ports, ns);
    ActiveAfter(objects, AllocateAll(strategy, pools, objects, cursors, names, pod, ports).objects, names, pod, ns, p);
  }

  lemma ActiveAfter(objects: Objects, objects': Objects, names: seq<string>, pod: Pod, ns: Namespaces, p: string)
    requires Grows(objects, objects', names, pod) && WellNamed(objects', ns)
    ensures HoldsActive(objects', p, pod.name, pod.namespace)
            <==> Holds(objects', p, pod.name, pod.namespace) && !HoldsTerminating(objects, p, pod.name, pod.namespace)
  {
    if HoldsTerminating(objects, p, pod.name, pod.namespace) {
      var k :| && k in objects && objects[k].poolLabel == p && objects[k].ServesPod(pod.name, pod.namespace)
               && objects[k].terminating;
      forall x | x in objects' && objects'[x].poolLabel == p && objects'[x].ServesPod(pod.name, pod.namespace)
        ensures x == k
      {
        OnePerPodName(objects', ns, x, k);
      }
    } else if Holds(objects', p, pod.name, pod.namespace) {
      var k :| k in objects' && objects'[k].poolLabel == p && objects'[k].ServesPod(pod.name, pod.namespace);
      assert k in objects ==> !objects[k].terminating;
    }
  }

  // ---------- Pool by pool ----------

  /** The pods of a pool, its derived name for the pod and its cursor are as they were. */
  ghost predicate SameForPool(objects: Objects, cursors: Cursors, objects': Objects, cursors': Cursors,
                              p: string, pod: Pod, ns: Namespaces)
  {
    var key := Key(ns(p), AllocationName(p, pod.name));
    && Ledger.Members(objects', p) == Ledger.Members(objects, p)
    && RR.CursorOf(cursors', PoolKey(ns(p), p)) == RR.CursorOf(cursors, PoolKey(ns(p), p))
    && (key in objects' <==> key in objects)
  }

  ghost predicate NamespacesPlain(ns: Namespaces) { forall q :: '/' !in ns(q) }

  lemma NextElsewhere(strategy: Strategy, pools: Pools, before: Progress, name: string, pod: Pod,
                      ports: seq<ContainerPort>,
                      ns: Namespaces, p: string)
    requires PoolsAgree(pools, ns) && WellNamed(before.objects, ns) && NamespacesPlain(ns) && p != name
    ensures var after := AllocateNext(strategy, pools, before, name, pod, ports);
            SameForPool(before.objects, before.cursors, after.objects, after.cursors, p, pod, ns)
  {
    hide Attempt, WellNamed;
    if !Holds(before.objects, name, pod.name, pod.namespace) {
      var req := PodRequest(name, pod.name, pod.namespace);
      var o := Attempt(strategy, before.objects, pools, before.cursors, req, ports);
      AttemptEffect(strategy, before.objects, pools, before.cursors, req, ports, ns);
      PoolKeyInjective(ns(name), name, ns(p), p);
      AttemptMovesOwnCursor(strategy, before.objects, pools, before.cursors, req, ports, ns, PoolKey(ns(p), p));
      if o.result.Ok? { AddedElsewhere(before.objects, o.result.value, p, pod.name, ns(p)); }
    }
  }

  lemma AddedElsewhere(objects: Objects, a: Allocation, p: string, podName: string, namespace: string)
    requires a.ObjectKey() !in objects && a.poolLabel != p && a.name == AllocationName(a.poolLabel, podName)
    ensures Ledger.Members(objects[a.ObjectKey() := a], p) == Ledger.Members(objects, p)
    ensures a.ObjectKey() != Key(namespace, AllocationName(p, podName))
  {
    SamePodName(a.poolLabel, p, podName);
    var objects' := objects[a.ObjectKey() := a];
    forall x | x in Ledger.Members(objects, p) ensures x in Ledger.Members(objects', p) {
      var k :| k in objects && objects[k].poolLabel == p && objects[k] == x;
      assert objects'[k] == x;
    }
  }

  lemma {:induction false} AllElsewhere(strategy: Strategy, pools: Pools, objects: Objects, cursors: Cursors,
                                        names: seq<string>,
                                        pod: Pod, ports: seq<ContainerPort>, ns: Namespaces, p: string)
    requires PoolsAgree(pools, ns) && WellNamed(objects, ns) && NamespacesPlain(ns) && p !in names
    ensures var done := AllocateAll(strategy, pools, objects, cursors, names, pod, ports);
            SameForPool(objects, cursors, done.objects, done.cursors, p, pod, ns)
    decreases |names|
  {
    hide AllocateNext, WellNamed, NamespacesPlain, PoolsAgree;
    if names != [] {
      var n := |names| - 1;
      AllElsewhere(strategy, pools, objects, cursors, names[..n], pod, ports, ns, p);
      AllocateAllDelivers(strategy, pools, objects, cursors, names[..n], pod, ports, ns);
      NextElsewhere(strategy, pools, AllocateAll(strategy, pools, objects, cursors, names[..n], pod, ports), names[n],
                    pod, ports, ns, p);
    }
  }

  /** An attempt in a pool ends the same way wherever the pool looks the same. */
  lemma AttemptSame(strategy: Strategy, pools: Pools, objects: Objects, cursors: Cursors, objects': Objects,
                    cursors': Cursors,
                    p: string, pod: Pod, ports: seq<ContainerPort>, ns: Namespaces)
    requires PoolsAgree(pools, ns) && SameForPool(objects, cursors, objects', cursors', p, pod, ns)
    ensures Holds(objects', p, pod.name, pod.namespace) <==> Holds(objects, p, pod.name, pod.namespace)
    ensures var req := PodRequest(p, pod.name, pod.namespace);
            Attempt(strategy, objects', pools, cursors', req, ports).result
            == Attempt(strategy, objects, pools, cursors, req, ports).result
  {
    hide Plan, Holds, CursorsAfter;
    HoldsIsMembership(objects, p, pod.name, pod.namespace);
    HoldsIsMembership(objects', p, pod.name, pod.namespace);
    if p in pools && !Holds(objects, p, pod.name, pod.namespace) {
      PrepareSame(strategy, pools, objects, cursors, objects', cursors', p, pod, ports, ns);
      hide Prepare;
    }
  }

  lemma PrepareSame(strategy: Strategy, pools: Pools, objects: Objects, cursors: Cursors, objects': Objects,
                    cursors': Cursors,
                    p: string, pod: Pod, ports: seq<ContainerPort>, ns: Namespaces)
    requires PoolsAgree(pools, ns) && SameForPool(objects, cursors, objects', cursors', p, pod, ns) && p in pools
    requires !Holds(objects, p, pod.name, pod.namespace) && !Holds(objects', p, pod.name, pod.namespace)
    ensures var req := PodRequest(p, pod.name, pod.namespace);
            var result := Prepare(strategy, objects, pools, cursors, req, ports).result;
            && Prepare(strategy, objects', pools, cursors', req, ports).result == result
            && (result.Ok? ==> result.value.ObjectKey() == Key(ns(p), AllocationName(p, pod.name)))
  {
    hide Plan, Holds, CursorsAfter;
    var req, items := PodRequest(p, pod.name, pod.namespace), Ledger.Listing(objects, p);
    PrepareFrom(strategy, objects, pools, cursors, req, ports, items);
    PrepareFrom(strategy, objects', pools, cursors', req, ports, items);
    var s := Snapshot(pools[p], items);
    var index := RR.CursorOf(cursors, CursorKey(pools[p]));
    if Plan(strategy, index, s, req, ports).Ok? { PlanShape(strategy, index, s, req, ports); }
  }

  lemma HoldsIsMembership(objects: Objects, pool: string, podName: string, podNamespace: string)
    ensures Holds(objects, pool, podName, podNamespace)
            <==> exists a :: a in Ledger.Members(objects, pool) && a.ServesPod(podName, podNamespace)
  {
    if Holds(objects, pool, podName, podNamespace) {
      var k :| k in objects && objects[k].poolLabel == pool && objects[k].ServesPod(podName, podNamespace);
      assert objects[k] in Ledger.Members(objects, pool);
    }
  }

  predicate Distinct(names: seq<string>) { forall i, j :: 0 <= i < j < |names| ==> names[i] != names[j] }

  /** After allocating in several pools, the pod holds an allocation in one of them exactly when it held one
      before or an attempt made there at once, on the store as it was, would have succeeded. */
  lemma {:induction false} HoldsByPool(strategy: Strategy, pools: Pools, objects: Objects, cursors: Cursors,
                                       names: seq<string>,
                                       pod: Pod, ports: seq<ContainerPort>, ns: Namespaces, p: string)
    requires PoolsAgree(pools, ns) && WellNamed(objects, ns) && NamespacesPlain(ns) && Distinct(names) && p in names
    ensures var done := AllocateAll(strategy, pools, objects, cursors, names, pod, ports);
            Holds(done.objects, p, pod.name, pod.namespace) <==>
            || Holds(objects, p, pod.name, pod.namespace)
            || Attempt(strategy, objects, pools, cursors, PodRequest(p, pod.name, pod.namespace), ports).result.Ok?
    decreases |names|
  {
    hide Attempt, WellNamed, NamespacesPlain, AllocateNext, Holds, PoolsAgree, Distinct, SameForPool;
    var last := names[|names| - 1];
    var rest := names[..|names| - 1];
    var before := AllocateAll(strategy, pools, objects, cursors, rest, pod, ports);
    DistinctRest(names, p);
    AllocateAllDelivers(strategy, pools, objects, cursors, rest, pod, ports, ns);
    if p == last {
      AllElsewhere(strategy, pools, objects, cursors, rest, pod, ports, ns, p);
      AttemptSame(strategy, pools, objects, cursors, before.objects, before.cursors, p, pod, ports, ns);
      NextHolds(strategy, pools, before, p, pod, ports, ns);
    } else {
      HoldsByPool(strategy, pools, objects, cursors, rest, pod, ports, ns, p);
      HeldElsewhere(strategy, pools, before, last, pod, ports, ns, p);
    }
  }

  lemma DistinctRest(names: seq<string>, p: string)
    requires Distinct(names) && p in names
    ensures Distinct(names[..|names| - 1]) && names[|names| - 1] !in names[..|names| - 1]
    ensures p == names[|names| - 1] || p in names[..|names| - 1]
  {
    assert names == names[..|names| - 1] + [names[|names| - 1]];
  }

  lemma HeldElsewhere(strategy: Strategy, pools: Pools, before: Progress, name: string, pod: Pod,
                      ports: seq<ContainerPort>,
                      ns: Namespaces, p: string)
    requires PoolsAgree(pools, ns) && WellNamed(before.objects, ns) && NamespacesPlain(ns) && p != name
    ensures Holds(AllocateNext(strategy, pools, before, name, pod, ports).objects, p, pod.name, pod.namespace)
            <==> Holds(before.objects, p, pod.name, pod.namespace)
  {
    hide AllocateNext;
    NextElsewhere(strategy, pools, before, name, pod, ports, ns, p);
    HoldsIsMembership(before.objects, p, pod.name, pod.namespace);
    HoldsIsMembership(AllocateNext(strategy, pools, before, name, pod, ports).objects, p, pod.name, pod.namespace);
  }

  lemma NextHolds(strategy: Strategy, pools: Pools, before: Progress, name: string, pod: Pod, ports: seq<ContainerPort>,
                  ns: Namespaces)
    requires PoolsAgree(pools, ns)
    ensures Holds(AllocateNext(strategy, pools, before, name, pod, ports).objects, name, pod.name, pod.namespace) <==>
            || Holds(before.objects, name, pod.name, pod.namespace)
            || Attempt(strategy, before.objects, pools, before.cursors,
                       PodRequest(name, pod.name, pod.namespace), ports).result.Ok?
  {
    AttemptEffect(strategy, before.objects, pools, before.cursors, PodRequest(name, pod.name, pod.namespace), ports,
                  ns);
    hide Attempt;
  }

  /** In which pools a reconcile that returns no error leaves its pod an active allocation, told from the cluster
      before it: exactly in those annotated pools where nothing of the pod is being deleted and where it holds an
      active allocation already or an attempt would succeed. */
  lemma NilReturnServesExactly(strategy: Strategy, pools: Pools, w: World, pod: Pod, ns: Namespaces, p: string)
    requires PoolsAgree(pools, ns) && WellNamed(w.objects, ns) && NamespacesPlain(ns) && p in Annotated(pod)
    requires ReconcileAllocation(strategy, pools, w, pod).error == None
    ensures HoldsActive(ReconcileAllocation(strategy, pools, w, pod).world.objects, p, pod.name, pod.namespace) <==>
            && !HoldsTerminating(w.objects, p, pod.name, pod.namespace)
            && (|| HoldsActive(w.objects, p, pod.name, pod.namespace)
                || Attempt(strategy, w.objects, pools, w.cursors,
                           PodRequest(p, pod.name, pod.namespace), PortsOf(pod)).result.Ok?)
  {
    hide AllocateNext, AllocateAll, Attempt, CleanNames;
    CleanNamesAre(pod.pools.raw);
    ActiveExactly(strategy, pools, w.objects, w.cursors, Annotated(pod), pod, PortsOf(pod), ns, p);
    HoldsByPool(strategy, pools, w.objects, w.cursors, Annotated(pod), pod, PortsOf(pod), ns, p);
    HeldEitherWay(w.objects, p, pod);
  }

  lemma HeldEitherWay(objects: Objects, p: string, pod: Pod)
    ensures Holds(objects, p, pod.name, pod.namespace) <==>
            HoldsActive(objects, p, pod.name, pod.namespace) || HoldsTerminating(objects, p, pod.name, pod.namespace)
  {
  }

  lemma OneName()
    ensures CleanNames(["p"]) == ["p"]
  {
    assert TrimLeft("p") == "p" && TrimRight("p") == "p";
    assert ["p"][..0] == [] && CleanNames([]) == [];
  }

  /** A pod whose only allocation is being deleted: the reconcile returns no error and sets the finalizer, and
      no active allocation serves the pod. */
  lemma NilReturnUnserved(strategy: Strategy, pools: Pools) returns (w: World, pod: Pod)
    ensures WellNamed(w.objects, _ => "") && PodKey(pod) in w.pods && w.pods[PodKey(pod)] == pod && !pod.deleting
            && ShouldManage(pod)
    ensures ReconcileAllocation(strategy, pools, w, pod).error == None
    ensures var pods := ReconcileAllocation(strategy, pools, w, pod).world.pods;
            PodKey(pod) in pods && pods[PodKey(pod)].finalizers == {"apollo.magicsong.io/port-allocation"}
    ensures forall p ::
              !HoldsActive(ReconcileAllocation(strategy, pools, w, pod).world.objects, p, pod.name, pod.namespace)
  {
    pod := Pod("x", "n", Some("true"), Names(["p"]), Ok([]), false, {});
    var a := Allocation("", AllocationName("p", "x"), "p", "x", "x", "n", [], true, true);
    w := World(map[a.ObjectKey() := a], map[], map[PodKey(pod) := pod]);
    OneName();
    assert Annotated(pod) == ["p"];
    assert w.objects[a.ObjectKey()] == a;
    hide Trim, CleanNames, Attempt, AllocateNext;
    AllocateAllIdle(strategy, pools, w.objects, w.cursors, ["p"], pod, []);
  }

  // ---------- Multi-pool release ----------

  /** At most this pod's allocations in the named pools are gone or marked. */
  ghost predicate OnlyOwn(objects: Objects, objects': Objects, names: seq<string>, pod: Pod) {
    && Shrinks(objects, objects')
    && forall k :: k in objects && !(objects[k].ServesPod(pod.name, pod.namespace) && objects[k].poolLabel in names)
         ==> k in objects' && objects'[k] == objects[k]
  }

  /** Releases of one pod touch only that pod's allocations in the named pools. */
  lemma {:induction false} ReleaseAllKeepsOthers(objects: Objects, names: seq<string>, pod: Pod)
    ensures OnlyOwn(objects, ReleaseAll(objects, names, pod), names, pod)
    decreases |names|
  {
    if names != [] {
      var n := |names| - 1;
      ReleaseAllKeepsOthers(objects, names[..n], pod);
      NextReleaseOwn(objects, ReleaseAll(objects, names[..n], pod), names[..n], names[n], pod);
      assert names == names[..n] + [names[n]];
    }
  }

  lemma NextReleaseOwn(objects: Objects, before: Objects, rest: seq<string>, name: string, pod: Pod)
    requires OnlyOwn(objects, before, rest, pod)
    ensures OnlyOwn(objects, Release(before, PodRequest(name, pod.name, pod.namespace)).objects, rest + [name], pod)
  {
    var req := PodRequest(name, pod.name, pod.namespace);
    ReleaseIsolated(before, req);
    ReleaseShrinks(before, req);
    hide Release;
    assert forall p :: p in rest + [name] <==> p in rest || p == name;
  }

  /** A release settles its own pool and leaves what the pod holds elsewhere alone. */
  lemma ReleaseDeactivates(objects: Objects, name: string, pod: Pod, ns: Namespaces)
    requires WellNamed(objects, ns)
    ensures var objects' := Release(objects, PodRequest(name, pod.name, pod.namespace)).objects;
            && WellNamed(objects', ns)
            && (ns(name) == "" ==> !HoldsActive(objects', name, pod.name, pod.namespace))
            && (forall p :: p != name ==>
                  (HoldsActive(objects', p, pod.name, pod.namespace) <==>
                    HoldsActive(objects, p, pod.name, pod.namespace)))
  {
    var req := PodRequest(name, pod.name, pod.namespace);
    var objects' := Release(objects, req).objects;
    ReleaseIsolated(objects, req);
    ReleaseShrinks(objects, req);
    ShrinkKeeps(objects, objects', ns);
    if ns(name) == "" { ReleaseFinds(objects, req, ns); }
    forall p | p != name
      ensures HoldsActive(objects', p, pod.name, pod.namespace) <==> HoldsActive(objects, p, pod.name, pod.namespace)
    {
      if HoldsActive(objects, p, pod.name, pod.namespace) {
        var k :| && k in objects && objects[k].poolLabel == p && objects[k].ServesPod(pod.name, pod.namespace)
                 && !objects[k].terminating;
        assert k in objects' && objects'[k] == objects[k];
      }
    }
  }

  /** No active allocation of the pod in any of the named pools. */
  ghost predicate Cleared(objects: Objects, names: seq<string>, pod: Pod) {
    forall k :: k in objects && objects[k].poolLabel in names && objects[k].ServesPod(pod.name, pod.namespace)
      ==> objects[k].terminating
  }

  lemma ReleaseClears(objects: Objects, rest: seq<string>, name: string, pod: Pod, ns: Namespaces)
    requires WellNamed(objects, ns) && ns(name) == "" && Cleared(objects, rest, pod)
    ensures Cleared(Release(objects, PodRequest(name, pod.name, pod.namespace)).objects, rest + [name], pod)
  {
    var req := PodRequest(name, pod.name, pod.namespace);
    ReleaseFinds(objects, req, ns);
    ReleaseShrinks(objects, req);
    ReleaseIsolated(objects, req);
  }

  /** After releasing in all named pools, no active allocation of the pod remains in any of them, given
      derived names and cluster-scoped pools. */
  lemma {:induction false} ReleaseAllClears(objects: Objects, names: seq<string>, pod: Pod, ns: Namespaces)
    requires WellNamed(objects, ns) && forall p :: p in names ==> ns(p) == ""
    ensures WellNamed(ReleaseAll(objects, names, pod), ns) && Cleared(ReleaseAll(objects, names, pod), names, pod)
    decreases |names|
  {
    if names != [] {
      var n := |names| - 1;
      ReleaseAllClears(objects, names[..n], pod, ns);
      ReleaseClears(ReleaseAll(objects, names[..n], pod), names[..n], names[n], pod, ns);
      assert names == names[..n] + [names[n]];
      ReleaseAllKeepsOthers(objects, names, pod);
      ShrinkKeeps(objects, ReleaseAll(objects, names, pod), ns);
    }
  }

  ghost predicate OtherPodsKept(pods: Pods, pods': Pods, k: Key) {
    forall other :: other != k ==>
      (other in pods' <==> other in pods) && (other in pods ==> pods'[other] == pods[other])
  }

  lemma AllocationAdds(strategy: Strategy, pools: Pools, w: World, pod: Pod, ns: Namespaces)
    requires PoolsAgree(pools, ns) && WellNamed(w.objects, ns)
    ensures var w' := ReconcileAllocation(strategy, pools, w, pod).world; var k := PodKey(pod);
            && Grows(w.objects, w'.objects, Annotated(pod), pod)
            && (Finalized(w.pods, k) ==> Finalized(w'.pods, k)) && OtherPodsKept(w.pods, w'.pods, k)
  {
    hide AllocateNext;
    if PoolsOf(pod).Ok? && pod.ports.Ok? {
      AllocateAllDelivers(strategy, pools, w.objects, w.cursors, Annotated(pod), pod, PortsOf(pod), ns);
    }
  }

  lemma DeletionRemoves(w: World, k: Key)
    requires k in w.pods && PodKey(w.pods[k]) == k
    ensures var w' := ReconcileDeletion(w, w.pods[k]).world;
            Shrinks(w.objects, w'.objects) && !Finalized(w'.pods, k) && OtherPodsKept(w.pods, w'.pods, k)
  {
    ReleaseAllKeepsOthers(w.objects, Annotated(w.pods[k]), w.pods[k]);
  }

  /** What a reconcile may do depends on its pod alone: for an active pod the store only gains allocations of
      that pod in its own pools, and no finalizer is lost; for a deleted one the store only shrinks, and a
      managed pod is left without our finalizer. Other pods are never touched. */
  lemma ReconcileByState(strategy: Strategy, pools: Pools, w: World, k: Key, ns: Namespaces)
    requires k in w.pods && PodKey(w.pods[k]) == k && PoolsAgree(pools, ns) && WellNamed(w.objects, ns)
    ensures var pod := w.pods[k]; var w' := Reconcile(strategy, pools, w, k).world;
            && (!pod.deleting ==>
              Grows(w.objects, w'.objects, Annotated(pod), pod) && (Finalized(w.pods, k) ==> Finalized(w'.pods, k)))
            && (pod.deleting ==>
                  && Shrinks(w.objects, w'.objects)
                  && (pod.enable == Some("true") && pod.pools != Absent ==> !Finalized(w'.pods, k)))
            && (pod.enable != Some("true") || pod.pools == Absent ==> w' == w)
            && OtherPodsKept(w.pods, w'.pods, k)
  {
    if w.pods[k].deleting {
      DeletionRemoves(w, k);
    } else {
      AllocationAdds(strategy, pools, w, w.pods[k], ns);
    }
  }

  /** A reconcile told by the pod's own fields: only a pod that is enabled with the value "true" and carries the
      annotation is reconciled, by its deletion mark; any other, and a missing one, is left alone without error. */
  lemma ReconcileByFields(strategy: Strategy, pools: Pools, w: World, k: Key)
    ensures k !in w.pods || w.pods[k].enable != Some("true") || w.pods[k].pools == Absent ==>
              Reconcile(strategy, pools, w, k) == Reconciled(w, None)
    ensures k in w.pods && w.pods[k].enable == Some("true") && w.pods[k].pools != Absent ==>
              Reconcile(strategy, pools, w, k) ==
              if w.pods[k].deleting then ReconcileDeletion(w, w.pods[k])
              else ReconcileAllocation(strategy, pools, w, w.pods[k])
  {
  }

  /** The reconciler always passes the empty namespace, so it releases a pod's active allocation exactly
      when the pool object has none: for a namespaced pool the allocation stays, untouched. */
  lemma LeakExactlyWhenNamespaced(objects: Objects, k: Key, ns: Namespaces)
    requires WellNamed(objects, ns) && k in objects && !objects[k].terminating
    ensures var a := objects[k];
            var objects' := Release(objects, PodRequest(a.poolLabel, a.podName, a.podNamespace)).objects;
            (k in objects' && !objects'[k].terminating) <==> ns(a.poolLabel) != ""
  {
  }

  /** A namespaced pool, in which an allocation is made and not found again. */
  lemma NamespacedLeak(strategy: Strategy)
    ensures var pools := map["p" := RoomyPool("p", "n", 1)]; var req := PodRequest("p", "x", "y");
            var o := Attempt(strategy, map[], pools, map[], req, [ContainerPort(80, "TCP", "http")]);
            && o.result.Ok? && HoldsActive(o.objects, "p", "x", "y")
            && Release(o.objects, req) == Released(Err(NotFound), o.objects)
  {
    hide Plan, Attempt;
    var ports := [ContainerPort(80, "TCP", "http")];
    var pools, req := map["p" := RoomyPool("p", "n", 1)], PodRequest("p", "x", "y");
    PlanInRoom(strategy, 0, "n", req, ports);
    var s := Snapshot(pools["p"], []);
    var a := Plan(strategy, 0, s, req, ports).value;
    PlanShape(strategy, 0, s, req, ports);
    assert Ledger.Members(map[], "p") == {};
    AttemptFrom(strategy, map[], pools, map[], req, ports, [], a);
    var o := Attempt(strategy, map[], pools, map[], req, ports);
    assert o.objects[a.ObjectKey()] == a;
  }
}
