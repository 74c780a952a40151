/** Entities of the port allocator: pools, load balancers, ports and the recorded allocations,
    with the key strings the allocator builds and its 32-bit arithmetic. */
module Types {

  datatype Option<+T> = None | Some(value: T)

  /** One constructor per failure branch; message text is not modelled. */
  datatype Error =
    | Duplicate            // the pod already holds an allocation in the pool
    | PoolNotFound
    | NoLoadBalancers
    | NoCapacity           // no load balancer passes the counting test
    | InvalidCount
    | TooFewPorts          // the scan found fewer free ports than requested
    | NameTaken            // an object with the derived name exists, active or terminating
    | NotFound
    | WrongPod
    | WrongPool
    | AlreadyDeleting
    | InvalidAnnotation
    | AllFailed            // every pool of a pod failed
    | Conflict             // optimistic-lock conflict reported by a write
    | Refused              // the API server rejects a patch of a pod that is being deleted
    | ApiFault             // any other API server failure

  datatype Result<+T> = Ok(value: T) | Err(error: Error)

  datatype Strategy = RoundRobin | LeastUsed | Weighted

  datatype LoadBalancerRef = LoadBalancerRef(id: string, region: string, resourceGroup: string, provider: string)

  datatype PortRange = PortRange(min: int, max: int, excluded: seq<int>)

  datatype Pool = Pool(name: string, namespace: string, loadBalancers: seq<LoadBalancerRef>,
                       portRange: PortRange, prewarm: bool, bufferSize: int)

  datatype ContainerPort = ContainerPort(podPort: int, protocol: string, portName: string)

  datatype PortBinding = PortBinding(podPort: int, lbPort: int, protocol: string, portName: string,
                                     bindingType: string, lb: LoadBalancerRef)

  const DEFAULT_BINDING_TYPE := "volcengine-clb"

  datatype Key = Key(namespace: string, name: string)

  /** A `PortAllocation` object: metadata, the two labels, the pod it serves and its bindings. */
  datatype Allocation = Allocation(namespace: string, name: string, poolLabel: string, podLabel: string,
                                   podName: string, podNamespace: string, bindings: seq<PortBinding>,
                                   terminating: bool, hasFinalizers: bool)
  {
    function ObjectKey(): Key { Key(namespace, name) }

    predicate ServesPod(pod: string, podNs: string) { podName == pod && podNamespace == podNs }
  }

  type Objects = map<Key, Allocation>

  /** What one attempt reads before it decides: the pool and the pool's listed allocations. */
  datatype Snapshot = Snapshot(pool: Pool, items: seq<Allocation>)

  /** Arguments shared by `AllocatePort` and `ReleasePort`. */
  datatype Request = Request(pool: string, namespace: string, podName: string, podNamespace: string)

  function AllocationName(pool: string, pod: string): string { pool + "-" + pod }

  /** Names are not injective, but for one pod they tell its pools apart. */
  lemma SamePodName(pool1: string, pool2: string, pod: string)
    ensures AllocationName(pool1, pod) == AllocationName(pool2, pod) <==> pool1 == pool2
  {
    var n1, n2 := AllocationName(pool1, pod), AllocationName(pool2, pod);
    if n1 == n2 {
      assert n1[..|pool1|] == pool1 && n2[..|pool2|] == pool2;
    }
  }

  /** Key of the per-pool mutex and of the round-robin cursor. */
  function PoolKey(namespace: string, pool: string): string { namespace + "/" + pool }

  lemma PoolKeySamePool(ns1: string, ns2: string, pool: string)
    ensures PoolKey(ns1, pool) == PoolKey(ns2, pool) <==> ns1 == ns2
  {
    var k1, k2 := PoolKey(ns1, pool), PoolKey(ns2, pool);
    if k1 == k2 {
      assert k1[..|ns1|] == ns1 && k2[..|ns2|] == ns2;
    }
  }

  /** The first separator of a key ends its namespace part. */
  lemma PoolKeySeparator(ns: string, pool: string)
    requires '/' !in ns
    ensures PoolKey(ns, pool)[|ns|] == '/'
    ensures forall i :: 0 <= i < |ns| ==> PoolKey(ns, pool)[i] != '/'
  {
    forall i | 0 <= i < |ns| ensures PoolKey(ns, pool)[i] != '/' {
      assert PoolKey(ns, pool)[i] == ns[i];
    }
  }

  /** Keys of different pools stay apart as long as namespaces hold no separator. */
  lemma PoolKeyInjective(ns1: string, pool1: string, ns2: string, pool2: string)
    requires '/' !in ns1 && '/' !in ns2
    ensures PoolKey(ns1, pool1) == PoolKey(ns2, pool2) <==> ns1 == ns2 && pool1 == pool2
  {
    var k1, k2 := PoolKey(ns1, pool1), PoolKey(ns2, pool2);
    PoolKeySeparator(ns1, pool1);
    PoolKeySeparator(ns2, pool2);
    if k1 == k2 {
      assert |ns1| == |ns2|;
      assert k1[..|ns1|] == ns1 && k2[..|ns1|] == ns2;
      assert k1[|ns1| + 1..] == pool1 && k2[|ns1| + 1..] == pool2;
    }
  }

  // ---------- 32-bit arithmetic ----------

  const MAX_INT32 := 0x7fff_ffff
  const TWO32 := 0x1_0000_0000

  /** Two's-complement truncation to a signed 32-bit integer. */
  function Wrap32(x: int): (w: int)
    ensures -MAX_INT32 - 1 <= w <= MAX_INT32
    ensures Fits32(x) ==> w == x
  {
    (x + MAX_INT32 + 1) % TWO32 - MAX_INT32 - 1
  }

  predicate Fits32(x: int) { -MAX_INT32 - 1 <= x <= MAX_INT32 }

  lemma WrapShift(x: int, k: int)
    ensures Wrap32(x + k * TWO32) == Wrap32(x)
  {
    var y := x + MAX_INT32 + 1;
    assert y == TWO32 * (y / TWO32) + y % TWO32;
    assert y + k * TWO32 == TWO32 * (y / TWO32 + k) + y % TWO32;
  }

  lemma WrapIs(x: int) returns (k: int)
    ensures Wrap32(x) == x + k * TWO32
  {
    var y := x + MAX_INT32 + 1;
    assert y == TWO32 * (y / TWO32) + y % TWO32;
    k := -(y / TWO32);
  }

  /** Truncating early or late gives the same sum, so a chain of 32-bit operations truncates once. */
  lemma WrapSum(x: int, y: int)
    ensures Wrap32(Wrap32(x) + y) == Wrap32(x + y)
    ensures Wrap32(Wrap32(x) - y) == Wrap32(x - y)
    ensures Wrap32(y - Wrap32(x)) == Wrap32(y - x)
  {
    var k := WrapIs(x);
    WrapShift(x + y, k);
    WrapShift(x - y, k);
    WrapShift(y - x, -k);
    assert Wrap32(x) + y == x + y + k * TWO32;
    assert Wrap32(x) - y == x - y + k * TWO32;
    assert y - Wrap32(x) == y - x + (-k) * TWO32;
  }
}
