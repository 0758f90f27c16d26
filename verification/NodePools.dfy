/** getNodePools: nodes grouped by operating system and kernel, one pool name
    per group, and the DaemonSet node selector each pool leads to. */
module NodePools {
  import opened Wrappers
  import opened Labels
  import opened KernelName

  const DEPLOY: string := "rebellions.ai/npu.deploy.driver"
  const OS_ID: string := "feature.node.kubernetes.io/system-os_release.ID"
  const OS_VERSION: string := "feature.node.kubernetes.io/system-os_release.VERSION_ID"
  const KERNEL: string := "feature.node.kubernetes.io/kernel-version.full"

  datatype Node = Node(name: string, labels: LabelMap)

  datatype NodePool = NodePool(
    name: string, osRelease: string, osVersion: string, kernel: string, nodeSelector: LabelMap)
  {
    function OS(): string { osRelease + osVersion }
  }

  lemma WatchedKeysDiffer()
    ensures DEPLOY != OS_ID && DEPLOY != OS_VERSION && DEPLOY != KERNEL
    ensures OS_ID != OS_VERSION && OS_ID != KERNEL && OS_VERSION != KERNEL
  {
    assert |DEPLOY| == 31 && |OS_ID| == 47 && |OS_VERSION| == 55 && |KERNEL| == 46;
  }

  /** The user's selector is copied over the deploy label, so it wins. */
  function BuildNodeSelector(selector: LabelMap): LabelMap {
    map[DEPLOY := "true"] + selector
  }

  function PoolName(id: string, version: string, kernel: string): string {
    id + version + "-" + Sanitize(kernel)
  }

  /** What a pool name tells apart: with one kernel the operating systems, and with
      one operating system the sanitised kernels. */
  lemma PoolNameIff(id: string, version: string, kernel: string, id': string, version': string, kernel': string)
    ensures PoolName(id, version, kernel) == PoolName(id', version', kernel) <==> id + version == id' + version'
    ensures PoolName(id, version, kernel) == PoolName(id, version, kernel') <==> Sanitize(kernel) == Sanitize(kernel')
  {
    var (a, b) := (PoolName(id, version, kernel), PoolName(id', version', kernel));
    assert a[..|id + version|] == id + version && b[..|id' + version'|] == id' + version';
    assert |a| - |id + version| == |b| - |id' + version'|;
    var c := PoolName(id, version, kernel');
    assert a[|id + version| + 1..] == Sanitize(kernel) && c[|id + version| + 1..] == Sanitize(kernel');
  }

  ghost predicate HasNFD(labels: LabelMap) {
    OS_ID in labels && OS_VERSION in labels && KERNEL in labels
  }

  function BuildNodePool(node: Node, base: LabelMap): Option<NodePool> {
    if OS_ID !in node.labels then None
    else if OS_VERSION !in node.labels then None
    else if KERNEL !in node.labels then None
    else
      var id, version, kernel := node.labels[OS_ID], node.labels[OS_VERSION], node.labels[KERNEL];
      Some(NodePool(PoolName(id, version, kernel), id, version, kernel,
                    base[OS_ID := id][OS_VERSION := version][KERNEL := kernel]))
  }

  /** The API server's answer to a List with MatchingLabels. */
  function ListNodes(cluster: seq<Node>, selector: LabelMap): (listed: seq<Node>)
    ensures forall n :: n in listed <==> n in cluster && Selects(selector, n.labels)
  {
    if cluster == [] then []
    else
      var rest := ListNodes(cluster[..|cluster| - 1], selector);
      var last := cluster[|cluster| - 1];
      assert cluster == cluster[..|cluster| - 1] + [last];
      if Selects(selector, last.labels) then rest + [last] else rest
  }

  /** `p` is the pool of the i-th listed node and no earlier listed node has
      taken its name. */
  ghost predicate PoolAt(listed: seq<Node>, base: LabelMap, p: NodePool, i: nat) {
    && i < |listed|
    && BuildNodePool(listed[i], base) == Some(p)
    && forall j :: 0 <= j < i && BuildNodePool(listed[j], base).Some? ==>
                     BuildNodePool(listed[j], base).value.name != p.name
  }

  ghost predicate IsPool(listed: seq<Node>, base: LabelMap, p: NodePool) {
    exists i: nat :: PoolAt(listed, base, p, i)
  }

  ghost predicate DistinctNames(pools: seq<NodePool>) {
    forall i, j :: 0 <= i < j < |pools| ==> pools[i].name != pools[j].name
  }

  /** The pools of a node list: each name once, carried by its first node. */
  ghost predicate PoolsOf(listed: seq<Node>, base: LabelMap, pools: seq<NodePool>) {
    && DistinctNames(pools)
    && forall p :: p in pools <==> IsPool(listed, base, p)
  }

  /** The map the first loop of getNodePools holds after the listed nodes. */
  ghost predicate PoolMapOf(listed: seq<Node>, base: LabelMap, m: map<string, NodePool>) {
    && (forall k :: k in m ==> m[k].name == k && IsPool(listed, base, m[k]))
    && (forall i :: 0 <= i < |listed| && BuildNodePool(listed[i], base).Some? ==>
                      BuildNodePool(listed[i], base).value.name in m)
  }

  lemma IsPoolGrows(listed: seq<Node>, base: LabelMap, p: NodePool, n: Node)
    requires IsPool(listed, base, p)
    ensures IsPool(listed + [n], base, p)
  {
    var i: nat :| PoolAt(listed, base, p, i);
    assert PoolAt(listed + [n], base, p, i);
  }

  lemma PoolMapStep(listed: seq<Node>, base: LabelMap, m: map<string, NodePool>, n: Node, m': map<string, NodePool>)
    requires PoolMapOf(listed, base, m)
    requires var b := BuildNodePool(n, base);
             m' == if b.Some? && b.value.name !in m then m[b.value.name := b.value] else m
    ensures PoolMapOf(listed + [n], base, m')
  {
    var b := BuildNodePool(n, base);
    forall k | k in m' ensures m'[k].name == k && IsPool(listed + [n], base, m'[k]) {
      if k in m {
        IsPoolGrows(listed, base, m[k], n);
      } else {
        assert PoolAt(listed + [n], base, b.value, |listed|);
      }
    }
  }

  lemma PoolMapHoldsAllPools(listed: seq<Node>, base: LabelMap, m: map<string, NodePool>, p: NodePool)
    requires PoolMapOf(listed, base, m)
    ensures IsPool(listed, base, p) <==> p.name in m && m[p.name] == p
  {
    if IsPool(listed, base, p) {
      var i: nat :| PoolAt(listed, base, p, i);
      PoolsWithOneName(listed, base, p, m[p.name]);
    }
  }

  /** A pool is determined by its name. */
  lemma PoolsWithOneName(listed: seq<Node>, base: LabelMap, p: NodePool, q: NodePool)
    requires IsPool(listed, base, p) && IsPool(listed, base, q) && p.name == q.name
    ensures p == q
  {
    var i: nat :| PoolAt(listed, base, p, i);
    var j: nat :| PoolAt(listed, base, q, j);
    assert i == j;
  }

  /** The first loop of getNodePools: the first node of each name is kept. */
  method FillPoolMap(listed: seq<Node>, base: LabelMap) returns (m: map<string, NodePool>)
    ensures PoolMapOf(listed, base, m)
  {
    m := map[];
    for i := 0 to |listed|
      invariant PoolMapOf(listed[..i], base, m)
    {
      ghost var before := m;
      var pool := BuildNodePool(listed[i], base);
      if pool.Some? && pool.value.name !in m {
        m := m[pool.value.name := pool.value];
      }
      PoolMapStep(listed[..i], base, before, listed[i], m);
      assert listed[..i + 1] == listed[..i] + [listed[i]];
    }
    assert listed[..|listed|] == listed;
  }

  /** The second loop: a range over the map, in arbitrary order. */
  method PoolMapValues(m: map<string, NodePool>) returns (pools: seq<NodePool>)
    requires forall k :: k in m ==> m[k].name == k
    ensures DistinctNames(pools)
    ensures forall p :: p in pools <==> p.name in m && m[p.name] == p
  {
    pools := [];
    var todo := m.Keys;
    while todo != {}
      invariant todo <= m.Keys
      invariant DistinctNames(pools)
      invariant forall p :: p in pools <==> p.name in m && p.name !in todo && m[p.name] == p
    {
      var k :| k in todo;
      assert forall i :: 0 <= i < |pools| ==> pools[i] in pools;
      pools := pools + [m[k]];
      todo := todo - {k};
    }
  }

  /** getNodePools. `listFails` stands for a failing List call. */
  method GetNodePools(cluster: seq<Node>, selector: LabelMap, listFails: bool)
    returns (r: Result<seq<NodePool>>)
    ensures r.Ok? <==> !listFails
    ensures r.Ok? ==> var base := BuildNodeSelector(selector); PoolsOf(ListNodes(cluster, base), base, r.value)
  {
    var base := BuildNodeSelector(selector);
    if listFails {
      return Err("failed to list nodes");
    }
    var listed := ListNodes(cluster, base);
    var m := FillPoolMap(listed, base);
    var pools := PoolMapValues(m);
    forall p ensures p in pools <==> IsPool(listed, base, p) {
      PoolMapHoldsAllPools(listed, base, m, p);
    }
    return Ok(pools);
  }

  /** handleDaemonSet's node selector: the pool's, with the deploy label forced
      to "true". */
  function PlacementSelector(pool: NodePool): LabelMap {
    pool.nodeSelector[DEPLOY := "true"]
  }

  /** The caller's obligation that the code does not check: the deploy label is
      either left alone or set to the value the DaemonSet will demand. */
  predicate DeployKeyOk(selector: LabelMap) {
    DEPLOY in selector ==> selector[DEPLOY] == "true"
  }

  /** A node the pools should cover. */
  ghost predicate Eligible(cluster: seq<Node>, selector: LabelMap, n: Node) {
    n in cluster && Selects(BuildNodeSelector(selector), n.labels) && HasNFD(n.labels)
  }

  /** Labels that carry what the selector and the pools ask for. */
  function Fitting(selector: LabelMap): LabelMap {
    map[OS_ID := "rhel", OS_VERSION := "9", KERNEL := "5"] + BuildNodeSelector(selector)
  }

  ghost predicate PoolOfCluster(cluster: seq<Node>, selector: LabelMap, p: NodePool) {
    IsPool(ListNodes(cluster, BuildNodeSelector(selector)), BuildNodeSelector(selector), p)
  }

  /** What a pool is: the name, the three values and the selector of some
      eligible node. */
  lemma PoolComesFromNode(cluster: seq<Node>, selector: LabelMap, p: NodePool) returns (n: Node)
    requires PoolOfCluster(cluster, selector, p)
    ensures Eligible(cluster, selector, n)
    ensures BuildNodePool(n, BuildNodeSelector(selector)) == Some(p)
  {
    var base := BuildNodeSelector(selector);
    var listed := ListNodes(cluster, base);
    var i: nat :| PoolAt(listed, base, p, i);
    n := listed[i];
    assert n in listed;
  }

  /** What the DaemonSet of a pool demands of a node, with no hypothesis on the
      selector. */
  lemma PlacementMeaning(cluster: seq<Node>, selector: LabelMap, p: NodePool, labels: LabelMap)
    requires PoolOfCluster(cluster, selector, p)
    ensures Selects(PlacementSelector(p), labels) <==>
            && Selects(BuildNodeSelector(selector)[DEPLOY := "true"], labels)
            && HasNFD(labels)
            && labels[OS_ID] == p.osRelease && labels[OS_VERSION] == p.osVersion && labels[KERNEL] == p.kernel
  {
    WatchedKeysDiffer();
    var n := PoolComesFromNode(cluster, selector, p);
    var base := BuildNodeSelector(selector);
    var s := PlacementSelector(p);
    assert s == base[OS_ID := p.osRelease][OS_VERSION := p.osVersion][KERNEL := p.kernel][DEPLOY := "true"];
    if Selects(s, labels) {
      assert OS_ID in s && OS_VERSION in s && KERNEL in s && DEPLOY in s;
      forall k | k in base[DEPLOY := "true"]
        ensures k in labels && labels[k] == base[DEPLOY := "true"][k]
      {
        assert k in s;
        if k != DEPLOY {
          assert k in base && n.labels[k] == base[k];
        }
      }
    }
  }

  /** At most one pool of a driver can place a pod on a node, whatever the
      selector says. */
  lemma OnePoolPerNode(cluster: seq<Node>, selector: LabelMap, p: NodePool, q: NodePool, labels: LabelMap)
    requires PoolOfCluster(cluster, selector, p) && PoolOfCluster(cluster, selector, q)
    requires Selects(PlacementSelector(p), labels) && Selects(PlacementSelector(q), labels)
    ensures p == q
  {
    PlacementMeaning(cluster, selector, p, labels);
    PlacementMeaning(cluster, selector, q, labels);
    var m := PoolComesFromNode(cluster, selector, p);
    var n := PoolComesFromNode(cluster, selector, q);
    PoolsWithOneName(ListNodes(cluster, BuildNodeSelector(selector)), BuildNodeSelector(selector), p, q);
  }

  ghost predicate Covered(cluster: seq<Node>, selector: LabelMap, n: Node) {
    exists p :: PoolOfCluster(cluster, selector, p) && Selects(PlacementSelector(p), n.labels)
  }

  /** Two eligible nodes that the pool name cannot tell apart although a driver
      built for one does not fit the other. */
  ghost predicate Collide(m: Node, n: Node)
    requires HasNFD(m.labels) && HasNFD(n.labels)
  {
    && PoolName(m.labels[OS_ID], m.labels[OS_VERSION], m.labels[KERNEL])
       == PoolName(n.labels[OS_ID], n.labels[OS_VERSION], n.labels[KERNEL])
    && !(m.labels[OS_ID] == n.labels[OS_ID] && m.labels[OS_VERSION] == n.labels[OS_VERSION]
         && m.labels[KERNEL] == n.labels[KERNEL])
  }

  ghost predicate NoCollision(cluster: seq<Node>, selector: LabelMap) {
    forall m, n :: Eligible(cluster, selector, m) && Eligible(cluster, selector, n) ==> !Collide(m, n)
  }

  /** Some pool carries the name of every eligible node: the first one listed
      under that name. */
  lemma EveryNameHasPool(listed: seq<Node>, base: LabelMap, i: nat) returns (p: NodePool)
    requires i < |listed| && BuildNodePool(listed[i], base).Some?
    ensures IsPool(listed, base, p) && p.name == BuildNodePool(listed[i], base).value.name
    decreases i
  {
    var q := BuildNodePool(listed[i], base).value;
    if j :| 0 <= j < i && BuildNodePool(listed[j], base).Some?
            && BuildNodePool(listed[j], base).value.name == q.name {
      p := EveryNameHasPool(listed, base, j);
    } else {
      p := q;
      assert PoolAt(listed, base, p, i);
    }
  }

  lemma EligibleNodeHasPool(cluster: seq<Node>, selector: LabelMap, n: Node) returns (p: NodePool)
    requires Eligible(cluster, selector, n)
    ensures PoolOfCluster(cluster, selector, p)
    ensures p.name == PoolName(n.labels[OS_ID], n.labels[OS_VERSION], n.labels[KERNEL])
  {
    var base := BuildNodeSelector(selector);
    var listed := ListNodes(cluster, base);
    assert n in listed;
    var i :| 0 <= i < |listed| && listed[i] == n;
    p := EveryNameHasPool(listed, base, i);
  }

  lemma CoveredWithoutCollision(cluster: seq<Node>, selector: LabelMap, n: Node)
    requires DeployKeyOk(selector) && NoCollision(cluster, selector) && Eligible(cluster, selector, n)
    ensures Covered(cluster, selector, n)
  {
    var p := EligibleNodeHasPool(cluster, selector, n);
    var m := PoolComesFromNode(cluster, selector, p);
    assert !Collide(m, n);
    PlacementMeaning(cluster, selector, p, n.labels);
  }

  lemma CollisionUncovers(cluster: seq<Node>, selector: LabelMap, m: Node, n: Node)
    requires Eligible(cluster, selector, m) && Eligible(cluster, selector, n) && Collide(m, n)
    ensures !(Covered(cluster, selector, m) && Covered(cluster, selector, n))
  {
    if Covered(cluster, selector, m) && Covered(cluster, selector, n) {
      var p :| PoolOfCluster(cluster, selector, p) && Selects(PlacementSelector(p), m.labels);
      var q :| PoolOfCluster(cluster, selector, q) && Selects(PlacementSelector(q), n.labels);
      PlacementMeaning(cluster, selector, p, m.labels);
      PlacementMeaning(cluster, selector, q, n.labels);
      var mp := PoolComesFromNode(cluster, selector, p);
      var nq := PoolComesFromNode(cluster, selector, q);
      PoolsWithOneName(ListNodes(cluster, BuildNodeSelector(selector)), BuildNodeSelector(selector), p, q);
    }
  }

  /** Coverage, exactly: all eligible nodes get a driver if and only if no two of
      them collide. */
  lemma CoverageIff(cluster: seq<Node>, selector: LabelMap)
    requires DeployKeyOk(selector)
    ensures (forall n :: Eligible(cluster, selector, n) ==> Covered(cluster, selector, n))
            <==> NoCollision(cluster, selector)
  {
    if NoCollision(cluster, selector) {
      forall n | Eligible(cluster, selector, n) ensures Covered(cluster, selector, n) {
        CoveredWithoutCollision(cluster, selector, n);
      }
    } else {
      var m, n :| Eligible(cluster, selector, m) && Eligible(cluster, selector, n) && Collide(m, n);
      CollisionUncovers(cluster, selector, m, n);
    }
  }

  /** The collision that clusters of mixed architecture meet: the same release
      `p` for two of the architecture suffixes, on the same operating system. */
  lemma MixedArchitectureUncovers(cluster: seq<Node>, selector: LabelMap, m: Node, n: Node, p: string, a: string, b: string)
    requires Eligible(cluster, selector, m) && Eligible(cluster, selector, n)
    requires ArchSuffix(a) && ArchSuffix(b) && a != b
    requires m.labels[KERNEL] == p + "." + a && n.labels[KERNEL] == p + "." + b
    requires m.labels[OS_ID] == n.labels[OS_ID] && m.labels[OS_VERSION] == n.labels[OS_VERSION]
    ensures !(Covered(cluster, selector, m) && Covered(cluster, selector, n))
  {
    SanitizeForgetsArch(p, a);
    SanitizeForgetsArch(p, b);
    assert (p + "." + a)[|p| + 1..] == a && (p + "." + b)[|p| + 1..] == b;
    CollisionUncovers(cluster, selector, m, n);
  }
}
