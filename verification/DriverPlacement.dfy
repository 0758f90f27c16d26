/** Which driver runs on which node: selector validation, the precompiled image
    of a pool, the DaemonSet built for it and the reconcile pass that writes
    DaemonSets to the API server. */
module DriverPlacement {
  import opened Wrappers
  import opened Labels
  import KernelName
  import opened NodePools
  import opened DriverImage

  datatype Driver = Driver(name: string, namespace: string, spec: DriverSpec)

  /** `controller` is the driver in the owner reference. */
  datatype DaemonSet = DaemonSet(name: string, controller: Option<string>, nodeSelector: LabelMap, image: string)

  /** GetNodeSelector: what validation looks at. Unlike BuildNodeSelector it adds
      the deploy label only to an empty selector. */
  function GetNodeSelector(d: Driver): LabelMap {
    if |d.spec.nodeSelector| == 0 then map[DEPLOY := "true"] else d.spec.nodeSelector
  }

  /** labelsMatch compares with Go lookups, so a demanded "" also accepts an
      absent label. */
  predicate LabelsMatch(labels: LabelMap, selector: LabelMap) {
    forall k :: k in selector ==> Lookup(labels, k) == selector[k]
  }

  datatype Verdict = Accepted | ListFailed | Conflict(driver: string)

  predicate SameIdentity(a: Driver, b: Driver) {
    a.name == b.name && a.namespace == b.namespace
  }

  /** The search over the other drivers. */
  function FindConflict(nodes: seq<Node>, drivers: seq<Driver>, instance: Driver): Verdict {
    if drivers == [] then Accepted
    else if SameIdentity(drivers[0], instance) then FindConflict(nodes, drivers[1..], instance)
    else if exists i :: 0 <= i < |nodes| && LabelsMatch(nodes[i].labels, GetNodeSelector(drivers[0]))
    then Conflict(drivers[0].name)
    else FindConflict(nodes, drivers[1..], instance)
  }

  /** Validate. The flags stand for failing List calls; drivers are listed only
      when some node is selected. */
  function Validate(cluster: seq<Node>, drivers: seq<Driver>, instance: Driver, nodesFail: bool, driversFail: bool): Verdict {
    if nodesFail then ListFailed
    else
      var nodes := ListNodes(cluster, GetNodeSelector(instance));
      if |nodes| == 0 then Accepted
      else if driversFail then ListFailed
      else FindConflict(nodes, drivers, instance)
  }

  ghost predicate Overlap(nodes: seq<Node>, drivers: seq<Driver>, instance: Driver, d: Driver, n: Node) {
    d in drivers && !SameIdentity(d, instance) && n in nodes && LabelsMatch(n.labels, GetNodeSelector(d))
  }

  lemma {:induction false} FindConflictIff(nodes: seq<Node>, drivers: seq<Driver>, instance: Driver)
    ensures FindConflict(nodes, drivers, instance).Accepted?
            <==> forall d, n :: !Overlap(nodes, drivers, instance, d, n)
    ensures !FindConflict(nodes, drivers, instance).ListFailed?
  {
    if drivers != [] {
      FindConflictIff(nodes, drivers[1..], instance);
      var d0 := drivers[0];
      if !SameIdentity(d0, instance) {
        if i :| 0 <= i < |nodes| && LabelsMatch(nodes[i].labels, GetNodeSelector(d0)) {
          assert Overlap(nodes, drivers, instance, d0, nodes[i]);
        }
      }
      forall d, n | Overlap(nodes, drivers[1..], instance, d, n) ensures Overlap(nodes, drivers, instance, d, n) {
      }
      forall d, n | Overlap(nodes, drivers, instance, d, n) && d != d0
        ensures Overlap(nodes, drivers[1..], instance, d, n)
      {
      }
    }
  }

  /** Validate accepts exactly when both lists that it needs were read and no
      selected node satisfies another driver's selector. */
  lemma ValidateIff(cluster: seq<Node>, drivers: seq<Driver>, instance: Driver, nodesFail: bool, driversFail: bool)
    ensures var nodes := ListNodes(cluster, GetNodeSelector(instance));
            Validate(cluster, drivers, instance, nodesFail, driversFail).Accepted? <==>
            !nodesFail && (nodes == [] || !driversFail) && forall d, n :: !Overlap(nodes, drivers, instance, d, n)
  {
    var nodes := ListNodes(cluster, GetNodeSelector(instance));
    FindConflictIff(nodes, drivers, instance);
    if nodes == [] {
      forall d, n ensures !Overlap(nodes, drivers, instance, d, n) {
      }
    } else {
      assert |nodes| != 0;
    }
  }

  /** What acceptance buys: the nodes of an accepted driver are outside every
      other driver's selector. */
  lemma AcceptedIsDisjoint(cluster: seq<Node>, drivers: seq<Driver>, a: Driver, b: Driver, n: Node)
    requires Validate(cluster, drivers, a, false, false).Accepted?
    requires b in drivers && !SameIdentity(a, b)
    requires n in ListNodes(cluster, GetNodeSelector(a))
    ensures !Selects(GetNodeSelector(b), n.labels)
  {
    var nodes := ListNodes(cluster, GetNodeSelector(a));
    ValidateIff(cluster, drivers, a, false, false);
    assert !Overlap(nodes, drivers, a, b, n);
  }

  /** The nodes a driver is validated for: those with the deploy label at "true" or,
      if it has a selector, those that carry all of that. */
  ghost predicate LooksAt(d: Driver, labels: LabelMap) {
    if d.spec.nodeSelector == map[] then DEPLOY in labels && labels[DEPLOY] == "true"
    else forall k :: k in d.spec.nodeSelector ==> k in labels && labels[k] == d.spec.nodeSelector[k]
  }

  /** What makes another driver overlap there: the same, except that a selector's
      empty value also takes an absent label. */
  ghost predicate Claims(d: Driver, labels: LabelMap) {
    if d.spec.nodeSelector == map[] then LooksAt(d, labels)
    else forall k :: k in d.spec.nodeSelector ==>
           if k in labels then labels[k] == d.spec.nodeSelector[k] else d.spec.nodeSelector[k] == ""
  }

  ghost predicate Overlaps(cluster: seq<Node>, instance: Driver, d: Driver) {
    && (d.name != instance.name || d.namespace != instance.namespace)
    && exists n :: n in cluster && LooksAt(instance, n.labels) && Claims(d, n.labels)
  }

  lemma SelectorsMean(d: Driver, labels: LabelMap)
    ensures Selects(GetNodeSelector(d), labels) <==> LooksAt(d, labels)
    ensures LabelsMatch(labels, GetNodeSelector(d)) <==> Claims(d, labels)
  {
    if d.spec.nodeSelector == map[] {
      assert GetNodeSelector(d) == map[DEPLOY := "true"];
    }
  }

  /** Validate, said of the labels themselves: with both lists read it accepts
      exactly if no other driver overlaps, and otherwise names the first that does. */
  lemma ValidateMeaning(cluster: seq<Node>, drivers: seq<Driver>, instance: Driver)
    ensures var v := Validate(cluster, drivers, instance, false, false);
            && (v.Accepted? <==> forall d :: d in drivers ==> !Overlaps(cluster, instance, d))
            && (!v.Accepted? ==> v.Conflict? && exists i :: FirstOverlap(cluster, drivers, instance, i) && drivers[i].name == v.driver)
  {
    var nodes := ListNodes(cluster, GetNodeSelector(instance));
    NoHitsIff(nodes, drivers, instance);
    forall d | d in drivers ensures Hits(nodes, instance, d) <==> Overlaps(cluster, instance, d) {
      HitsIff(cluster, instance, d);
    }
    if !Validate(cluster, drivers, instance, false, false).Accepted? {
      var i := ConflictIsFirst(nodes, drivers, instance);
      OverlapAt(cluster, drivers, instance, i);
    }
  }

  lemma {:induction false} NoHitsIff(nodes: seq<Node>, drivers: seq<Driver>, instance: Driver)
    ensures FindConflict(nodes, drivers, instance).Accepted? <==> forall d :: d in drivers ==> !Hits(nodes, instance, d)
  {
    if drivers != [] {
      NoHitsIff(nodes, drivers[1..], instance);
      var (first, rest) := (drivers[0], drivers[1..]);
      assert FindConflict(nodes, drivers, instance) ==
             if Hits(nodes, instance, first) then Conflict(first.name) else FindConflict(nodes, rest, instance);
      assert forall d :: d in drivers <==> d == first || d in rest;
    }
  }

  ghost predicate FirstOverlap(cluster: seq<Node>, drivers: seq<Driver>, instance: Driver, i: int) {
    && 0 <= i < |drivers| && Overlaps(cluster, instance, drivers[i])
    && forall j :: 0 <= j < i ==> !Overlaps(cluster, instance, drivers[j])
  }

  /** The driver at `i` overlaps, in the terms of the search. */
  ghost predicate Hits(nodes: seq<Node>, instance: Driver, d: Driver) {
    !SameIdentity(d, instance) && exists i :: 0 <= i < |nodes| && LabelsMatch(nodes[i].labels, GetNodeSelector(d))
  }

  lemma {:induction false} ConflictIsFirst(nodes: seq<Node>, drivers: seq<Driver>, instance: Driver) returns (i: nat)
    requires !FindConflict(nodes, drivers, instance).Accepted?
    ensures i < |drivers| && Hits(nodes, instance, drivers[i]) && forall j :: 0 <= j < i ==> !Hits(nodes, instance, drivers[j])
    ensures FindConflict(nodes, drivers, instance) == Conflict(drivers[i].name)
  {
    if Hits(nodes, instance, drivers[0]) {
      i := 0;
    } else {
      var k := ConflictIsFirst(nodes, drivers[1..], instance);
      i := k + 1;
    }
  }

  lemma HitsIff(cluster: seq<Node>, instance: Driver, d: Driver)
    ensures Hits(ListNodes(cluster, GetNodeSelector(instance)), instance, d) <==> Overlaps(cluster, instance, d)
  {
    var nodes := ListNodes(cluster, GetNodeSelector(instance));
    if i :| 0 <= i < |nodes| && LabelsMatch(nodes[i].labels, GetNodeSelector(d)) {
      assert nodes[i] in nodes;
      SelectorsMean(instance, nodes[i].labels);
      SelectorsMean(d, nodes[i].labels);
    }
    if n :| n in cluster && LooksAt(instance, n.labels) && Claims(d, n.labels) {
      SelectorsMean(instance, n.labels);
      SelectorsMean(d, n.labels);
      assert n in nodes;
    }
  }

  lemma OverlapAt(cluster: seq<Node>, drivers: seq<Driver>, instance: Driver, i: nat)
    requires i < |drivers|
    requires var nodes := ListNodes(cluster, GetNodeSelector(instance));
             Hits(nodes, instance, drivers[i]) && forall j :: 0 <= j < i ==> !Hits(nodes, instance, drivers[j])
    ensures FirstOverlap(cluster, drivers, instance, i)
  {
    var nodes := ListNodes(cluster, GetNodeSelector(instance));
    forall j | 0 <= j <= i ensures Hits(nodes, instance, drivers[j]) <==> Overlaps(cluster, instance, drivers[j]) {
      HitsIff(cluster, instance, drivers[j]);
    }
  }

  // ---------- the DaemonSets ----------

  /** handleDaemonSet, as far as placement goes. */
  function BuildDaemonSet(d: Driver, pool: NodePool): Result<DaemonSet> {
    match ImagePath(d.spec, pool.OS(), pool.kernel)
    case Err(e) => Err(e)
    case Ok(image) => Ok(DaemonSet(ObjectName(d, pool), Some(d.name), PlacementSelector(pool), image))
  }

  function ObjectName(d: Driver, pool: NodePool): string { d.name + "-" + pool.name }

  /** `ds` is one of the DaemonSets Patch builds for `d` from this snapshot. */
  ghost predicate BuiltFrom(cluster: seq<Node>, d: Driver, ds: DaemonSet) {
    exists p :: PoolOfCluster(cluster, d.spec.nodeSelector, p) && BuildDaemonSet(d, p) == Ok(ds)
  }

  lemma PoolBehind(cluster: seq<Node>, d: Driver, ds: DaemonSet) returns (p: NodePool)
    requires BuiltFrom(cluster, d, ds)
    ensures PoolOfCluster(cluster, d.spec.nodeSelector, p)
    ensures BuildDaemonSet(d, p) == Ok(ds) && ds.nodeSelector == PlacementSelector(p)
  {
    p :| PoolOfCluster(cluster, d.spec.nodeSelector, p) && BuildDaemonSet(d, p) == Ok(ds);
  }

  // ---------- uniqueness ----------

  lemma ForcedSelectorIsStronger(d: Driver, labels: LabelMap)
    requires DeployKeyOk(d.spec.nodeSelector)
    requires Selects(BuildNodeSelector(d.spec.nodeSelector)[DEPLOY := "true"], labels)
    ensures Selects(GetNodeSelector(d), labels)
  {
    var s := BuildNodeSelector(d.spec.nodeSelector)[DEPLOY := "true"];
    forall k | k in GetNodeSelector(d) ensures k in labels && labels[k] == GetNodeSelector(d)[k] {
      assert k in s;
    }
  }

  /** A driver's DaemonSets only reach nodes that its validation looked at. */
  lemma PlacedWithinValidated(cluster: seq<Node>, d: Driver, ds: DaemonSet, n: Node)
    requires BuiltFrom(cluster, d, ds) && n in cluster && Selects(ds.nodeSelector, n.labels)
    requires DeployKeyOk(d.spec.nodeSelector)
    ensures n in ListNodes(cluster, GetNodeSelector(d))
  {
    var p := PoolBehind(cluster, d, ds);
    PlacementMeaning(cluster, d.spec.nodeSelector, p, n.labels);
    ForcedSelectorIsStronger(d, n.labels);
  }

  ghost predicate AllAccepted(cluster: seq<Node>, drivers: seq<Driver>) {
    forall d :: d in drivers ==> Validate(cluster, drivers, d, false, false).Accepted?
  }

  /** The API server holds one object per name. */
  ghost predicate UniqueNames(drivers: seq<Driver>) {
    forall a, b :: a in drivers && b in drivers && SameIdentity(a, b) ==> a == b
  }

  /** Among the DaemonSets that all accepted drivers build from one snapshot, at
      most one places a pod on any node. */
  lemma OneDaemonSetPerNode(cluster: seq<Node>, drivers: seq<Driver>, a: Driver, b: Driver,
                            x: DaemonSet, y: DaemonSet, n: Node)
    requires AllAccepted(cluster, drivers) && UniqueNames(drivers)
    requires forall d :: d in drivers ==> DeployKeyOk(d.spec.nodeSelector)
    requires a in drivers && BuiltFrom(cluster, a, x)
    requires b in drivers && BuiltFrom(cluster, b, y)
    requires n in cluster && Selects(x.nodeSelector, n.labels) && Selects(y.nodeSelector, n.labels)
    ensures a == b && x == y
  {
    PlacedWithinValidated(cluster, a, x, n);
    PlacedWithinValidated(cluster, b, y, n);
    if a != b {
      AcceptedIsDisjoint(cluster, drivers, a, b, n);
    } else {
      var p := PoolBehind(cluster, a, x);
      var q := PoolBehind(cluster, b, y);
      OnePoolPerNode(cluster, a.spec.nodeSelector, p, q, n.labels);
    }
  }

  ghost predicate StaysWithinValidated(d: Driver) {
    forall cluster, ds, n: Node ::
      BuiltFrom(cluster, d, ds) && n in cluster && Selects(ds.nodeSelector, n.labels)
      ==> n in ListNodes(cluster, GetNodeSelector(d))
  }

  /** Selectors for which some node yields an image at all: the operating system
      and the kernel it pins, if any, are not empty. */
  predicate Imageable(d: Driver) {
    var f := Fitting(d.spec.nodeSelector);
    ImagePath(d.spec, f[OS_ID] + f[OS_VERSION], f[KERNEL]).Ok?
  }

  /** Two nodes that differ in the deploy label: the pool comes from the one,
      and also fits the other. */
  lemma PoolReachesBeyond(selector: LabelMap) returns (cluster: seq<Node>, p: NodePool, n: Node)
    requires !DeployKeyOk(selector)
    ensures PoolOfCluster(cluster, selector, p)
    ensures p.OS() == Fitting(selector)[OS_ID] + Fitting(selector)[OS_VERSION] && p.kernel == Fitting(selector)[KERNEL]
    ensures cluster == [Node("m", Fitting(selector)), n] && n == Node("n", Fitting(selector)[DEPLOY := "true"])
    ensures Selects(PlacementSelector(p), n.labels) && !Selects(selector, n.labels)
  {
    WatchedKeysDiffer();
    var m := Node("m", Fitting(selector));
    n := Node("n", Fitting(selector)[DEPLOY := "true"]);
    cluster := [m, n];
    assert Eligible(cluster, selector, m);
    p := EligibleNodeHasPool(cluster, selector, m);
    var w := PoolComesFromNode(cluster, selector, p);
    assert w != n by {
      assert DEPLOY in BuildNodeSelector(selector);
    }
    PlacementMeaning(cluster, selector, p, n.labels);
  }

  lemma BadDeployKeyEscapes(d: Driver)
    requires Imageable(d) && !DeployKeyOk(d.spec.nodeSelector)
    ensures !StaysWithinValidated(d)
  {
    var cluster, p, n := PoolReachesBeyond(d.spec.nodeSelector);
    var ds := BuildDaemonSet(d, p).value;
    assert BuiltFrom(cluster, d, ds);
    assert n !in ListNodes(cluster, GetNodeSelector(d));
  }

  /** The exact condition behind uniqueness: a driver that can be built at all
      stays within the nodes it was validated for, in every cluster, if and only
      if its selector does not set the deploy label to another value. */
  lemma StaysWithinValidatedIff(d: Driver)
    requires Imageable(d)
    ensures StaysWithinValidated(d) <==> DeployKeyOk(d.spec.nodeSelector)
  {
    if DeployKeyOk(d.spec.nodeSelector) {
      forall cluster, ds, n: Node | BuiltFrom(cluster, d, ds) && n in cluster && Selects(ds.nodeSelector, n.labels)
        ensures n in ListNodes(cluster, GetNodeSelector(d))
      {
        PlacedWithinValidated(cluster, d, ds, n);
      }
    } else {
      BadDeployKeyEscapes(d);
    }
  }

  ghost predicate DoublyPlaced(cluster: seq<Node>, drivers: seq<Driver>, a: Driver, b: Driver,
                               x: DaemonSet, y: DaemonSet, n: Node) {
    && AllAccepted(cluster, drivers) && UniqueNames(drivers)
    && a in drivers && BuiltFrom(cluster, a, x)
    && b in drivers && BuiltFrom(cluster, b, y)
    && a != b && n in cluster
    && Selects(x.nodeSelector, n.labels) && Selects(y.nodeSelector, n.labels)
  }

  /** In no cluster does `a` meet another accepted driver on a node, as far as the
      other one respects the deploy label. */
  ghost predicate NeverDoubled(a: Driver) {
    forall cluster, b: Driver, x, y, n :: DeployKeyOk(b.spec.nodeSelector) ==> !DoublyPlaced(cluster, [a, b], a, b, x, y, n)
  }

  /** The exact condition for uniqueness: a driver that can be built at all never
      doubles another one if and only if its selector does not set the deploy
      label to another value. */
  lemma NeverDoubledIff(a: Driver)
    requires Imageable(a)
    ensures NeverDoubled(a) <==> DeployKeyOk(a.spec.nodeSelector)
  {
    if DeployKeyOk(a.spec.nodeSelector) {
      forall cluster, b: Driver, x, y, n | DeployKeyOk(b.spec.nodeSelector)
        ensures !DoublyPlaced(cluster, [a, b], a, b, x, y, n)
      {
        GoodKeysNeverDouble(cluster, a, b, x, y, n);
      }
    } else {
      var cluster, b, x, y, n := BadDeployKeyDoublesDrivers(a);
    }
  }

  lemma GoodKeysNeverDouble(cluster: seq<Node>, a: Driver, b: Driver, x: DaemonSet, y: DaemonSet, n: Node)
    requires DeployKeyOk(a.spec.nodeSelector) && DeployKeyOk(b.spec.nodeSelector)
    ensures !DoublyPlaced(cluster, [a, b], a, b, x, y, n)
  {
    var drivers := [a, b];
    assert forall d :: d in drivers ==> d == a || d == b;
    if DoublyPlaced(cluster, drivers, a, b, x, y, n) {
      OneDaemonSetPerNode(cluster, drivers, a, b, x, y, n);
    }
  }

  /** Whatever else the deploy label is set to: another driver with the default
      selector, accepted beside `a`, and a node that both place a pod on. */
  lemma BadDeployKeyDoublesDrivers(a: Driver)
    returns (cluster: seq<Node>, b: Driver, x: DaemonSet, y: DaemonSet, n: Node)
    requires Imageable(a) && !DeployKeyOk(a.spec.nodeSelector)
    ensures DeployKeyOk(b.spec.nodeSelector) && DoublyPlaced(cluster, [a, b], a, b, x, y, n)
  {
    var p;
    cluster, p, n := PoolReachesBeyond(a.spec.nodeSelector);
    b := Driver(a.name + "b", "", DriverSpec("r", "i", "1", map[]));
    x := BuildDaemonSet(a, p).value;
    assert BuiltFrom(cluster, a, x);
    var q := DefaultPool(cluster, a.spec.nodeSelector, n);
    y := BuiltForPool(cluster, b, q);
    assert |a.name| != |b.name|;
    BothAccepted(cluster, a, b, DEPLOY);
  }

  lemma BuiltForPool(cluster: seq<Node>, d: Driver, p: NodePool) returns (ds: DaemonSet)
    requires PoolOfCluster(cluster, d.spec.nodeSelector, p)
    requires d.spec.image == "i" && d.spec.version == "1" && p.OS() != "" && p.kernel != ""
    ensures BuiltFrom(cluster, d, ds) && ds.nodeSelector == PlacementSelector(p)
  {
    PlainImage(d.spec, p.OS(), p.kernel);
    ds := BuildDaemonSet(d, p).value;
  }

  lemma BothAccepted(cluster: seq<Node>, a: Driver, b: Driver, k: string)
    requires a.name != b.name && k in GetNodeSelector(a) && k in GetNodeSelector(b)
    requires GetNodeSelector(a)[k] != GetNodeSelector(b)[k]
    ensures AllAccepted(cluster, [a, b]) && UniqueNames([a, b])
  {
    NoOverlap(cluster, [a, b], a, b, k);
    NoOverlap(cluster, [a, b], b, a, k);
  }

  /** The pool that the default selector makes of the second node. */
  lemma DefaultPool(cluster: seq<Node>, selector: LabelMap, n: Node) returns (q: NodePool)
    requires |cluster| == 2 && cluster[1] == n && n.labels == Fitting(selector)[DEPLOY := "true"]
    requires !Selects(map[DEPLOY := "true"], cluster[0].labels)
    ensures PoolOfCluster(cluster, map[], q) && Selects(PlacementSelector(q), n.labels)
    ensures q.OS() == Fitting(selector)[OS_ID] + Fitting(selector)[OS_VERSION] && q.kernel == Fitting(selector)[KERNEL]
  {
    WatchedKeysDiffer();
    assert BuildNodeSelector(map[]) == map[DEPLOY := "true"];
    assert Eligible(cluster, map[], n);
    q := EligibleNodeHasPool(cluster, map[], n);
    var w := PoolComesFromNode(cluster, map[], q);
    assert w == n;
    PlacementMeaning(cluster, map[], q, n.labels);
  }

  /** Selectors that disagree on a key do not overlap. */
  lemma NoOverlap(cluster: seq<Node>, drivers: seq<Driver>, d: Driver, e: Driver, k: string)
    requires forall o :: o in drivers ==> o == d || o == e
    requires k in GetNodeSelector(d) && k in GetNodeSelector(e)
    requires GetNodeSelector(d)[k] != GetNodeSelector(e)[k]
    ensures Validate(cluster, drivers, d, false, false).Accepted?
  {
    ValidateIff(cluster, drivers, d, false, false);
  }

  // ---------- the image a placed pod runs ----------

  /** `ds` runs the image that `d` asks for on exactly the operating system and
      the kernel that the node selector of `ds` demands. */
  ghost predicate TagOf(d: Driver, ds: DaemonSet) {
    && HasNFD(ds.nodeSelector)
    && ImagePath(d.spec, ds.nodeSelector[OS_ID] + ds.nodeSelector[OS_VERSION], ds.nodeSelector[KERNEL]) == Ok(ds.image)
  }

  lemma BuiltTagMatches(cluster: seq<Node>, d: Driver, ds: DaemonSet)
    requires BuiltFrom(cluster, d, ds)
    ensures TagOf(d, ds)
  {
    var p := PoolBehind(cluster, d, ds);
    WatchedKeysDiffer();
    var n := PoolComesFromNode(cluster, d.spec.nodeSelector, p);
  }

  /** Where such a DaemonSet places a pod, the driver's image for that very node
      runs. */
  lemma PodFitsItsNode(d: Driver, ds: DaemonSet, n: Node)
    requires TagOf(d, ds) && Selects(ds.nodeSelector, n.labels)
    ensures HasNFD(n.labels)
    ensures ImagePath(d.spec, n.labels[OS_ID] + n.labels[OS_VERSION], n.labels[KERNEL]) == Ok(ds.image)
  {
    assert n.labels[OS_ID] == ds.nodeSelector[OS_ID] && n.labels[OS_VERSION] == ds.nodeSelector[OS_VERSION]
           && n.labels[KERNEL] == ds.nodeSelector[KERNEL];
  }

  type Objects = map<string, DaemonSet>

  /** Setting the owner reference of a DaemonSet that another driver controls ends
      the operator's process. */
  predicate HeldByAnother(objects: Objects, d: Driver, k: string) {
    k in objects && objects[k].controller.Some? && objects[k].controller.value != d.name
  }

  /** One Patch of `d`, finished or not: objects are kept, or replaced by a
      DaemonSet built from this snapshot; none is removed and those of other
      drivers are kept. */
  ghost predicate PatchedBy(before: Objects, after: Objects, cluster: seq<Node>, d: Driver) {
    && before.Keys <= after.Keys
    && forall k :: k in after ==>
         || (k in before && after[k] == before[k])
         || (after[k].name == k && BuiltFrom(cluster, d, after[k]) && !HeldByAnother(before, d, k))
  }

  ghost predicate Removal(before: Objects, after: Objects) {
    forall k :: k in after ==> k in before && after[k] == before[k]
  }

  ghost predicate StoreStep(before: Objects, after: Objects) {
    Removal(before, after) || exists cluster, d :: PatchedBy(before, after, cluster, d)
  }

  ghost predicate StoreRun(run: seq<Objects>) {
    |run| > 0 && run[0] == map[] && forall i :: 0 <= i < |run| - 1 ==> StoreStep(run[i], run[i + 1])
  }

  /** `ds` is the work of `d`, and says so. */
  ghost predicate WorkOf(cluster: seq<Node>, d: Driver, ds: DaemonSet) {
    BuiltFrom(cluster, d, ds) && ds.controller == Some(d.name) && TagOf(d, ds)
  }

  /** The step that wrote what is under `k` now. */
  lemma {:induction false} LastWrite(run: seq<Objects>, i: nat, k: string) returns (j: nat)
    requires |run| > 0 && run[0] == map[] && i < |run| && k in run[i]
    ensures j < i && k in run[j + 1] && run[j + 1][k] == run[i][k]
    ensures !(k in run[j] && run[j + 1][k] == run[j][k])
  {
    if k in run[i - 1] && run[i][k] == run[i - 1][k] {
      j := LastWrite(run, i - 1, k);
    } else {
      j := i - 1;
    }
  }

  /** Behind every DaemonSet of every reachable store, over any sequence of
      clusters, drivers, aborted passes and deletions, is the pass of a driver
      that wrote it, with that driver's image for the system and the kernel that
      the DaemonSet's own selector demands. */
  lemma ReachableTagsMatch(run: seq<Objects>, i: nat, k: string)
    returns (j: nat, cluster: seq<Node>, d: Driver)
    requires StoreRun(run) && i < |run| && k in run[i]
    ensures j < i && PatchedBy(run[j], run[j + 1], cluster, d)
    ensures WorkOf(cluster, d, run[i][k]) && run[i][k].name == k
  {
    j := LastWrite(run, i, k);
    cluster, d := WriterOf(run[j], run[j + 1], k);
  }

  /** So no driver pod can be placed on a node of another system or kernel than
      the one its image was built for. */
  lemma ReachablePodsFit(run: seq<Objects>, i: nat, k: string, n: Node) returns (d: Driver)
    requires StoreRun(run) && i < |run| && k in run[i] && Selects(run[i][k].nodeSelector, n.labels)
    ensures run[i][k].controller == Some(d.name) && HasNFD(n.labels)
    ensures ImagePath(d.spec, n.labels[OS_ID] + n.labels[OS_VERSION], n.labels[KERNEL]) == Ok(run[i][k].image)
    ensures ImageOnlyFor(d.spec, run[i][k].image, n)
  {
    var j, cluster;
    j, cluster, d := ReachableTagsMatch(run, i, k);
    PodFitsItsNode(d, run[i][k], n);
    ImageIsForNode(d.spec, run[i][k].image, n);
  }

  /** The tag ends with the node's kernel and system, and on that system it is the
      spec's image for no other kernel. */
  ghost predicate ImageOnlyFor(spec: DriverSpec, image: string, n: Node)
    requires HasNFD(n.labels)
  {
    var os := n.labels[OS_ID] + n.labels[OS_VERSION];
    && (exists front :: image == front + "-" + n.labels[KERNEL] + "-" + os)
    && forall kernel :: ImagePath(spec, os, kernel) == Ok(image) ==> kernel == n.labels[KERNEL]
  }

  lemma ImageIsForNode(spec: DriverSpec, image: string, n: Node)
    requires HasNFD(n.labels)
    requires ImagePath(spec, n.labels[OS_ID] + n.labels[OS_VERSION], n.labels[KERNEL]) == Ok(image)
    ensures ImageOnlyFor(spec, image, n)
  {
    var (os, k) := (n.labels[OS_ID] + n.labels[OS_VERSION], n.labels[KERNEL]);
    var front := TagEndsWith(spec, os, k);
    forall kernel | ImagePath(spec, os, kernel) == Ok(image) ensures kernel == k {
      ImageFixesKernel(spec, os, kernel, k);
    }
  }

  /** And in every reachable store at most one DaemonSet of a driver matches any
      node, whatever selectors and snapshots the driver had in between. */
  lemma ReachableOnePerDriver(run: seq<Objects>, i: nat, k: string, l: string, n: Node)
    requires StoreRun(run) && i < |run| && k in run[i] && l in run[i]
    requires run[i][k].controller == run[i][l].controller
    requires Selects(run[i][k].nodeSelector, n.labels) && Selects(run[i][l].nodeSelector, n.labels)
    ensures k == l
  {
    NameFromNode(run, i, k, n);
    NameFromNode(run, i, l, n);
  }

  lemma NameFromNode(run: seq<Objects>, i: nat, k: string, n: Node)
    requires StoreRun(run) && i < |run| && k in run[i] && Selects(run[i][k].nodeSelector, n.labels)
    ensures run[i][k].controller.Some? && HasNFD(n.labels)
    ensures k == run[i][k].controller.value + "-"
                 + PoolName(n.labels[OS_ID], n.labels[OS_VERSION], n.labels[KERNEL])
  {
    var j, cluster, d := ReachableTagsMatch(run, i, k);
    var p := PoolBehind(cluster, d, run[i][k]);
    var m := PoolComesFromNode(cluster, d.spec.nodeSelector, p);
    PlacementMeaning(cluster, d.spec.nodeSelector, p, n.labels);
  }

  lemma WriterOf(before: Objects, after: Objects, k: string) returns (cluster: seq<Node>, d: Driver)
    requires StoreStep(before, after) && k in after && !(k in before && after[k] == before[k])
    ensures PatchedBy(before, after, cluster, d) && WorkOf(cluster, d, after[k]) && after[k].name == k
  {
    cluster, d :| PatchedBy(before, after, cluster, d);
    var p := PoolBehind(cluster, d, after[k]);
    BuiltTagMatches(cluster, d, after[k]);
  }

  // ---------- object names ----------

  lemma PoolNamesGiveObjectNames(instance: string, a: string, b: string)
    requires instance + "-" + a == instance + "-" + b
    ensures a == b
  {
    assert (instance + "-" + a)[|instance| + 1..] == a;
    assert (instance + "-" + b)[|instance| + 1..] == b;
  }

  /** The names of two drivers that write one object: the one is the other with
      the front of the other's pool name added. */
  ghost predicate NamesRunTogether(a: string, p: string, b: string, q: string) {
    exists w :: b == a + "-" + w && p == w + "-" + q
  }

  lemma LongerNameRunsOn(a: string, p: string, b: string, q: string)
    requires a + "-" + p == b + "-" + q && |a| < |b|
    ensures NamesRunTogether(a, p, b, q)
  {
    var s := a + "-" + p;
    var w := b[|a| + 1..];
    assert s[..|b|] == b && s[|a|] == '-' && s[..|a|] == a;
    assert b == a + "-" + w;
    assert s[|a| + 1..] == p && s[|b|..] == "-" + q;
    assert s[|a| + 1..|b|] == w;
    assert p == w + "-" + q;
  }

  /** When two drivers with different names write the same object. */
  lemma SameObjectIff(a: Driver, p: NodePool, b: Driver, q: NodePool)
    requires a.name != b.name
    ensures ObjectName(a, p) == ObjectName(b, q) <==>
            NamesRunTogether(a.name, p.name, b.name, q.name) || NamesRunTogether(b.name, q.name, a.name, p.name)
  {
    assert ObjectName(a, p)[..|a.name|] == a.name && ObjectName(b, q)[..|b.name|] == b.name;
    if ObjectName(a, p) == ObjectName(b, q) {
      if |a.name| < |b.name| {
        LongerNameRunsOn(a.name, p.name, b.name, q.name);
      } else if |b.name| < |a.name| {
        LongerNameRunsOn(b.name, q.name, a.name, p.name);
      }
    }
    if w :| b.name == a.name + "-" + w && p.name == w + "-" + q.name {
      assert a.name + "-" + (w + "-" + q.name) == a.name + "-" + w + "-" + q.name;
    }
    if w :| a.name == b.name + "-" + w && q.name == w + "-" + p.name {
      assert b.name + "-" + (w + "-" + p.name) == b.name + "-" + w + "-" + p.name;
    }
  }

  /** Two accepted drivers that have to write one DaemonSet. */
  ghost predicate Clash(cluster: seq<Node>, a: Driver, p: NodePool, b: Driver, q: NodePool) {
    && AllAccepted(cluster, [a, b]) && UniqueNames([a, b]) && a.name != b.name
    && PoolOfCluster(cluster, a.spec.nodeSelector, p) && BuildDaemonSet(a, p).Ok?
    && PoolOfCluster(cluster, b.spec.nodeSelector, q) && BuildDaemonSet(b, q).Ok?
    && ObjectName(a, p) == ObjectName(b, q)
  }

  ghost predicate CanClash(x: string, y: string) {
    exists cluster, a: Driver, p, b: Driver, q :: a.name == x && b.name == y && Clash(cluster, a, p, b, q)
  }

  ghost predicate Extends(x: string, y: string) { exists w :: y == x + "-" + w }

  /** Which driver names are safe: drivers named `x` and `y` can be accepted side by
      side and clash, in some cluster, exactly if one name is the other followed by
      a dash and more. */
  lemma CanClashIff(x: string, y: string)
    requires x != y
    ensures CanClash(x, y) <==> Extends(x, y) || Extends(y, x)
  {
    if CanClash(x, y) {
      var cluster, a: Driver, p, b: Driver, q :| a.name == x && b.name == y && Clash(cluster, a, p, b, q);
      SameObjectIff(a, p, b, q);
    } else if w :| y == x + "-" + w {
      var cluster, a, p, b, q := ClashOf(x, w);
    } else if w :| x == y + "-" + w {
      var cluster, b, q, a, p := ClashOf(y, w);
      ClashIsSymmetric(cluster, b, q, a, p);
    }
  }

  lemma ClashIsSymmetric(cluster: seq<Node>, a: Driver, p: NodePool, b: Driver, q: NodePool)
    requires Clash(cluster, a, p, b, q)
    ensures Clash(cluster, b, q, a, p)
  {
    forall d | d in [b, a] ensures Validate(cluster, [b, a], d, false, false).Accepted? {
      ValidateIff(cluster, [a, b], d, false, false);
      ValidateIff(cluster, [b, a], d, false, false);
      var nodes := ListNodes(cluster, GetNodeSelector(d));
      forall e, n ensures !Overlap(nodes, [b, a], d, e, n) {
        assert !Overlap(nodes, [a, b], d, e, n);
      }
    }
  }

  const PICK: string := "k"

  /** The labels of a node with that operating system, for the driver that picks
      `value`. */
  function PickedLabels(id: string, value: string): LabelMap {
    map[DEPLOY := "true", OS_ID := id, OS_VERSION := "9", KERNEL := "5", PICK := value]
  }

  lemma PickedByOne(id: string, value: string, other: string)
    requires value != other
    ensures !Selects(map[PICK := value], PickedLabels(id, other))
  {
    assert PICK in map[PICK := value] && PickedLabels(id, other)[PICK] == other;
  }

  lemma PickedPool(cluster: seq<Node>, value: string, n: Node, id: string) returns (p: NodePool)
    requires n in cluster && n.labels == PickedLabels(id, value)
    requires forall m :: m in cluster && m != n ==> !Selects(map[PICK := value], m.labels)
    ensures PoolOfCluster(cluster, map[PICK := value], p)
    ensures p.name == PoolName(id, "9", "5") && p.OS() == id + "9" && p.kernel == "5"
  {
    WatchedKeysDiffer();
    assert |PICK| == 1 && |DEPLOY| > 1 && |OS_ID| > 1 && |OS_VERSION| > 1 && |KERNEL| > 1;
    var selector := map[PICK := value];
    assert Eligible(cluster, selector, n);
    p := EligibleNodeHasPool(cluster, selector, n);
    var m := PoolComesFromNode(cluster, selector, p);
    assert PICK in BuildNodeSelector(selector) && BuildNodeSelector(selector)[PICK] == value;
    assert m == n;
  }

  /** Nodes of two operating systems, one named with the other's end. */
  lemma ClashOf(x: string, w: string) returns (cluster: seq<Node>, a: Driver, p: NodePool, b: Driver, q: NodePool)
    ensures a.name == x && b.name == x + "-" + w && Clash(cluster, a, p, b, q)
  {
    var m, n := Node("m", PickedLabels(w + "-b", "1")), Node("n", PickedLabels("b", "2"));
    cluster := [m, n];
    a := Driver(x, "", DriverSpec("r", "i", "1", map[PICK := "1"]));
    b := Driver(x + "-" + w, "", DriverSpec("r", "i", "1", map[PICK := "2"]));
    PickedByOne("b", "1", "2");
    PickedByOne(w + "-b", "2", "1");
    p := PickedPool(cluster, "1", m, w + "-b");
    q := PickedPool(cluster, "2", n, "b");
    PlainImage(a.spec, p.OS(), p.kernel);
    PlainImage(b.spec, q.OS(), q.kernel);
    assert |a.name| != |b.name|;
    BothAccepted(cluster, a, b, PICK);
    NamesOfClash(x, w);
  }

  lemma NamesOfClash(x: string, w: string)
    ensures x + "-" + PoolName(w + "-b", "9", "5") == x + "-" + w + "-" + PoolName("b", "9", "5")
  {
    var t := "9" + "-" + KernelName.Sanitize("5");
    assert PoolName("b", "9", "5") == "b" + t;
    assert PoolName(w + "-b", "9", "5") == w + "-b" + t;
    assert x + "-" + (w + "-b" + t) == x + "-" + w + "-" + ("b" + t);
  }

  /** Once one of them has written it, the other's pass is blocked. */
  lemma ClashBlocks(objects: Objects, cluster: seq<Node>, a: Driver, p: NodePool, b: Driver, q: NodePool)
    requires Clash(cluster, a, p, b, q) && InStore(objects, a, p)
    ensures Blocked(objects, cluster, b)
  {
    assert HeldByAnother(objects, b, ObjectName(b, q));
  }

  // ---------- the passes themselves ----------

  ghost predicate InStore(objects: Objects, d: Driver, p: NodePool) {
    var ds := BuildDaemonSet(d, p);
    ds.Ok? && ObjectName(d, p) in objects && objects[ObjectName(d, p)] == ds.value
  }

  ghost predicate WroteAtMost(before: Objects, after: Objects, d: Driver, p: NodePool) {
    var ds := BuildDaemonSet(d, p);
    || after == before
    || (ds.Ok? && !HeldByAnother(before, d, ObjectName(d, p)) && after == before[ObjectName(d, p) := ds.value])
  }

  /** Writing its own objects changes nothing about who holds what. */
  lemma PatchKeepsHolders(before: Objects, now: Objects, cluster: seq<Node>, d: Driver, k: string)
    requires PatchedBy(before, now, cluster, d)
    ensures HeldByAnother(now, d, k) <==> HeldByAnother(before, d, k)
    ensures HeldByAnother(before, d, k) ==> now[k] == before[k]
  {
    if k in now && BuiltFrom(cluster, d, now[k]) {
      var p := PoolBehind(cluster, d, now[k]);
    }
  }

  lemma WriteKeepsPatched(before: Objects, mid: Objects, after: Objects, cluster: seq<Node>, d: Driver, p: NodePool)
    requires PatchedBy(before, mid, cluster, d) && PoolOfCluster(cluster, d.spec.nodeSelector, p)
    requires WroteAtMost(mid, after, d, p)
    ensures PatchedBy(before, after, cluster, d)
  {
    if after != mid {
      assert BuiltFrom(cluster, d, BuildDaemonSet(d, p).value);
      PatchKeepsHolders(before, mid, cluster, d, ObjectName(d, p));
    }
  }

  /** Pools of different names write different objects. */
  lemma WriteKeepsOthers(before: Objects, after: Objects, d: Driver, q: NodePool, p: NodePool)
    requires InStore(before, d, q) && p.name != q.name && WroteAtMost(before, after, d, p)
    ensures InStore(after, d, q)
  {
    if ObjectName(d, q) == ObjectName(d, p) {
      PoolNamesGiveObjectNames(d.name, q.name, p.name);
    }
  }

  ghost predicate AllInStore(objects: Objects, d: Driver, pools: seq<NodePool>) {
    forall j :: 0 <= j < |pools| ==> InStore(objects, d, pools[j])
  }

  lemma WriteKeepsEarlier(before: Objects, after: Objects, d: Driver, pools: seq<NodePool>, i: nat)
    requires i < |pools| && DistinctNames(pools) && AllInStore(before, d, pools[..i])
    requires WroteAtMost(before, after, d, pools[i]) && InStore(after, d, pools[i])
    ensures AllInStore(after, d, pools[..i + 1])
  {
    forall j | 0 <= j < i ensures InStore(after, d, pools[j]) {
      assert pools[..i][j] == pools[j];
      WriteKeepsOthers(before, after, d, pools[j], pools[i]);
    }
  }

  ghost predicate AllBuildable(cluster: seq<Node>, d: Driver) {
    forall p :: PoolOfCluster(cluster, d.spec.nodeSelector, p) ==> BuildDaemonSet(d, p).Ok?
  }

  /** Some DaemonSet that `d` has to write is held by another driver. */
  ghost predicate Blocked(objects: Objects, cluster: seq<Node>, d: Driver) {
    exists p :: PoolOfCluster(cluster, d.spec.nodeSelector, p) && HeldByAnother(objects, d, ObjectName(d, p))
  }

  ghost predicate AllPoolsInStore(objects: Objects, cluster: seq<Node>, d: Driver) {
    forall p :: PoolOfCluster(cluster, d.spec.nodeSelector, p) ==> InStore(objects, d, p)
  }

  /** That is: it exists and names another driver as its controller. */
  lemma BlockedIff(objects: Objects, cluster: seq<Node>, d: Driver)
    ensures Blocked(objects, cluster, d) <==>
            exists p, other :: PoolOfCluster(cluster, d.spec.nodeSelector, p) && other != d.name
                               && Owned(objects, d.name + "-" + p.name, other)
  {
    if p :| PoolOfCluster(cluster, d.spec.nodeSelector, p) && HeldByAnother(objects, d, ObjectName(d, p)) {
      assert Owned(objects, d.name + "-" + p.name, objects[ObjectName(d, p)].controller.value);
    }
    if p, other :| PoolOfCluster(cluster, d.spec.nodeSelector, p) && other != d.name
                   && Owned(objects, d.name + "-" + p.name, other) {
      assert HeldByAnother(objects, d, ObjectName(d, p));
    }
  }

  ghost predicate Owned(objects: Objects, k: string, owner: string) {
    k in objects && objects[k].controller == Some(owner)
  }

  /** How a pass, or the part of it over `pools`, may end. */
  ghost predicate PassEnds(before: Objects, now: Objects, cluster: seq<Node>, d: Driver, o: Outcome) {
    && PatchedBy(before, now, cluster, d)
    && (o == Done ==> AllPoolsInStore(now, cluster, d) && !Blocked(before, cluster, d))
    && (o == Exited ==> Blocked(before, cluster, d))
  }

  lemma DonePassWasNotBlocked(before: Objects, now: Objects, cluster: seq<Node>, d: Driver)
    requires PatchedBy(before, now, cluster, d) && AllPoolsInStore(now, cluster, d)
    ensures !Blocked(before, cluster, d)
  {
    forall p | PoolOfCluster(cluster, d.spec.nodeSelector, p) ensures !HeldByAnother(before, d, ObjectName(d, p)) {
      assert InStore(now, d, p);
      PatchKeepsHolders(before, now, cluster, d, ObjectName(d, p));
    }
  }

  /** The DaemonSets of the operator namespace. While the server is healthy no
      call fails. */
  class DaemonSetStore {
    var objects: Objects
    var healthy: bool

    constructor (healthy: bool)
      ensures objects == map[] && this.healthy == healthy
    {
      objects := map[];
      this.healthy := healthy;
    }

    /** One handleDaemonSet: a driver without an image is an error, a DaemonSet of
        another driver ends the process, and a call may fail before or after it
        took effect on the server. */
    method HandleDaemonSet(d: Driver, p: NodePool) returns (o: Outcome)
      modifies this`objects
      ensures WroteAtMost(old(objects), objects, d, p)
      ensures o == Done ==> InStore(objects, d, p)
      ensures o == Exited ==> HeldByAnother(old(objects), d, ObjectName(d, p))
      ensures HeldByAnother(old(objects), d, ObjectName(d, p)) ==> o != Done
      ensures healthy && BuildDaemonSet(d, p).Ok? ==> o != Failed
    {
      var ds := BuildDaemonSet(d, p);
      if ds.Err? {
        return Failed;
      }
      var readFails: bool, applied: bool, reported: bool := *, *, *;
      if readFails && !healthy {
        return Failed;
      }
      if HeldByAnother(objects, d, ds.value.name) {
        return Exited;
      }
      applied, reported := applied || healthy, reported || healthy;
      if applied {
        objects := objects[ds.value.name := ds.value];
      }
      return if applied && reported then Done else Failed;
    }

    /** The pool loop of Patch. */
    method HandlePools(d: Driver, cluster: seq<Node>, pools: seq<NodePool>) returns (o: Outcome)
      requires DistinctNames(pools)
      requires forall i :: 0 <= i < |pools| ==> PoolOfCluster(cluster, d.spec.nodeSelector, pools[i])
      modifies this`objects
      ensures PatchedBy(old(objects), objects, cluster, d)
      ensures o == Done ==> AllInStore(objects, d, pools)
      ensures o == Exited ==> Blocked(old(objects), cluster, d)
      ensures healthy && AllBuildable(cluster, d) ==> o != Failed
    {
      for i := 0 to |pools|
        invariant PatchedBy(old(objects), objects, cluster, d)
        invariant AllInStore(objects, d, pools[..i])
      {
        ghost var before := objects;
        o := HandleDaemonSet(d, pools[i]);
        WriteKeepsPatched(old(objects), before, objects, cluster, d, pools[i]);
        PatchKeepsHolders(old(objects), before, cluster, d, ObjectName(d, pools[i]));
        if o != Done {
          return;
        }
        WriteKeepsEarlier(before, objects, d, pools, i);
      }
      assert pools[..|pools|] == pools;
      return Done;
    }

    /** Patch: the shared objects, the pools of the snapshot, then their
        DaemonSets; any call may fail. */
    method Patch(d: Driver, cluster: seq<Node>) returns (o: Outcome)
      modifies this`objects
      ensures PassEnds(old(objects), objects, cluster, d, o)
      ensures healthy ==> (o == Done <==> AllBuildable(cluster, d) && !Blocked(old(objects), cluster, d))
      ensures healthy && AllBuildable(cluster, d) && Blocked(old(objects), cluster, d) ==> o == Exited
    {
      var shared: bool, listFails: bool := *, *;
      shared, listFails := shared || healthy, listFails && !healthy;
      if !shared {
        return Failed;
      }
      var pools := GetNodePools(cluster, d.spec.nodeSelector, listFails);
      if pools.Err? {
        return Failed;
      }
      assert forall i :: 0 <= i < |pools.value| ==> pools.value[i] in pools.value;
      o := HandlePools(d, cluster, pools.value);
      if o == Done {
        DonePassWasNotBlocked(old(objects), objects, cluster, d);
      }
    }

    /** The gates of the driver reconciler, in their order: `found` is the driver
        of the request, if it still exists. `patched` is how its Patch ended, if
        it came to that; `ok` says that no error was returned. */
    method Reconcile(found: Option<Driver>, fetchFails: bool, cluster: seq<Node>, drivers: seq<Driver>,
                     policies: nat, policiesFail: bool, nodesFail: bool, driversFail: bool, scopeFails: bool)
      returns (patched: Option<Outcome>, ok: bool)
      modifies this`objects
      ensures var accepted := && !fetchFails && found.Some? && !policiesFail && policies > 0
                              && Validate(cluster, drivers, found.value, nodesFail, driversFail).Accepted?;
              && (patched.Some? <==> accepted && !scopeFails)
              && (patched.None? ==>
                    objects == old(objects) && (ok <==> !accepted && !fetchFails && (found.None? || !policiesFail)))
      ensures patched.Some? ==>
                && PassEnds(old(objects), objects, cluster, found.value, patched.value)
                && (ok <==> patched.value == Done)
      ensures patched.Some? && healthy ==>
                && (ok <==> AllBuildable(cluster, found.value) && !Blocked(old(objects), cluster, found.value))
                && (AllBuildable(cluster, found.value) && !ok ==> patched.value == Exited)
    {
      if fetchFails {
        return None, false;
      }
      if found.None? {
        return None, true;
      }
      if policiesFail {
        return None, false;
      }
      if policies == 0 {
        return None, true;
      }
      if !Validate(cluster, drivers, found.value, nodesFail, driversFail).Accepted? {
        return None, true;
      }
      if scopeFails {
        return None, false;
      }
      var o := Patch(found.value, cluster);
      return Some(o), o == Done;
    }
  }
}
