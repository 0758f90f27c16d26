/** LabelRblnNodes: the pass that marks device nodes and gives them the deploy
    labels of their workload. */
module NodeLabelling {
  import opened Labels

  const RBLN: string := "rebellions.ai/"
  const PRESENT: string := RBLN + "npu.present"
  const WORKLOAD: string := RBLN + "npu.workload.config"
  const DEPLOY: string := RBLN + "npu.deploy."
  const NFD: string := "feature.node.kubernetes.io/"
  const DEVICE_KEYS: set<string> := {NFD + "pci-1200_1eff.present", NFD + "pci-1eff.present"}

  const CONTAINER: string := "container"
  const VM: string := "vm-passthrough"

  const CONTAINER_KEYS: set<string> := {
    DEPLOY + "driver", DEPLOY + "device-plugin", DEPLOY + "metrics-exporter", DEPLOY + "rbln-daemon",
    DEPLOY + "npu-feature-discovery", DEPLOY + "operator-validator", DEPLOY + "container-toolkit"}

  const VM_KEYS: set<string> := {DEPLOY + "vfio-manager", DEPLOY + "sandbox-device-plugin"}

  /** The keys of rblnComponentLabels[config]; a config outside the map has none. */
  function Family(config: string): set<string> {
    if config == CONTAINER then CONTAINER_KEYS else if config == VM then VM_KEYS else {}
  }

  const COMPONENT_KEYS: set<string> := CONTAINER_KEYS + VM_KEYS

  lemma DeviceKeyShape(k: string)
    requires k in DEVICE_KEYS
    ensures k[0] == 'f' && NFD <= k
  {
    assert NFD[0] == 'f';
  }

  lemma ComponentKeyShape(k: string)
    requires k in COMPONENT_KEYS
    ensures DEPLOY <= k && RBLN <= k && k[0] == 'r' && |k| >= 31 && |k| != |WORKLOAD|
  {
    assert RBLN[0] == 'r' && |DEPLOY| == 25 && |WORKLOAD| == 33;
  }

  lemma Initial(head: string, tail: string)
    requires tail != ""
    ensures |head| < |head + tail| && (head + tail)[|head|] == tail[0]
  {
  }

  lemma ContainerKeyInitial(k: string)
    requires k in CONTAINER_KEYS
    ensures |DEPLOY| < |k| && k[|DEPLOY|] != 'v' && k[|DEPLOY|] != 's'
  {
    Initial(DEPLOY, "driver");
    Initial(DEPLOY, "device-plugin");
    Initial(DEPLOY, "metrics-exporter");
    Initial(DEPLOY, "rbln-daemon");
    Initial(DEPLOY, "npu-feature-discovery");
    Initial(DEPLOY, "operator-validator");
    Initial(DEPLOY, "container-toolkit");
  }

  lemma VMKeyInitial(k: string)
    requires k in VM_KEYS
    ensures |DEPLOY| < |k| && (k[|DEPLOY|] == 'v' || k[|DEPLOY|] == 's')
  {
    Initial(DEPLOY, "vfio-manager");
    Initial(DEPLOY, "sandbox-device-plugin");
  }

  lemma FamiliesAreApart()
    ensures CONTAINER_KEYS !! VM_KEYS
  {
    forall k | k in CONTAINER_KEYS ensures k !in VM_KEYS {
      ContainerKeyInitial(k);
      if k in VM_KEYS {
        VMKeyInitial(k);
      }
    }
  }

  lemma ComponentKeyApart(k: string)
    requires k in COMPONENT_KEYS
    ensures k != PRESENT && k != WORKLOAD
  {
    ComponentKeyShape(k);
    assert |PRESENT| == 25;
  }

  lemma DeviceKeyApart(k: string)
    requires k in DEVICE_KEYS
    ensures k !in COMPONENT_KEYS && k != PRESENT && k != WORKLOAD
  {
    DeviceKeyShape(k);
    if k in COMPONENT_KEYS {
      ComponentKeyShape(k);
    }
    assert PRESENT[0] == 'r' && WORKLOAD[0] == 'r';
  }

  lemma KeysAreApart()
    ensures CONTAINER_KEYS !! VM_KEYS
    ensures PRESENT !in COMPONENT_KEYS && WORKLOAD !in COMPONENT_KEYS && PRESENT != WORKLOAD
    ensures DEVICE_KEYS !! COMPONENT_KEYS && PRESENT !in DEVICE_KEYS && WORKLOAD !in DEVICE_KEYS
    ensures RBLN <= PRESENT
  {
    FamiliesAreApart();
    forall k | k in COMPONENT_KEYS ensures k != PRESENT && k != WORKLOAD {
      ComponentKeyApart(k);
    }
    forall k | k in DEVICE_KEYS ensures k !in COMPONENT_KEYS && k != PRESENT && k != WORKLOAD {
      DeviceKeyApart(k);
    }
    assert |PRESENT| != |WORKLOAD|;
  }

  // ---------- one node ----------

  predicate IsPresent(labels: LabelMap) {
    PRESENT in labels && labels[PRESENT] == "true"
  }

  predicate HasDevice(labels: LabelMap) {
    exists k :: k in DEVICE_KEYS && k in labels && labels[k] == "true"
  }

  predicate HasNFDLabels(labels: LabelMap) {
    exists k :: k in labels && NFD <= k
  }

  function WorkloadConfig(labels: LabelMap, default: string): string {
    if WORKLOAD in labels && (labels[WORKLOAD] == CONTAINER || labels[WORKLOAD] == VM) then labels[WORKLOAD]
    else default
  }

  /** The labels after the present label has followed the device label. */
  function Marked(labels: LabelMap): LabelMap {
    if !IsPresent(labels) && HasDevice(labels) then labels[PRESENT := "true"]
    else if IsPresent(labels) && !HasDevice(labels) then labels[PRESENT := "false"] - COMPONENT_KEYS
    else labels
  }

  /** The labels with exactly the component keys of `config`. */
  function WithFamily(labels: LabelMap, config: string): LabelMap {
    (map k | k in Family(config) && k !in labels :: "true") + (labels - (COMPONENT_KEYS - Family(config)))
  }

  /** What one error-free pass makes of a node. */
  function Target(labels: LabelMap, default: string): LabelMap {
    var m := Marked(labels);
    if IsPresent(m) then WithFamily(m, WorkloadConfig(m, default)) else m
  }

  lemma FamilyInComponents(config: string)
    ensures Family(config) <= COMPONENT_KEYS
  {
  }

  lemma MarkedMeaning(labels: LabelMap)
    ensures var m := Marked(labels);
            && HasDevice(m) == HasDevice(labels) && (IsPresent(m) <==> HasDevice(labels))
            && (forall d :: WorkloadConfig(m, d) == WorkloadConfig(labels, d))
            && (HasDevice(labels) ==> m.Keys == labels.Keys + {PRESENT})
            && (forall k :: k != PRESENT && k !in COMPONENT_KEYS ==>
                 (k in m <==> k in labels) && (k in m ==> m[k] == labels[k]))
  {
    KeysAreApart();
    var m := Marked(labels);
    assert forall k :: k in DEVICE_KEYS ==> (k in m <==> k in labels) && (k in m ==> m[k] == labels[k]);
  }

  /** The pass, key by key. */
  lemma TargetMeaning(labels: LabelMap, default: string)
    ensures var t := Target(labels, default);
            && (IsPresent(t) <==> HasDevice(labels))
            && HasDevice(t) == HasDevice(labels)
            && (HasDevice(labels) ==> t.Keys * COMPONENT_KEYS == Family(WorkloadConfig(labels, default)))
            && (HasDevice(labels) ==> forall k :: k in COMPONENT_KEYS && k in t ==>
                 t[k] == if k in labels then labels[k] else "true")
            && (IsPresent(labels) && !HasDevice(labels) ==> t.Keys !! COMPONENT_KEYS && t[PRESENT] == "false")
            && (!IsPresent(labels) && !HasDevice(labels) ==> t == labels)
            && (forall k :: k != PRESENT && k !in COMPONENT_KEYS ==>
                 (k in t <==> k in labels) && (k in t ==> t[k] == labels[k]))
  {
    KeysAreApart();
    MarkedMeaning(labels);
    var m := Marked(labels);
    var t := Target(labels, default);
    if HasDevice(labels) {
      var config := WorkloadConfig(m, default);
      FamilyInComponents(config);
      WithFamilyMeaning(m, config);
      assert forall k :: k in COMPONENT_KEYS ==> (k in m <==> k in labels);
    }
    assert forall k :: k in DEVICE_KEYS ==> (k in t <==> k in m) && (k in t ==> t[k] == m[k]);
  }

  /** The labels the pass reads and writes, spelled out. */
  lemma KeysSpelled()
    ensures PRESENT == "rebellions.ai/npu.present" && WORKLOAD == "rebellions.ai/npu.workload.config"
    ensures DEVICE_KEYS == {"feature.node.kubernetes.io/pci-1200_1eff.present",
                            "feature.node.kubernetes.io/pci-1eff.present"}
    ensures DEPLOY == "rebellions.ai/npu.deploy."
  {
    DeviceKeysSpelled();
  }

  lemma DeviceKeysSpelled()
    ensures NFD + "pci-1200_1eff.present" == "feature.node.kubernetes.io/pci-1200_1eff.present"
    ensures NFD + "pci-1eff.present" == "feature.node.kubernetes.io/pci-1eff.present"
  {
  }

  /** A device is found by either of the two discovery labels. */
  lemma DeviceIff(labels: LabelMap)
    ensures HasDevice(labels) <==>
            || Lookup(labels, "feature.node.kubernetes.io/pci-1200_1eff.present") == "true"
            || Lookup(labels, "feature.node.kubernetes.io/pci-1eff.present") == "true"
  {
    DeviceKeysSpelled();
  }

  /** The deploy labels of a node after a pass follow its own workload label; only
      a label that names neither workload leaves them to the default. */
  lemma WorkloadDecides(labels: LabelMap, default: string)
    requires HasDevice(labels)
    ensures Target(labels, default).Keys * COMPONENT_KEYS ==
            var own := Lookup(labels, "rebellions.ai/npu.workload.config");
            if own == "container" then CONTAINER_KEYS
            else if own == "vm-passthrough" then VM_KEYS
            else if default == "container" then CONTAINER_KEYS
            else if default == "vm-passthrough" then VM_KEYS
            else {}
  {
    TargetMeaning(labels, default);
    WorkloadKeySpelled();
    FamilyOfChoice(Lookup(labels, WORKLOAD), default);
    assert WorkloadConfig(labels, default) == Choice(Lookup(labels, WORKLOAD), default);
  }

  lemma WorkloadKeySpelled()
    ensures WORKLOAD == "rebellions.ai/npu.workload.config"
  {
  }

  function Choice(own: string, default: string): string {
    if own == "container" || own == "vm-passthrough" then own else default
  }

  lemma FamilyOfChoice(own: string, default: string)
    ensures Family(Choice(own, default)) ==
            if own == "container" then CONTAINER_KEYS
            else if own == "vm-passthrough" then VM_KEYS
            else if default == "container" then CONTAINER_KEYS
            else if default == "vm-passthrough" then VM_KEYS
            else {}
  {
    assert |CONTAINER| == 9 && |VM| == 14;
  }

  lemma WithFamilyMeaning(labels: LabelMap, config: string)
    ensures var t := WithFamily(labels, config);
            && t.Keys * COMPONENT_KEYS == Family(config)
            && (forall k :: k in Family(config) ==> t[k] == if k in labels then labels[k] else "true")
            && (forall k :: k !in COMPONENT_KEYS ==> (k in t <==> k in labels) && (k in t ==> t[k] == labels[k]))
  {
    FamilyInComponents(config);
  }

  lemma WithFamilyFixed(labels: LabelMap, config: string)
    requires labels.Keys * COMPONENT_KEYS == Family(config)
    ensures WithFamily(labels, config) == labels
  {
    WithFamilyMeaning(labels, config);
    FamilyInComponents(config);
  }

  lemma TargetIdempotent(labels: LabelMap, default: string)
    ensures Target(Target(labels, default), default) == Target(labels, default)
  {
    KeysAreApart();
    TargetMeaning(labels, default);
    var t := Target(labels, default);
    if IsPresent(t) {
      assert WorkloadConfig(t, default) == WorkloadConfig(labels, default);
      WithFamilyFixed(t, WorkloadConfig(t, default));
    }
  }

  /** rblnNodeLabelUpdated, for an update of one node. */
  predicate Wakes(before: LabelMap, after: LabelMap) {
    WithPrefix(before, RBLN) != WithPrefix(after, RBLN)
  }

  /** The predicate, said of the labels: one with the prefix came, went or changed. */
  lemma WakesIff(before: LabelMap, after: LabelMap)
    ensures Wakes(before, after) <==>
            exists k :: "rebellions.ai/" <= k && (k in before || k in after)
                        && !(k in before && k in after && before[k] == after[k])
  {
    var (b, a) := (WithPrefix(before, RBLN), WithPrefix(after, RBLN));
    if k :| "rebellions.ai/" <= k && (k in before || k in after) && !(k in before && k in after && before[k] == after[k]) {
      assert (k in b <==> k in before) && (k in a <==> k in after);
    } else {
      assert b == a;
    }
  }

  /** The predicate lets through the pass's real changes and nothing else: a
      rewrite of unchanged labels is dropped, a changed node is not missed. */
  lemma WakesIffChanged(labels: LabelMap, default: string)
    ensures Wakes(labels, Target(labels, default)) <==> Target(labels, default) != labels
  {
    KeysAreApart();
    TargetMeaning(labels, default);
    var t := Target(labels, default);
    if !Wakes(labels, t) {
      var a, b := WithPrefix(labels, RBLN), WithPrefix(t, RBLN);
      forall k | k == PRESENT || k in COMPONENT_KEYS
        ensures (k in labels <==> k in t) && (k in t ==> labels[k] == t[k])
      {
        if k in COMPONENT_KEYS { ComponentKeyShape(k); }
        assert k in labels <==> k in a;
        assert k in t <==> k in b;
        assert k in a ==> a[k] == labels[k];
        assert k in b ==> b[k] == t[k];
      }
      assert t == labels;
    }
  }

  lemma UnwokenLabels(before: LabelMap, after: LabelMap, k: string)
    requires !Wakes(before, after) && RBLN <= k
    ensures k in before <==> k in after
    ensures k in before ==> before[k] == after[k]
  {
    var (b, a) := (WithPrefix(before, RBLN), WithPrefix(after, RBLN));
    assert (k in b <==> k in before) && (k in a <==> k in after);
    if k in before { assert b[k] == before[k]; }
    if k in after { assert a[k] == after[k]; }
  }

  /** The labels the operator writes have the prefix the predicate looks at. */
  lemma OwnKeysArePrefixed()
    ensures RBLN <= PRESENT && RBLN <= WORKLOAD && forall k :: k in COMPONENT_KEYS ==> RBLN <= k
  {
    forall k | k in COMPONENT_KEYS ensures RBLN <= k {
      ComponentKeyShape(k);
    }
  }

  /** Before and after a change that does not wake the reconciler, with the device
      there or gone in both: a pass gives the operator's keys the same values. */
  lemma UnwokenTargets(before: LabelMap, after: LabelMap, default: string, k: string)
    requires !Wakes(before, after) && HasDevice(before) == HasDevice(after) && RBLN <= k
    ensures var (b, a) := (Target(before, default), Target(after, default));
            (k in b <==> k in a) && (k in b ==> b[k] == a[k])
  {
    KeysAreApart();
    OwnKeysArePrefixed();
    UnwokenLabels(before, after, k);
    UnwokenLabels(before, after, PRESENT);
    UnwokenLabels(before, after, WORKLOAD);
    TargetMeaning(before, default);
    TargetMeaning(after, default);
    var (b, a) := (Target(before, default), Target(after, default));
    assert WorkloadConfig(before, default) == WorkloadConfig(after, default);
    if k in COMPONENT_KEYS && HasDevice(before) {
      assert k in b <==> k in b.Keys * COMPONENT_KEYS;
      assert k in a <==> k in a.Keys * COMPONENT_KEYS;
    } else if k in COMPONENT_KEYS && IsPresent(before) {
      assert k !in b.Keys * COMPONENT_KEYS && k !in a.Keys * COMPONENT_KEYS;
    }
  }

  /** What the predicate costs: a change by others that does not wake the
      reconciler would have led the next pass to other labels exactly if a device
      came or went with it. */
  lemma MissedChangeIff(before: LabelMap, after: LabelMap, default: string)
    requires !Wakes(before, after)
    ensures Wakes(Target(before, default), Target(after, default)) <==> HasDevice(before) != HasDevice(after)
  {
    var (b, a) := (Target(before, default), Target(after, default));
    TargetMeaning(before, default);
    TargetMeaning(after, default);
    OwnKeysArePrefixed();
    if HasDevice(before) == HasDevice(after) {
      forall k | RBLN <= k ensures (k in b <==> k in a) && (k in b ==> b[k] == a[k]) {
        UnwokenTargets(before, after, default, k);
      }
      SamePrefixed(b, a);
    } else if !Wakes(b, a) {
      UnwokenLabels(b, a, PRESENT);
    }
  }

  lemma SamePrefixed(b: LabelMap, a: LabelMap)
    requires forall k :: RBLN <= k ==> (k in b <==> k in a) && (k in b ==> b[k] == a[k])
    ensures !Wakes(b, a)
  {
    assert WithPrefix(b, RBLN) == WithPrefix(a, RBLN);
  }

  /** So a node that a pass had settled is out of date after such a change exactly
      if a device came or went. */
  lemma SettledNodeIsStaleIff(before: LabelMap, after: LabelMap, default: string)
    requires Target(before, default) == before && !Wakes(before, after)
    ensures Target(after, default) != after <==> HasDevice(before) != HasDevice(after)
  {
    MissedChangeIff(before, after, default);
    WakesIffChanged(after, default);
  }

  /** Such a change: the discovery label of a settled node goes away, nothing wakes
      the reconciler, and the deploy labels stay behind. */
  lemma LostDeviceGoesUnseen(default: string) returns (before: LabelMap, after: LabelMap)
    ensures Target(before, default) == before && !Wakes(before, after)
    ensures IsPresent(after) && !HasDevice(after) && Target(after, default) != after
  {
    KeysAreApart();
    var k :| k in DEVICE_KEYS;
    var bare := map[k := "true"];
    before := Target(bare, default);
    TargetIdempotent(bare, default);
    TargetMeaning(bare, default);
    after := before - DEVICE_KEYS;
    DeviceKeysAreOutside(before);
    assert HasDevice(before) && IsPresent(after) && !HasDevice(after);
    SettledNodeIsStaleIff(before, after, default);
  }

  lemma DeviceKeysAreOutside(labels: LabelMap)
    ensures !Wakes(labels, labels - DEVICE_KEYS)
  {
    var (b, a) := (WithPrefix(labels, RBLN), WithPrefix(labels - DEVICE_KEYS, RBLN));
    forall k | k in DEVICE_KEYS ensures !(RBLN <= k) {
      DeviceKeyShape(k);
      assert RBLN[0] == 'r';
    }
    assert b == a;
  }

  // ---------- whole runs ----------

  type Cluster = map<string, LabelMap>

  /** Deploy labels of at most one workload, and only where a device is marked. */
  ghost predicate NodeInv(labels: LabelMap) {
    && (!IsPresent(labels) ==> labels.Keys !! COMPONENT_KEYS)
    && exists config :: labels.Keys * COMPONENT_KEYS <= Family(config)
  }

  ghost predicate ClusterInv(c: Cluster) {
    forall n :: n in c ==> NodeInv(c[n])
  }

  /** A pass, complete or stopped by a failed Update: every node has its old
      labels or the pass's. */
  ghost predicate PassEffect(before: Cluster, after: Cluster, default: string) {
    && after.Keys == before.Keys
    && forall n :: n in after ==> after[n] == before[n] || after[n] == Target(before[n], default)
  }

  /** Others may do anything except write the present and the deploy labels;
      nodes that join carry no deploy label. */
  ghost predicate OutsideChange(before: Cluster, after: Cluster) {
    forall n :: n in after ==>
      if n in before then
        forall k :: k == PRESENT || k in COMPONENT_KEYS ==>
          (k in after[n] <==> k in before[n]) && (k in after[n] ==> after[n][k] == before[n][k])
      else after[n].Keys !! COMPONENT_KEYS
  }

  ghost predicate ClusterStep(before: Cluster, after: Cluster) {
    OutsideChange(before, after) || exists default :: PassEffect(before, after, default)
  }

  ghost predicate ClusterRun(run: seq<Cluster>) {
    && |run| > 0
    && (forall n :: n in run[0] ==> run[0][n].Keys !! COMPONENT_KEYS)
    && forall i :: 0 <= i < |run| - 1 ==> ClusterStep(run[i], run[i + 1])
  }

  lemma TargetKeepsInv(labels: LabelMap, default: string)
    requires NodeInv(labels)
    ensures NodeInv(Target(labels, default))
  {
    TargetMeaning(labels, default);
    var t := Target(labels, default);
    if HasDevice(labels) {
      assert t.Keys * COMPONENT_KEYS <= Family(WorkloadConfig(labels, default));
    } else if IsPresent(labels) {
      assert t.Keys * COMPONENT_KEYS <= Family(CONTAINER);
    }
  }

  lemma StepKeepsInv(before: Cluster, after: Cluster)
    requires ClusterInv(before) && ClusterStep(before, after)
    ensures ClusterInv(after)
  {
    if OutsideChange(before, after) {
      forall n | n in after ensures NodeInv(after[n]) {
        if n in before {
          assert after[n].Keys * COMPONENT_KEYS == before[n].Keys * COMPONENT_KEYS;
        } else {
          assert after[n].Keys * COMPONENT_KEYS <= Family(CONTAINER);
        }
      }
    } else {
      var default :| PassEffect(before, after, default);
      forall n | n in after ensures NodeInv(after[n]) {
        TargetKeepsInv(before[n], default);
      }
    }
  }

  /** In every state of every run, whatever passes were cut short. */
  lemma {:induction false} OneWorkloadPerNode(run: seq<Cluster>, i: nat)
    requires ClusterRun(run) && i < |run|
    ensures ClusterInv(run[i])
  {
    if i == 0 {
      forall n | n in run[0] ensures NodeInv(run[0][n]) {
        assert run[0][n].Keys * COMPONENT_KEYS <= Family(CONTAINER);
      }
    } else {
      OneWorkloadPerNode(run, i - 1);
      assert ClusterStep(run[i - 1], run[i - 1 + 1]);
      StepKeepsInv(run[i - 1], run[i]);
    }
  }

  // ---------- the pass ----------

  function Targets(c: Cluster, default: string): Cluster {
    map n | n in c :: Target(c[n], default)
  }

  function DeviceNodes(c: Cluster): set<string> {
    set n | n in c && HasDevice(c[n])
  }

  /** Updates an error-free pass sends: the flag that triggers them is never
      reset, so every node from the first changed one on is rewritten. */
  function UpdatesSent(c: Cluster, order: seq<string>, default: string): nat
    requires forall n :: n in order ==> n in c
  {
    if order == [] then 0
    else if Target(c[order[0]], default) != c[order[0]] then |order|
    else UpdatesSent(c, order[1..], default)
  }

  lemma {:induction false} NoChangeNoUpdates(c: Cluster, order: seq<string>, default: string)
    requires forall n :: n in order ==> n in c
    ensures UpdatesSent(c, order, default) == 0 <==> forall n :: n in order ==> Target(c[n], default) == c[n]
  {
    if order != [] {
      NoChangeNoUpdates(c, order[1..], default);
      assert forall n :: n in order ==> n == order[0] || n in order[1..];
    }
  }

  /** After one error-free pass the next one, in whatever order it lists the
      nodes, sends nothing, and of the first pass's writes exactly the changed
      nodes wake the reconciler. */
  lemma QuietAfterOnePass(c: Cluster, order: seq<string>, default: string)
    requires forall n :: n in order ==> n in c
    ensures UpdatesSent(Targets(c, default), order, default) == 0
    ensures Targets(Targets(c, default), default) == Targets(c, default)
    ensures forall n :: n in c ==> (Wakes(c[n], Targets(c, default)[n]) <==> Targets(c, default)[n] != c[n])
  {
    var t := Targets(c, default);
    forall n | n in c
      ensures Target(t[n], default) == t[n]
      ensures Wakes(c[n], t[n]) <==> t[n] != c[n]
    {
      TargetIdempotent(c[n], default);
      WakesIffChanged(c[n], default);
    }
    NoChangeNoUpdates(t, order, default);
  }

  /** A node as the pass holds it; its label map is changed in place. */
  class NodeObject {
    var labels: LabelMap

    constructor (labels: LabelMap)
      ensures this.labels == labels
    {
      this.labels := labels;
    }

    /** Deletes the keys of `keys` that are not in `keep`, in map order. */
    method DeleteKeys(keys: set<string>, keep: set<string>) returns (modified: bool)
      modifies this
      ensures labels == old(labels) - (keys - keep)
      ensures modified <==> labels != old(labels)
    {
      modified := false;
      var todo := keys;
      while todo != {}
        invariant todo <= keys
        invariant labels == old(labels) - (keys - todo - keep)
        invariant modified <==> labels != old(labels)
      {
        var k :| k in todo;
        todo := todo - {k};
        if k !in keep && k in labels {
          assert k in old(labels);
          labels := labels - {k};
          assert k !in labels;
          modified := true;
        }
      }
    }

    /** removeAllRBLNComponentLabels. */
    method RemoveAllComponentLabels()
      modifies this
      ensures labels == old(labels) - COMPONENT_KEYS
    {
      var _ := DeleteKeys(CONTAINER_KEYS, {});
      var _ := DeleteKeys(VM_KEYS, {});
    }

    /** The second loop of updateRBLNComponentLabels: missing keys of the
        effective workload are added, existing values are kept. */
    method AddMissing(keys: set<string>) returns (modified: bool)
      modifies this
      ensures labels == (map k | k in keys && k !in old(labels) :: "true") + old(labels)
      ensures modified <==> labels != old(labels)
    {
      modified := false;
      var todo := keys;
      while todo != {}
        invariant todo <= keys
        invariant labels == (map k | k in keys - todo && k !in old(labels) :: "true") + old(labels)
        invariant modified <==> labels != old(labels)
      {
        var k :| k in todo;
        todo := todo - {k};
        if k !in labels {
          assert k !in old(labels);
          labels := labels[k := "true"];
          assert k in labels;
          modified := true;
        }
      }
    }

    /** The first loop of updateRBLNComponentLabels: the range over the two
        workloads comes in either order. */
    method DeleteOtherWorkloads(config: string) returns (modified: bool)
      modifies this
      ensures labels == old(labels) - (COMPONENT_KEYS - Family(config))
      ensures modified <==> labels != old(labels)
    {
      var vmFirst: bool := *;
      var first, second := if vmFirst then VM else CONTAINER, if vmFirst then CONTAINER else VM;
      var a, b := false, false;
      if first != config {
        a := DeleteKeys(Family(first), Family(config));
      }
      if second != config {
        b := DeleteKeys(Family(second), Family(config));
      }
      modified := a || b;
    }

    method UpdateComponentLabels(config: string) returns (modified: bool)
      modifies this
      ensures labels == WithFamily(old(labels), config)
      ensures modified <==> labels != old(labels)
    {
      var deleted := DeleteOtherWorkloads(config);
      ghost var mid := labels;
      FamilyInComponents(config);
      var added := AddMissing(Family(config));
      modified := deleted || added;
      assert labels == WithFamily(old(labels), config);
      DeleteThenAdd(old(labels), mid, labels, config);
    }

    /** The body of the node loop, up to the Update call. */
    method Relabel(default: string) returns (changed: bool, counted: bool)
      modifies this
      ensures labels == Target(old(labels), default)
      ensures changed <==> labels != old(labels)
      ensures counted <==> HasDevice(old(labels))
    {
      KeysAreApart();
      MarkedMeaning(labels);
      changed, counted := false, false;
      if !IsPresent(labels) && HasDevice(labels) {
        labels := labels[PRESENT := "true"];
        changed := true;
      } else if IsPresent(labels) && !HasDevice(labels) {
        labels := labels[PRESENT := "false"];
        RemoveAllComponentLabels();
        changed := true;
      }
      assert labels == Marked(old(labels));
      ghost var marked := labels;
      if IsPresent(labels) {
        var updated := UpdateComponentLabels(WorkloadConfig(labels, default));
        WithFamilyMeaning(marked, WorkloadConfig(marked, default));
        if updated {
          changed := true;
        }
        counted := true;
      }
    }
  }

  lemma DeleteThenAdd(before: LabelMap, mid: LabelMap, after: LabelMap, config: string)
    requires mid == before - (COMPONENT_KEYS - Family(config))
    requires after == (map k | k in Family(config) && k !in mid :: "true") + mid
    ensures after == before <==> mid == before && after == mid
  {
    if after == before {
      forall k | k in before ensures k in mid {
        assert k in after;
      }
      assert mid == before;
    }
  }

  /** The nodes as the API server holds them, and the number of Update calls.
      While the server is healthy no call fails. */
  class NodeStore {
    var nodes: Cluster
    var updates: nat
    var healthy: bool

    constructor (nodes: Cluster, healthy: bool)
      ensures this.nodes == nodes && updates == 0 && this.healthy == healthy
    {
      this.nodes, this.healthy := nodes, healthy;
      updates := 0;
    }

    /** One turn of the node loop. The Update is sent when this node changed or
        when an earlier one did (`sticky`); it may fail, before or after it took
        effect. */
    method ProcessNode(name: string, default: string, sticky: bool)
      returns (sent: bool, failed: bool, counted: bool, nfd: bool)
      requires name in nodes
      modifies this`nodes, this`updates
      ensures nodes == old(nodes) || nodes == old(nodes)[name := Target(old(nodes)[name], default)]
      ensures healthy ==> !failed
      ensures !failed ==> nodes == old(nodes)[name := Target(old(nodes)[name], default)]
      ensures sent <==> sticky || Target(old(nodes)[name], default) != old(nodes)[name]
      ensures updates == old(updates) + if sent then 1 else 0
      ensures counted <==> HasDevice(old(nodes)[name])
      ensures nfd <==> HasNFDLabels(old(nodes)[name])
    {
      var node := new NodeObject(nodes[name]);
      nfd := HasNFDLabels(node.labels);
      var changed;
      changed, counted := node.Relabel(default);
      sent, failed := sticky || changed, false;
      if sent {
        updates := updates + 1;
        var applied: bool, reported: bool := *, *;
        applied, reported := applied || healthy, reported || healthy;
        if applied {
          nodes := nodes[name := node.labels];
        }
        failed := !(applied && reported);
      } else {
        assert nodes == nodes[name := nodes[name]];
      }
    }

    /** The node loop; the first failed Update ends it. */
    method LabelListed(default: string, order: seq<string>) returns (ok: bool, sticky: bool, nfd: bool, count: nat)
      requires Listing(nodes, order)
      modifies this`nodes, this`updates
      ensures healthy ==> ok
      ensures ok ==> PassState(old(nodes), nodes, order, |order|, default, sticky, nfd, count, updates - old(updates))
      ensures !ok ==> PassEffect(old(nodes), nodes, default)
    {
      ok, sticky, nfd, count := true, false, false, 0;
      for i := 0 to |order|
        invariant PassState(old(nodes), nodes, order, i, default, sticky, nfd, count, updates - old(updates))
      {
        ghost var mid, before := nodes, updates;
        var sent, failed, counted, here := ProcessNode(order[i], default, sticky);
        if failed {
          ProgressIsPassEffect(old(nodes), mid, nodes, order, i, default);
          ok := false;
          return;
        }
        TurnDone(old(nodes), mid, order, i, default, sticky, nfd, count, before - old(updates));
        sticky, nfd, count := sent, nfd || here, count + if counted then 1 else 0;
      }
    }

    /** LabelRblnNodes over the listed order. */
    method LabelRblnNodes(default: string, order: seq<string>, listFails: bool)
      returns (ok: bool, nfd: bool, count: nat)
      requires Listing(nodes, order)
      modifies this`nodes, this`updates
      ensures ok ==> !listFails
      ensures healthy && !listFails ==> ok
      ensures PassEffect(old(nodes), nodes, default)
      ensures ok ==> nodes == Targets(old(nodes), default)
      ensures ok ==> (nfd <==> exists n, k :: n in old(nodes) && k in old(nodes)[n] && "feature.node.kubernetes.io/" <= k)
      ensures ok ==> count == |DeviceNodes(old(nodes))|
      ensures ok ==> updates == old(updates) + UpdatesSent(old(nodes), order, default)
      ensures !ok ==> count == 0
    {
      if listFails {
        return false, false, 0;
      }
      var sticky;
      ok, sticky, nfd, count := LabelListed(default, order);
      if ok {
        PassDone(old(nodes), nodes, order, default, sticky, nfd, count, updates - old(updates));
      } else {
        count := 0;
      }
    }
  }

  /** What the loop of LabelRblnNodes has done after `i` nodes. */
  ghost predicate PassState(before: Cluster, now: Cluster, order: seq<string>, i: nat, default: string,
                            sticky: bool, nfd: bool, count: int, sent: int)
    requires i <= |order| && forall n :: n in order ==> n in before
  {
    && Progress(before, now, order, i, default)
    && (nfd <==> AnyNFD(before, order[..i]))
    && count == CountDevices(before, order[..i])
    && sent == SentSoFar(before, order, i, default, sticky)
  }

  lemma TurnDone(before: Cluster, mid: Cluster, order: seq<string>, i: nat, default: string,
                 sticky: bool, nfd: bool, count: int, sent: int)
    requires i < |order| && Listing(before, order)
    requires PassState(before, mid, order, i, default, sticky, nfd, count, sent)
    ensures var n := order[i];
            var t := Target(before[n], default);
            var sends := sticky || t != before[n];
            && mid[n] == before[n]
            && PassState(before, mid[n := t], order, i + 1, default, sends, nfd || HasNFDLabels(before[n]),
                         count + (if HasDevice(before[n]) then 1 else 0), sent + if sends then 1 else 0)
  {
    assert order[..i + 1] == order[..i] + [order[i]];
    SentStep(before, order, i, default, sticky);
    CountStep(before, order, i);
    ProgressStep(before, mid, order, i, default);
  }

  lemma PassDone(before: Cluster, now: Cluster, order: seq<string>, default: string,
                 sticky: bool, nfd: bool, count: int, sent: int)
    requires Listing(before, order)
    requires PassState(before, now, order, |order|, default, sticky, nfd, count, sent)
    ensures PassEffect(before, now, default) && now == Targets(before, default)
    ensures nfd <==> exists n :: n in before && HasNFDLabels(before[n])
    ensures count == |DeviceNodes(before)|
    ensures sent == UpdatesSent(before, order, default)
  {
    assert order[..|order|] == order;
    PassComplete(before, now, order, default);
    CountIsDeviceNodes(before, order);
  }

  ghost predicate AnyNFD(c: Cluster, order: seq<string>)
    requires forall n :: n in order ==> n in c
  {
    exists n :: n in order && HasNFDLabels(c[n])
  }

  /** The first `i` listed nodes have been relabelled, the others not. */
  ghost predicate Progress(before: Cluster, now: Cluster, order: seq<string>, i: nat, default: string)
    requires i <= |order| && forall n :: n in order ==> n in before
  {
    && now.Keys == before.Keys
    && (forall j :: 0 <= j < i ==> now[order[j]] == Target(before[order[j]], default))
    && (forall j :: i <= j < |order| ==> now[order[j]] == before[order[j]])
  }

  ghost predicate Listing(c: Cluster, order: seq<string>) {
    && (forall n :: n in order <==> n in c)
    && forall i, j :: 0 <= i < j < |order| ==> order[i] != order[j]
  }

  lemma ProgressStep(before: Cluster, mid: Cluster, order: seq<string>, i: nat, default: string)
    requires i < |order| && Listing(before, order) && Progress(before, mid, order, i, default)
    ensures Progress(before, mid[order[i] := Target(before[order[i]], default)], order, i + 1, default)
  {
    forall j | 0 <= j < |order| && j != i ensures order[j] != order[i] {
    }
  }

  lemma ProgressIsPassEffect(before: Cluster, mid: Cluster, now: Cluster, order: seq<string>, i: nat, default: string)
    requires i < |order| && Listing(before, order) && Progress(before, mid, order, i, default)
    requires now == mid[order[i] := Target(before[order[i]], default)] || now == mid
    ensures PassEffect(before, now, default)
  {
    forall n | n in now ensures now[n] == before[n] || now[n] == Target(before[n], default) {
      var j :| 0 <= j < |order| && order[j] == n;
    }
  }

  lemma PassComplete(before: Cluster, now: Cluster, order: seq<string>, default: string)
    requires Listing(before, order) && Progress(before, now, order, |order|, default)
    ensures now == Targets(before, default) && PassEffect(before, now, default)
  {
    forall n | n in now ensures now[n] == Target(before[n], default) {
      var j :| 0 <= j < |order| && order[j] == n;
    }
  }

  function CountDevices(c: Cluster, order: seq<string>): nat
    requires forall n :: n in order ==> n in c
  {
    if order == [] then 0
    else CountDevices(c, order[..|order| - 1]) + if HasDevice(c[order[|order| - 1]]) then 1 else 0
  }

  lemma CountStep(c: Cluster, order: seq<string>, i: nat)
    requires i < |order| && forall n :: n in order ==> n in c
    ensures CountDevices(c, order[..i + 1]) == CountDevices(c, order[..i]) + if HasDevice(c[order[i]]) then 1 else 0
  {
    assert order[..i + 1][..i] == order[..i];
  }

  ghost function DevicesIn(c: Cluster, s: seq<string>): set<string>
    requires forall n :: n in s ==> n in c
  {
    set n | n in s && HasDevice(c[n])
  }

  lemma DevicesInStep(c: Cluster, s: seq<string>, last: string)
    requires last in c && forall n :: n in s ==> n in c
    ensures DevicesIn(c, s + [last]) == DevicesIn(c, s) + if HasDevice(c[last]) then {last} else {}
  {
  }

  lemma {:induction false} CountIsDeviceSet(c: Cluster, s: seq<string>)
    requires forall n :: n in s ==> n in c
    requires forall i, j :: 0 <= i < j < |s| ==> s[i] != s[j]
    ensures CountDevices(c, s) == |DevicesIn(c, s)|
  {
    if s != [] {
      var init, last := s[..|s| - 1], s[|s| - 1];
      CountIsDeviceSet(c, init);
      DevicesInStep(c, init, last);
      assert init + [last] == s;
      assert last !in DevicesIn(c, init);
    }
  }

  lemma CountIsDeviceNodes(c: Cluster, order: seq<string>)
    requires Listing(c, order)
    ensures CountDevices(c, order) == |DeviceNodes(c)|
  {
    CountIsDeviceSet(c, order);
    assert DevicesIn(c, order) == DeviceNodes(c);
  }

  /** Updates sent before the i-th node. */
  ghost function SentSoFar(c: Cluster, order: seq<string>, i: nat, default: string, sticky: bool): int
    requires i <= |order| && forall n :: n in order ==> n in c
  {
    UpdatesSent(c, order, default) - if sticky then |order| - i else UpdatesSent(c, order[i..], default)
  }

  lemma SentStep(c: Cluster, order: seq<string>, i: nat, default: string, sticky: bool)
    requires i < |order| && forall n :: n in order ==> n in c
    ensures var sent := sticky || Target(c[order[i]], default) != c[order[i]];
            SentSoFar(c, order, i + 1, default, sent)
            == SentSoFar(c, order, i, default, sticky) + if sent then 1 else 0
  {
    assert order[i..][1..] == order[i + 1..];
  }
}
