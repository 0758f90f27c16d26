/** Where pods can run: the labels the operator gives to nodes against the node
    selectors of its own DaemonSets. */
module Workloads {
  import opened Labels
  import opened NodeLabelling
  import opened Components
  import NodePools
  import DriverPlacement

  function DeployKey(c: Component): string { DEPLOY + Tail(c) }

  /** The node selector of a component's DaemonSet. */
  function Selector(c: Component): LabelMap { map[DeployKey(c) := "true"] }

  predicate ForVM(c: Component) { c == VfioManager || c == SandboxDevicePlugin }

  /** Every component waits for a key the labelling knows, under its workload. */
  lemma KeysAgree(c: Component)
    ensures DeployKey(c) in if ForVM(c) then VM_KEYS else CONTAINER_KEYS
  {
  }

  /** And besides the driver's the labelling knows no other key. */
  lemma FamiliesAgree(k: string)
    ensures k in CONTAINER_KEYS <==> k == NodePools.DEPLOY || exists c :: !ForVM(c) && k == DeployKey(c)
    ensures k in VM_KEYS <==> exists c :: ForVM(c) && k == DeployKey(c)
  {
    DriverKeyAgrees();
    assert NodePools.DEPLOY == DEPLOY + "driver";
    forall c: Component ensures DeployKey(c) in if ForVM(c) then VM_KEYS else CONTAINER_KEYS {
      KeysAgree(c);
    }
    assert DeployKey(DevicePlugin) == DEPLOY + "device-plugin" && DeployKey(MetricsExporter) == DEPLOY + "metrics-exporter";
    assert DeployKey(RblnDaemon) == DEPLOY + "rbln-daemon";
    assert DeployKey(FeatureDiscovery) == DEPLOY + "npu-feature-discovery";
    assert DeployKey(OperatorValidator) == DEPLOY + "operator-validator";
    assert DeployKey(ContainerToolkit) == DEPLOY + "container-toolkit";
    assert DeployKey(VfioManager) == DEPLOY + "vfio-manager";
    assert DeployKey(SandboxDevicePlugin) == DEPLOY + "sandbox-device-plugin";
  }

  lemma DriverKeyAgrees()
    ensures NodePools.DEPLOY in CONTAINER_KEYS
  {
    assert NodePools.DEPLOY == DEPLOY + "driver";
  }

  /** A node that carries a key of one workload carries none of the other. */
  lemma OneFamily(labels: LabelMap, k: string)
    requires NodeInv(labels) && k in labels && k in COMPONENT_KEYS
    ensures IsPresent(labels)
    ensures k in CONTAINER_KEYS ==> labels.Keys !! VM_KEYS
    ensures k in VM_KEYS ==> labels.Keys !! CONTAINER_KEYS
  {
    FamiliesAreApart();
    var config :| labels.Keys * COMPONENT_KEYS <= Family(config);
    assert k in labels.Keys * COMPONENT_KEYS;
    forall j | j in labels.Keys && j in COMPONENT_KEYS ensures j in Family(config) {
      assert j in labels.Keys * COMPONENT_KEYS;
    }
  }

  /** In every state of every run, a node that can host a component is marked and
      can host none of the other workload. */
  lemma WorkloadsNeverMix(run: seq<Cluster>, i: nat, n: string, c: Component, d: Component)
    requires ClusterRun(run) && i < |run| && n in run[i]
    requires Selects(Selector(c), run[i][n]) && Selects(Selector(d), run[i][n])
    ensures IsPresent(run[i][n]) && ForVM(c) == ForVM(d)
  {
    OneWorkloadPerNode(run, i);
    KeysAgree(c);
    KeysAgree(d);
    assert DeployKey(c) in Selector(c) && DeployKey(d) in Selector(d);
    OneFamily(run[i][n], DeployKey(c));
  }

  /** Nor can a driver DaemonSet, whatever snapshot it was built from, share a
      node with the components that hand devices to virtual machines. */
  lemma DriversKeepToContainers(run: seq<Cluster>, i: nat, n: string, c: Component,
                                snapshot: seq<NodePools.Node>, d: DriverPlacement.Driver, ds: DriverPlacement.DaemonSet)
    requires ClusterRun(run) && i < |run| && n in run[i]
    requires DriverPlacement.BuiltFrom(snapshot, d, ds) && Selects(ds.nodeSelector, run[i][n])
    ensures IsPresent(run[i][n])
    ensures ForVM(c) ==> !Selects(Selector(c), run[i][n])
  {
    OneWorkloadPerNode(run, i);
    DriverKeyAgrees();
    KeysAgree(c);
    var p := DriverPlacement.PoolBehind(snapshot, d, ds);
    assert NodePools.DEPLOY in ds.nodeSelector && DeployKey(c) in Selector(c);
    OneFamily(run[i][n], NodePools.DEPLOY);
  }

  /** The node's own workload label if it names a workload, else the default. */
  function Chosen(labels: LabelMap, default: string): string {
    var own := Lookup(labels, "rebellions.ai/npu.workload.config");
    if own == "container" || own == "vm-passthrough" then own else default
  }

  /** After a pass, a device node hosts exactly the components of its workload,
      less those an existing label keeps away; whatever it carried before, a node
      that lost its device hosts none. */
  lemma HostedAfterPass(labels: LabelMap, default: string, c: Component)
    ensures HasDevice(labels) ==>
              (Selects(Selector(c), Target(labels, default)) <==>
                 && Chosen(labels, default) == (if ForVM(c) then "vm-passthrough" else "container")
                 && (DeployKey(c) in labels ==> labels[DeployKey(c)] == "true"))
    ensures IsPresent(labels) && !HasDevice(labels) ==> !Selects(Selector(c), Target(labels, default))
  {
    KeysAgree(c);
    FamiliesAreApart();
    TargetMeaning(labels, default);
    if HasDevice(labels) {
      WorkloadDecides(labels, default);
    }
    var (t, k) := (Target(labels, default), DeployKey(c));
    assert Selects(Selector(c), t) <==> k in t && t[k] == "true";
    assert k in t <==> k in t.Keys * COMPONENT_KEYS;
  }
}
