/**
 * The sandbox device plugin's start (internal/scope/patch/sandbox-device-plugin.go):
 * its init containers wait for the driver container's file and then for a
 * check_bind --all that succeeds. The steps run beside those of the handshake,
 * on one node, while anybody may rebind devices.
 */
module Sandbox {
  import opened Wrappers
  import opened Labels
  import opened StatusFiles
  import opened Handshake
  import Vfio
  import NodePools
  import DriverPlacement
  import NodeLabelling
  import Components
  import Workloads

  datatype SandboxPc = Waiting | SawContainer | Checked | Running

  /** What the sandbox pods did, in order. `at` is the length of the handshake's
      trace at that moment. */
  datatype Entry =
    | ContainerAwaited(x: nat, run: nat, at: nat)
    | BindChecked(x: nat, run: nat, devices: Vfio.Devices)
    | SandboxStarted(x: nat, run: nat)

  datatype Host = Host(files: State, devices: Vfio.Devices, pods: map<nat, Process<SandboxPc>>, log: seq<Entry>)
  {
    function Pod(x: nat): Process<SandboxPc> {
      if x in pods then pods[x] else Process(0, Waiting)
    }

    function To(x: nat, pc: SandboxPc, e: Entry): Host {
      this.(pods := pods[x := Process(Pod(x).run, pc)], log := log + [e])
    }
  }

  datatype HostStep =
    | FileStep(st: Step)                      // a step of the handshake
    | DevicesChange(devices: Vfio.Devices)    // the vfio manager, or anybody
    | SeeReady(x: nat)                  // init container driver-ready
    | CheckBind(x: nat)                       // init container vfio-bind-checker
    | StartSandbox(x: nat)
    | RestartSandbox(x: nat)

  predicate HostEnabled(h: Host, st: HostStep) {
    match st
    case FileStep(s) => Enabled(h.files, s)
    case DevicesChange(_) => true
    case SeeReady(x) => h.Pod(x).pc.Waiting? && CtrReady in h.files.dir
    case CheckBind(x) => h.Pod(x).pc.SawContainer? && Vfio.AllBound(h.devices)
    case StartSandbox(x) => h.Pod(x).pc.Checked?
    case RestartSandbox(_) => true
  }

  function HostApply(h: Host, st: HostStep): Host
    requires HostEnabled(h, st)
  {
    match st
    case FileStep(s) => h.(files := Apply(h.files, s))
    case DevicesChange(devices) => h.(devices := devices)
    case SeeReady(x) => h.To(x, SawContainer, ContainerAwaited(x, h.Pod(x).run, |h.files.trace|))
    case CheckBind(x) => h.To(x, Checked, BindChecked(x, h.Pod(x).run, h.devices))
    case StartSandbox(x) => h.To(x, Running, SandboxStarted(x, h.Pod(x).run))
    case RestartSandbox(x) => h.(pods := h.pods[x := Process(h.Pod(x).run + 1, Waiting)])
  }

  /** The host after a sequence of steps, if all of them could happen. */
  function PlayHost(steps: seq<HostStep>): Option<Host> {
    if steps == [] then Some(Host(INIT, [], map[], []))
    else
      match PlayHost(steps[..|steps| - 1])
      case None => None
      case Some(h) => if HostEnabled(h, steps[|steps| - 1]) then Some(HostApply(h, steps[|steps| - 1])) else None
  }

  // ---------- what must have happened before ----------

  ghost predicate Awaited(log: seq<Entry>, x: nat, run: nat) {
    exists at :: ContainerAwaited(x, run, at) in log
  }

  ghost predicate Verified(log: seq<Entry>, x: nat, run: nat) {
    exists devices :: BindChecked(x, run, devices) in log
  }

  ghost predicate EntryOk(t: seq<Event>, before: seq<Entry>, e: Entry) {
    match e
    case ContainerAwaited(_, _, at) => at <= |t| && Publisher(t[..at], ContainerFile).Some?
    case BindChecked(x, run, devices) => Vfio.AllBound(devices) && Awaited(before, x, run)
    case SandboxStarted(x, run) => Verified(before, x, run)
  }

  ghost predicate PodOk(log: seq<Entry>, x: nat, pod: Process<SandboxPc>) {
    && (pod.pc.SawContainer? ==> Awaited(log, x, pod.run))
    && (pod.pc.Checked? ==> Verified(log, x, pod.run))
  }

  ghost predicate HostInv(h: Host) {
    && Inv(h.files)
    && (forall i :: 0 <= i < |h.log| ==> EntryOk(h.files.trace, h.log[..i], h.log[i]))
    && (forall x :: PodOk(h.log, x, h.Pod(x)))
  }

  /** An entry is logged and its pod moves on. */
  lemma EntryKeepsInv(h: Host, x: nat, pc: SandboxPc, e: Entry)
    requires HostInv(h) && EntryOk(h.files.trace, h.log, e)
    requires PodOk(h.log + [e], x, Process(h.Pod(x).run, pc))
    ensures HostInv(h.To(x, pc, e))
  {
    var h' := h.To(x, pc, e);
    assert forall d :: d in h.log ==> d in h'.log;
    forall i | 0 <= i < |h'.log| ensures EntryOk(h'.files.trace, h'.log[..i], h'.log[i]) {
      assert h'.log[..i] == h.log[..i];
      if i == |h.log| { assert h.log[..i] == h.log; }
    }
    forall y ensures PodOk(h'.log, y, h'.Pod(y)) {
      assert PodOk(h.log, y, h.Pod(y));
    }
  }

  lemma FilesKeepHostInv(h: Host, files: State)
    requires HostInv(h) && Inv(files) && h.files.trace <= files.trace
    ensures HostInv(h.(files := files))
  {
    var h' := h.(files := files);
    forall i | 0 <= i < |h'.log| ensures EntryOk(files.trace, h'.log[..i], h'.log[i]) {
      assert EntryOk(h.files.trace, h.log[..i], h.log[i]);
      if h.log[i].ContainerAwaited? {
        assert files.trace[..h.log[i].at] == h.files.trace[..h.log[i].at];
      }
    }
    forall x ensures PodOk(h'.log, x, h'.Pod(x)) {
      assert PodOk(h.log, x, h.Pod(x)) && h'.Pod(x) == h.Pod(x);
    }
  }

  lemma HostStepKeepsInv(h: Host, st: HostStep)
    requires HostInv(h) && HostEnabled(h, st)
    ensures HostInv(HostApply(h, st))
  {
    match st
    case FileStep(s) =>
      StepKeepsInv(h.files, s);
      TraceOnlyGrows(h.files, s);
      FilesKeepHostInv(h, Apply(h.files, s));
    case DevicesChange(devices) =>
      forall x ensures PodOk(h.log, x, h.(devices := devices).Pod(x)) {
        assert PodOk(h.log, x, h.Pod(x));
      }
    case SeeReady(x) =>
      var (t, e) := (h.files.trace, ContainerAwaited(x, h.Pod(x).run, |h.files.trace|));
      assert t[..|t|] == t;
      assert e in h.log + [e];
      EntryKeepsInv(h, x, SawContainer, e);
    case CheckBind(x) =>
      var e := BindChecked(x, h.Pod(x).run, h.devices);
      assert PodOk(h.log, x, h.Pod(x)) && e in h.log + [e];
      EntryKeepsInv(h, x, Checked, e);
    case StartSandbox(x) =>
      assert PodOk(h.log, x, h.Pod(x));
      EntryKeepsInv(h, x, Running, SandboxStarted(x, h.Pod(x).run));
    case RestartSandbox(x) =>
      forall y ensures PodOk(h.log, y, HostApply(h, st).Pod(y)) {
        assert PodOk(h.log, y, h.Pod(y));
      }
  }

  lemma {:induction false} ReachableHostInv(steps: seq<HostStep>)
    requires PlayHost(steps).Some?
    ensures HostInv(PlayHost(steps).value)
  {
    if steps != [] {
      var init := steps[..|steps| - 1];
      ReachableHostInv(init);
      HostStepKeepsInv(PlayHost(init).value, steps[|steps| - 1]);
    }
  }

  lemma EntryAt(log: seq<Entry>, i: nat, e: Entry) returns (j: nat)
    requires i <= |log| && e in log[..i]
    ensures j < i && log[j] == e
  {
    j :| 0 <= j < |log[..i]| && log[..i][j] == e;
  }

  /** In every run a sandbox plugin starts only after its own pod found every
      target device on vfio-pci, at `b`, and before that, at `a`, a container-ready
      file that was published at `m`, after a startup probe had passed at `k`, and
      not withdrawn until then. */
  lemma SandboxStartsBehindChecks(steps: seq<HostStep>, i: nat) returns (a: nat, b: nat, m: nat, k: nat)
    requires PlayHost(steps).Some? && i < |PlayHost(steps).value.log| && PlayHost(steps).value.log[i].SandboxStarted?
    ensures var (log, t) := (PlayHost(steps).value.log, PlayHost(steps).value.files.trace);
            && a < b < i
            && log[b].BindChecked? && log[b].x == log[i].x && log[b].run == log[i].run && Vfio.OnVfio(log[b].devices)
            && log[a].ContainerAwaited? && log[a].x == log[i].x && log[a].run == log[i].run
            && log[a].at <= |t| && Stands(t[..log[a].at], ContainerFile, m) && k < m && t[k].ProbePassed?
  {
    ReachableHostInv(steps);
    a, b, m, k := ChecksBehind(PlayHost(steps).value, i);
  }

  lemma ChecksBehind(h: Host, i: nat) returns (a: nat, b: nat, m: nat, k: nat)
    requires HostInv(h) && i < |h.log| && h.log[i].SandboxStarted?
    ensures a < b < i
    ensures h.log[b].BindChecked? && h.log[b].x == h.log[i].x && h.log[b].run == h.log[i].run
    ensures Vfio.OnVfio(h.log[b].devices)
    ensures h.log[a].ContainerAwaited? && h.log[a].x == h.log[i].x && h.log[a].run == h.log[i].run
    ensures h.log[a].at <= |h.files.trace| && Stands(h.files.trace[..h.log[a].at], ContainerFile, m)
    ensures k < m && h.files.trace[k].ProbePassed?
  {
    b := CheckBehindStart(h, i);
    a := WaitBehindCheck(h, b);
    m, k := ProbeBehindWait(h, a);
  }

  lemma CheckBehindStart(h: Host, i: nat) returns (b: nat)
    requires HostInv(h) && i < |h.log| && h.log[i].SandboxStarted?
    ensures b < i && h.log[b].BindChecked? && h.log[b].x == h.log[i].x && h.log[b].run == h.log[i].run
  {
    var e := h.log[i];
    assert EntryOk(h.files.trace, h.log[..i], e);
    var devices :| BindChecked(e.x, e.run, devices) in h.log[..i];
    b := EntryAt(h.log, i, BindChecked(e.x, e.run, devices));
  }

  lemma WaitBehindCheck(h: Host, b: nat) returns (a: nat)
    requires HostInv(h) && b < |h.log| && h.log[b].BindChecked?
    ensures Vfio.OnVfio(h.log[b].devices)
    ensures a < b && h.log[a].ContainerAwaited? && h.log[a].x == h.log[b].x && h.log[a].run == h.log[b].run
  {
    var e := h.log[b];
    assert EntryOk(h.files.trace, h.log[..b], e);
    var at :| ContainerAwaited(e.x, e.run, at) in h.log[..b];
    a := EntryAt(h.log, b, ContainerAwaited(e.x, e.run, at));
  }

  lemma ProbeBehindWait(h: Host, a: nat) returns (m: nat, k: nat)
    requires HostInv(h) && a < |h.log| && h.log[a].ContainerAwaited?
    ensures h.log[a].at <= |h.files.trace| && Stands(h.files.trace[..h.log[a].at], ContainerFile, m)
    ensures k < m && h.files.trace[k].ProbePassed?
  {
    assert EntryOk(h.files.trace, h.log[..a], h.log[a]);
    var seen := h.files.trace[..h.log[a].at];
    m := Publisher(seen, ContainerFile).value;
    PublisherStands(seen, ContainerFile, m);
    k := ProbeBehindFile(h.files.trace, m);
  }

  lemma ExtendHost(steps: seq<HostStep>, h: Host, st: HostStep) returns (steps': seq<HostStep>, h': Host)
    requires PlayHost(steps) == Some(h) && HostEnabled(h, st)
    ensures steps' == steps + [st] && h' == HostApply(h, st) && PlayHost(steps') == Some(h')
  {
    steps', h' := steps + [st], HostApply(h, st);
    assert steps'[..|steps'| - 1] == steps;
  }

  /** The checks are not only necessary: a run reaches a started plugin. */
  lemma StartRun() returns (steps: seq<HostStep>)
    ensures PlayHost(steps).Some? && steps != [] && steps[|steps| - 1] == StartSandbox(5)
    ensures SandboxStarted(5, 0) in PlayHost(steps).value.log
  {
    var h := Host(INIT, [], map[], []);
    assert PlayHost([]) == Some(h);
    steps, h := ExtendHost([], h, FileStep(ProbeTouch(1, 1)));
    steps, h := ExtendHost(steps, h, FileStep(ProbeMove));
    steps, h := ExtendHost(steps, h, SeeReady(5));
    steps, h := ExtendHost(steps, h, CheckBind(5));
    steps, h := ExtendHost(steps, h, StartSandbox(5));
    assert h.log[|h.log| - 1] == SandboxStarted(5, 0);
  }

  // ---------- the node it happens on ----------

  predicate IsProbe(st: HostStep) { st.FileStep? && st.st.ProbeTouch? }

  /** A probe in the trace was a step of a driver pod. */
  lemma {:induction false} ProbeWasStep(steps: seq<HostStep>, e: Event) returns (j: nat)
    requires PlayHost(steps).Some? && e in PlayHost(steps).value.files.trace && e.ProbePassed?
    ensures j < |steps| && IsProbe(steps[j])
  {
    var (init, st) := (steps[..|steps| - 1], steps[|steps| - 1]);
    var h := PlayHost(init).value;
    if IsProbe(st) {
      j := |steps| - 1;
    } else {
      if st.FileStep? {
        OnlyProbesLogProbes(h.files, st.st);
        TraceOnlyGrows(h.files, st.st);
      }
      j := ProbeWasStep(init, e);
    }
  }

  lemma OnlyProbesLogProbes(s: State, st: Step)
    requires Enabled(s, st) && !st.ProbeTouch?
    ensures forall i :: |s.trace| <= i < |Apply(s, st).trace| ==> !Apply(s, st).trace[i].ProbePassed?
  {
  }

  /** Some driver DaemonSet, built from some snapshot, places a pod here. */
  ghost predicate DriverSelects(labels: LabelMap) {
    exists snapshot, d, ds :: DriverPlacement.BuiltFrom(snapshot, d, ds) && Selects(ds.nodeSelector, labels)
  }

  ghost predicate SandboxSelects(labels: LabelMap) {
    Selects(Workloads.Selector(Components.SandboxDevicePlugin), labels)
  }

  type History = seq<NodeLabelling.Cluster>

  /** A driver pod may probe in every state from the one on in which its DaemonSet
      selected the node: it outlives the label change that evicts it. */
  ghost predicate DriverPlaced(run: History, t: nat, n: string) {
    exists i :: 0 <= i <= t && i < |run| && n in run[i] && DriverSelects(run[i][n])
  }

  /** A sandbox plugin starts while its DaemonSet selects the node or, if eviction
      lags, in a later state as well. */
  ghost predicate SandboxPlaced(run: History, t: nat, n: string, lags: bool) {
    exists j :: 0 <= j <= t && j < |run| && (lags || j == t) && n in run[j] && SandboxSelects(run[j][n])
  }

  /** The steps of node `n` beside the states of the cluster: step `k` happens in
      state `when[k]`, and pods act only where they were placed. */
  ghost predicate OnNode(steps: seq<HostStep>, run: History, when: seq<nat>, n: string, lags: bool) {
    && |when| == |steps|
    && (forall k :: 0 <= k < |when| ==> when[k] < |run| && n in run[when[k]])
    && (forall k, l :: 0 <= k < l < |when| ==> when[k] <= when[l])
    && (forall k :: 0 <= k < |steps| && IsProbe(steps[k]) ==> DriverPlaced(run, when[k], n))
    && (forall k :: 0 <= k < |steps| && steps[k].StartSandbox? ==> SandboxPlaced(run, when[k], n, lags))
  }

  /** Steps on that node that end with the start of a sandbox plugin. */
  ghost predicate StartsIn(steps: seq<HostStep>, run: History, when: seq<nat>, n: string, lags: bool) {
    EndsInStart(steps) && OnNode(steps, run, when, n, lags)
  }

  ghost predicate EndsInStart(steps: seq<HostStep>) {
    PlayHost(steps).Some? && steps != [] && steps[|steps| - 1].StartSandbox?
  }

  /** A driver DaemonSet selected the node in state `i`, the sandbox plugin's in
      state `j`, and unless eviction lags the former came first. */
  ghost predicate ChangedWorkload(run: History, n: string, i: nat, j: nat, lags: bool) {
    && i < |run| && n in run[i] && DriverSelects(run[i][n])
    && j < |run| && n in run[j] && SandboxSelects(run[j][n])
    && (lags || i < j)
  }

  /** The exact condition for a sandbox plugin to start on a node, over every
      history of its labels: the node has been a container node with a driver and
      is, or if eviction lags has been, a virtual-machine node. On a node that is
      one from the beginning it never starts. */
  lemma SandboxStartsIff(run: History, n: string, lags: bool)
    requires NodeLabelling.ClusterRun(run)
    ensures (exists steps, when :: StartsIn(steps, run, when, n, lags))
            <==> exists i, j :: ChangedWorkload(run, n, i, j, lags)
  {
    if steps, when :| StartsIn(steps, run, when, n, lags) {
      var i, j := SandboxNeedsFormerContainerNode(steps, run, when, n, lags);
    }
    if i: nat, j: nat :| ChangedWorkload(run, n, i, j, lags) {
      var steps, when := StartAfterChange(run, n, i, j, lags);
    }
  }

  lemma SandboxNeedsFormerContainerNode(steps: seq<HostStep>, run: History, when: seq<nat>, n: string, lags: bool)
    returns (i: nat, j: nat)
    requires NodeLabelling.ClusterRun(run) && EndsInStart(steps) && OnNode(steps, run, when, n, lags)
    ensures ChangedWorkload(run, n, i, j, lags)
  {
    var k := ProbeBehindStart(steps);
    i, j := Placements(steps, run, when, n, lags, k, |steps| - 1);
  }

  /** No virtual-machine component selects the node. */
  ghost predicate FreeOfVM(labels: LabelMap) {
    forall c :: Workloads.ForVM(c) ==> !Selects(Workloads.Selector(c), labels)
  }

  /** The states that allowed a probe at step `k` and a later start at step `l`. */
  lemma Placements(steps: seq<HostStep>, run: History, when: seq<nat>, n: string, lags: bool, k: nat, l: nat)
    returns (i: nat, j: nat)
    requires NodeLabelling.ClusterRun(run) && OnNode(steps, run, when, n, lags)
    requires k < l < |steps| && IsProbe(steps[k]) && steps[l].StartSandbox?
    ensures ChangedWorkload(run, n, i, j, lags)
  {
    assert DriverPlaced(run, when[k], n) && SandboxPlaced(run, when[l], n, lags);
    i := DriverState(run, when[k], n);
    j := SandboxState(run, when[l], n, lags);
    assert when[k] <= when[l];
    NotInOneState(run, i, j, n);
  }

  lemma NotInOneState(run: History, i: nat, j: nat, n: string)
    requires NodeLabelling.ClusterRun(run)
    requires i < |run| && n in run[i] && DriverSelects(run[i][n])
    requires j < |run| && n in run[j] && SandboxSelects(run[j][n])
    ensures i != j
  {
    NoVMComponentBesideDriver(run, i, n);
    assert Workloads.ForVM(Components.SandboxDevicePlugin);
  }

  lemma DriverState(run: History, t: nat, n: string) returns (i: nat)
    requires DriverPlaced(run, t, n)
    ensures i <= t && i < |run| && n in run[i] && DriverSelects(run[i][n])
  {
    i :| 0 <= i <= t && i < |run| && n in run[i] && DriverSelects(run[i][n]);
  }

  lemma SandboxState(run: History, t: nat, n: string, lags: bool) returns (j: nat)
    requires SandboxPlaced(run, t, n, lags)
    ensures j <= t && j < |run| && (lags || j == t) && n in run[j] && SandboxSelects(run[j][n])
  {
    j :| 0 <= j <= t && j < |run| && (lags || j == t) && n in run[j] && SandboxSelects(run[j][n]);
  }

  /** The whole protocol, in the later of the two states. */
  lemma StartAfterChange(run: History, n: string, i: nat, j: nat, lags: bool)
    returns (steps: seq<HostStep>, when: seq<nat>)
    requires ChangedWorkload(run, n, i, j, lags)
    ensures StartsIn(steps, run, when, n, lags)
  {
    steps := StartRun();
    var t := if i < j then j else i;
    assert DriverPlaced(run, t, n) && SandboxPlaced(run, t, n, lags);
    when := AllInOneState(steps, run, t, n, lags);
  }

  lemma AllInOneState(steps: seq<HostStep>, run: History, t: nat, n: string, lags: bool) returns (when: seq<nat>)
    requires t < |run| && n in run[t] && DriverPlaced(run, t, n) && SandboxPlaced(run, t, n, lags)
    ensures OnNode(steps, run, when, n, lags)
  {
    when := seq(|steps|, _ => t);
  }

  lemma ProbeBehindStart(steps: seq<HostStep>) returns (j: nat)
    requires EndsInStart(steps)
    ensures j < |steps| - 1 && IsProbe(steps[j]) && steps[|steps| - 1].StartSandbox?
  {
    var h := PlayHost(steps).value;
    var before := PlayHost(steps[..|steps| - 1]).value;
    var a, b, m, k := SandboxStartsBehindChecks(steps, |h.log| - 1);
    assert h.files == before.files;
    j := ProbeWasStep(steps, h.files.trace[k]);
  }

  lemma NoVMComponentBesideDriver(run: seq<NodeLabelling.Cluster>, i: nat, n: string)
    requires NodeLabelling.ClusterRun(run) && i < |run| && n in run[i] && DriverSelects(run[i][n])
    ensures FreeOfVM(run[i][n])
  {
    var snapshot, d, ds :| DriverPlacement.BuiltFrom(snapshot, d, ds) && Selects(ds.nodeSelector, run[i][n]);
    forall c | Workloads.ForVM(c) ensures !Selects(Workloads.Selector(c), run[i][n]) {
      Workloads.DriversKeepToContainers(run, i, n, c, snapshot, d, ds);
    }
  }
}
