# Verified model of the RBLN NPU operator

The RBLN NPU operator runs Rebellions NPUs in a Kubernetes cluster. This project
models the parts of it where several pieces have to agree, and proves what they
keep together:

* **Driver placement** (`KernelName`, `NodePools`, `DriverImage`, `DriverPlacement`,
  `NodeWatch`):
  nodes are pooled by operating system and kernel, each pool becomes a DaemonSet
  with a node selector and a precompiled image, and a validator rejects drivers
  that overlap.
* **Node labelling** (`Labels`, `NodeLabelling`, `Workloads`): the reconcile pass
  that marks device nodes and gives them the deploy labels of their workload, and
  what the components' node selectors then make of those labels.
* **The readiness handshake** (`StatusFiles`, `Handshake`, `DriverRecord`,
  `ToolkitScan`): driver pods, driver validations, toolkit daemons, toolkit
  validations and plugins that coordinate only through files in
  `/run/rbln/validations`, in any interleaving, with failures and restarts.
  `Sandbox` adds the sandbox plugin, its check of the vfio bindings, and the
  labels of the node it runs on.
* **Components and the singleton policy** (`Components`, `Singleton`): eight
  patchers that create, patch or delete their objects through a fallible API
  server, and the reconciler that lets one cluster policy at a time use them.
* **vfio-manage.sh** (`Vfio`): the bind, unbind and check commands over sysfs.
* **Merging** (`EnvMerge`, `SpecLayers`, `Affinity`): environment lists, shared
  settings under a component's own, and affinities.

`Wrappers` holds the result types and `Text` the string operations.

## How the source is modelled

Code that updates state is a class or a method with loops: the sysfs devices, the
labels of a node, the API server, the DaemonSet store, the reconciler, the
environment buffer and the affinity objects. Each method is tied to a function or
a relation on values, and the theorems are about those. The handshake is a step
relation, because it is about processes that do not share memory.

Inputs from outside are parameters or arbitrary choices. A call to the API server
may fail before or after it took effect, and a write to sysfs may fail, unless the
server or the host is marked healthy; then the operations have to succeed exactly
when nothing else stands in the way. A failing List is a flag; Go's map order
is an arbitrary choice; the outcome of rbln-smi, of the host driver check and of
the question whether the operator manages the driver are steps that may go either
way. A retry loop is a step that need not happen, so the results are about safety
and not about time.

A Kubernetes equality selector requires its key to be present, while a Go map
lookup reads an absent key as the empty string; both occur in the source and both
are in the model. Lower-casing and trimming are those of ASCII.

## What the code does not keep

The members named here show how each of these happens and when the property does
hold.

* A driver whose node selector sets the deploy label to another value than "true"
  is validated with that value but deployed with "true", so two accepted drivers
  can meet on a node (`BadDeployKeyDoublesDrivers`, `NeverDoubledIff`,
  `StaysWithinValidatedIff`).
* Kernels that differ only in the architecture suffix share a pool name, and only
  the first node's kernel gets a driver (`MixedArchitectureUncovers`,
  `CoverageIff`).
* The driver reconciler sleeps through changes of labels that a selector uses but
  the predicate does not watch, and through the loss of an empty label
  (`SuppressionSafeIff`, `EmptyLabelLosesUpdate`, `AlwaysSafeIff`). The
  cluster-policy reconciler sleeps through devices that come and go
  (`MissedChangeIff`, `LostDeviceGoesUnseen`).
* `os.CreateTemp` promises only that a name does not exist at that moment. A
  deferred removal can delete another validation's file of the same name; if a
  third draws that name while the second is still writing, the second can publish
  an empty record (`ReusedNameBreaksRecord`). Drawing a name nobody is writing
  under, used before or not, is safe, and any other draw is not (`DrawSafeIff`).
* The sandbox plugin waits for the driver container's file, but no driver pod is
  ever placed on a virtual-machine node, so it can start on a node exactly if that
  was a container node before (`SandboxStartsIff`).
* The DaemonSet names of two drivers can run together; the second driver's pass
  then ends the operator's process (`CanClashIff`, `ClashBlocks`, `Patch`).
* A kernel with an odd end gives a DaemonSet name that no API server takes
  (`SanitizeEndsWellIff`, `SomeNamesEndBadly`).
* vfio-manage.sh skips a driverless device on unbind, so an override left by an
  unbind or a bind that was cut short is never cleared (`UnbindReleasesIff`,
  `RestartedUnbindConvergesIff`, `UnfinishedBindSurvivesUnbind`).
* An object that still belongs to another policy ends the operator's process, so
  after a policy is deleted its successor cannot get through a pass until the old
  objects have been collected (`HandoverWaitsForCollection`,
  `CollectionUnblocksIff`). The validator's cluster role has no owner and stays
  behind (`ClusterRoleOutlivesPolicy`).
* Merging onto a base that sets a name twice changes the first entry, while the
  container sees the last one (`TransparentIff`).
* `MergeAffinity` builds its result out of the user's objects and so can change
  them, and shared defaults too; its contract says exactly when.

## Model

| member | source | states |
|---|---|---|
| KernelName.RemoveArchOverDot | internal/scope/patch/node_pool.go:117-119 | removing the architecture pattern everywhere distributes over a dot, for all strings on both sides |
| KernelName.SanitizeForgetsArch | internal/scope/patch/node_pool.go:117-123 | for every release p, "p." followed by any of the four architecture suffixes sanitises to the same name |
| KernelName.SanitizeIsHostName | internal/scope/patch/node_pool.go:117-123 | every label-legal kernel becomes lower-case letters, digits, "-" and ".", as host names under section 2.1 of RFC 1123 allow |
| KernelName.SanitizeEndsWellIff | internal/scope/patch/node_pool.go:117-123 | the sanitised name is not empty and ends in an alphanumeric character exactly if the kernel without its architectures does, once a single separator at its end is cut off |
| KernelName.ReleasesEndWell | internal/scope/patch/node_pool.go:117-123 | that is so for every release that ends well, alone or followed by a dot and an architecture |
| KernelName.SomeNamesEndBadly | internal/scope/patch/node_pool.go:117-123 | an architecture alone becomes the empty name, and behind two dots any release gets a name that ends badly |
| KernelName.NothingRemovedIff | internal/scope/patch/node_pool.go:118-119 | a kernel loses nothing exactly if neither architecture occurs in it |
| KernelName.PlainKernelKeepsItsName | internal/scope/patch/node_pool.go:117-123 | then, if it ends well, its name is the kernel character by character, in lower case and with dots for underscores |
| Labels.MergeMaps | internal/utils/k8s/common.go:53-66 | the union of the two maps with the second one winning, for every iteration order |
| Labels.FilterMapWithPrefix | internal/utils/k8s/common.go:69-77 | exactly the entries whose key has the prefix, for every iteration order |
| NodePools.FillPoolMap | internal/scope/patch/node_pool.go:44-53 | the loop's map holds, for every name, the pool of the first listed node of that name and nothing else |
| NodePools.PoolMapValues | internal/scope/patch/node_pool.go:55-58 | ranging over the map in any order lists every pool once |
| NodePools.GetNodePools | internal/scope/patch/node_pool.go:31-61 | fails exactly if the List fails; otherwise the pools are those of the listed nodes, one per name |
| NodePools.PoolNameIff | internal/scope/patch/node_pool.go:90-115 | pool names tell apart the operating systems under one kernel, and under one operating system exactly the sanitised kernels |
| NodePools.PoolComesFromNode | internal/scope/patch/node_pool.go:63-102 | behind every pool is an eligible node with that operating system, kernel and selector |
| NodePools.PlacementMeaning | internal/scope/patch/driver_manager.go:507-509 | what a pool's DaemonSet demands of a node: the user's selector with the deploy label at "true", and the pool's own three values |
| NodePools.OnePoolPerNode | internal/scope/patch/node_pool.go:71-102 | at most one pool of a driver can place a pod on a node, whatever the selector |
| NodePools.CollisionUncovers | internal/scope/patch/node_pool.go:44-53 | of two eligible nodes with one pool name but different system or kernel, one gets no driver |
| NodePools.CoverageIff | internal/scope/patch/node_pool.go:44-60 | every eligible node is covered by a pool if and only if no two eligible nodes collide |
| NodePools.MixedArchitectureUncovers | internal/scope/patch/node_pool.go:117-123 | nodes of one release but different architecture suffixes are never both covered |
| NodeWatch.SuppressedUpdateIsSafe | internal/controller/rblndriver_controller.go:225-256 | if the predicate rejects every node's change and no watched label turns from absent to empty or back, a selector over the watched keys has the same pools before and after |
| NodeWatch.SuppressionSafeIff | internal/controller/rblndriver_controller.go:225-256 | over all such rounds, ignoring the rejected changes is safe exactly for selectors over watched keys |
| NodeWatch.UnwatchedKeyLosesUpdate | internal/controller/rblndriver_controller.go:225-256 | any other selector has a change of pools that is not noticed |
| NodeWatch.EmptyLabelLosesUpdate | internal/controller/rblndriver_controller.go:239-253 | any watched label that a selector does not pin to a value can disappear while empty, change the pools and go unnoticed |
| NodeWatch.AlwaysSafeIff | internal/controller/rblndriver_controller.go:225-256 | over all rounds without exception, it is safe exactly for selectors that pin every watched key to a value and ask for nothing else |
| DriverPlacement.FindConflictIff | internal/validator/node_selector.go:38-52 | the search accepts exactly if no listed node matches another driver's selector |
| DriverPlacement.ValidateIff | internal/validator/node_selector.go:25-62 | acceptance holds exactly if the needed lists were read and no selected node matches another driver |
| DriverPlacement.ValidateMeaning | internal/validator/node_selector.go:25-62 | said of the labels themselves: accepted exactly if on no node that the driver is validated for another driver's selector matches, where an empty value also matches an absent label; otherwise the first such driver is named |
| DriverPlacement.AcceptedIsDisjoint | internal/validator/node_selector.go:25-62 | no node of an accepted driver satisfies another driver's selector |
| DriverPlacement.PlacedWithinValidated | internal/scope/patch/driver_manager.go:507-509 | a driver's DaemonSets reach only nodes its validation looked at, if the deploy label is not set to another value |
| DriverPlacement.OneDaemonSetPerNode | internal/scope/patch/driver_manager.go:168-180 | among all DaemonSets of all accepted drivers built from one snapshot, at most one matches any node |
| DriverPlacement.NeverDoubledIff | internal/validator/node_selector.go:25-62 | a buildable driver never meets another accepted one on a node, in any cluster, if and only if its selector leaves the deploy label at "true" |
| DriverPlacement.StaysWithinValidatedIff | api/v1alpha1/rblndriver_types.go:210-218 | a buildable driver stays within its validated nodes in every cluster if and only if its selector leaves the deploy label at "true" |
| DriverPlacement.BadDeployKeyEscapes | internal/scope/patch/node_pool.go:63-69 | any other value lets a DaemonSet reach a node that validation never looked at |
| DriverPlacement.BadDeployKeyDoublesDrivers | internal/scope/patch/driver_manager.go:507-509 | for every buildable driver that sets the deploy label to another value there is a cluster, a default driver accepted beside it, and a node that both place a pod on |
| DriverImage.ImagePathMeaning | api/v1alpha1/rblndriver_types.go:190-208 | the image is registry, image, version, kernel and system in that order, with spaces around and one slash between taken off; it fails exactly without a system, a kernel or a version, or with a digest |
| DriverImage.SameImageIff | api/v1alpha1/rblndriver_types.go:206 | a spec has the same image for two nodes exactly if kernel and system make the same end of the tag |
| DriverImage.ImageFixesKernel | api/v1alpha1/rblndriver_types.go:206 | on one operating system the image fixes the kernel |
| Text.TrimIff | api/v1alpha1/rblndriver_types.go:195-197 | trimming takes off exactly the spaces around |
| DriverPlacement.BuiltTagMatches | internal/scope/patch/driver_manager.go:638-657 | the image of a built DaemonSet is its driver's own image for exactly the system and kernel the DaemonSet's selector demands |
| DriverPlacement.PodFitsItsNode | api/v1alpha1/rblndriver_types.go:190-208 | on every node such a DaemonSet matches, the image is that driver's image for that node's system and kernel |
| DriverPlacement.ReachableTagsMatch | internal/scope/patch/driver_manager.go:497-509 | every DaemonSet in every store reachable by passes, aborted passes and deletions was written by the pass of a driver that it names as owner, with that driver's image for the system and kernel its own selector demands |
| DriverPlacement.ReachablePodsFit | internal/scope/patch/driver_manager.go:638-657 | so in every reachable store, on every node that a DaemonSet matches, the tag ends with that node's kernel and system, and on that system it is its owner's image for no other kernel |
| DriverPlacement.ReachableOnePerDriver | internal/scope/patch/driver_manager.go:497-509 | in every reachable store at most one DaemonSet of a driver matches any node, whatever selectors and snapshots the driver had in between |
| DriverPlacement.SameObjectIff | internal/scope/patch/driver_manager.go:498 | two drivers of different names write the same DaemonSet exactly if one name is the other with a dash and the front of the other's pool name added |
| DriverPlacement.CanClashIff | internal/scope/patch/driver_manager.go:498 | drivers of two names can be accepted side by side and have to write one DaemonSet, in some cluster, exactly if one name is the other followed by a dash and more |
| DriverPlacement.ClashBlocks | internal/utils/k8s/common.go:46-51 | once one of them has written that DaemonSet the other one's pass is blocked |
| DriverPlacement.BlockedIff | internal/utils/k8s/common.go:46-51 | a pass is blocked exactly if a DaemonSet of one of its names exists and another driver is its controller |
| DriverPlacement.DaemonSetStore.HandleDaemonSet | internal/scope/patch/driver_manager.go:497-740 | writes at most the pool's DaemonSet; one that another driver owns is not written and ends the process |
| DriverPlacement.DaemonSetStore.HandlePools | internal/scope/patch/driver_manager.go:176-180 | the loop keeps or replaces objects, removes none, leaves those of other drivers alone, and on success has written every pool |
| DriverPlacement.DaemonSetStore.Patch | internal/scope/patch/driver_manager.go:142-183 | only DaemonSets built from this snapshot are written, on success one for every pool, and those of other drivers stay; with a healthy server it succeeds exactly if every pool has an image and no DaemonSet is held by another driver, and ends the process if only the latter fails |
| DriverPlacement.DaemonSetStore.Reconcile | internal/controller/rblndriver_controller.go:79-138 | Patch is reached exactly if the driver and the policies could be read, both exist, validation accepts and the scope is set up; otherwise no DaemonSet is touched; a returned error means that one of these reads or the setup failed, or that Patch was not done |
| NodeLabelling.KeysAreApart | internal/scope/cluster_policy.go:230-244 | the two workloads' keys, the present, workload and device keys are all different |
| NodeLabelling.KeysSpelled | internal/scope/cluster_policy.go:225-244 | the label keys the pass reads and writes, spelled out |
| NodeLabelling.TargetMeaning | internal/scope/cluster_policy.go:142-190 | the per-node function key by key: present iff a device is found, exactly the effective workload's keys with existing values kept, none after the device is lost, other keys unchanged |
| NodeLabelling.DeviceIff | internal/scope/cluster_policy.go:199-228 | a device is found exactly by one of the two discovery labels with the value "true" |
| NodeLabelling.WorkloadDecides | internal/scope/cluster_policy.go:210-244 | a device node gets the container keys or the virtual-machine keys as its own workload label says; a label that names neither leaves it to the default |
| NodeLabelling.WakesIff | internal/controller/rblnclusterpolicy_controller.go:256-262 | the predicate passes an update exactly if a label under "rebellions.ai/" came, went or changed |
| NodeLabelling.TargetIdempotent | internal/scope/cluster_policy.go:142-190 | a second pass over a node changes nothing |
| NodeLabelling.WakesIffChanged | internal/controller/rblnclusterpolicy_controller.go:247-264 | of the pass's own writes the predicate lets through exactly those that changed the node |
| NodeLabelling.MissedChangeIff | internal/controller/rblnclusterpolicy_controller.go:256-262 | a change by others that does not wake the reconciler would lead a pass to other labels exactly if a device came or went |
| NodeLabelling.SettledNodeIsStaleIff | internal/controller/rblnclusterpolicy_controller.go:256-262 | a settled node is out of date after such a change exactly in that case |
| NodeLabelling.LostDeviceGoesUnseen | internal/controller/rblnclusterpolicy_controller.go:256-262 | for every default workload, a settled node loses its device label unseen and keeps its deploy labels |
| NodeLabelling.OneWorkloadPerNode | internal/scope/cluster_policy.go:153-188 | in every state of every run with outside changes and aborted passes, a node has keys of at most one workload and none unless it is present |
| NodeLabelling.StepKeepsInv | internal/scope/cluster_policy.go:153-188 | each pass, aborted pass or outside change keeps that invariant |
| NodeLabelling.NoChangeNoUpdates | internal/scope/cluster_policy.go:142-190 | a pass sends no Update exactly if no listed node has anything to change, despite the flag that stays set |
| NodeLabelling.QuietAfterOnePass | internal/scope/cluster_policy.go:142-190 | after an error-free pass the next one, in any order, sends no Update |
| NodeLabelling.NodeObject.RemoveAllComponentLabels | internal/scope/cluster_policy.go:246-252 | removes exactly the component keys |
| NodeLabelling.NodeObject.UpdateComponentLabels | internal/scope/cluster_policy.go:254-279 | for every map order, leaves exactly the workload's component keys with existing values kept, and reports whether anything changed |
| NodeLabelling.NodeObject.Relabel | internal/scope/cluster_policy.go:153-180 | the body of the node loop computes the per-node function |
| NodeLabelling.NodeStore.ProcessNode | internal/scope/cluster_policy.go:153-188 | one turn sends an Update if this node or an earlier one changed; a failed one may or may not have taken effect |
| NodeLabelling.NodeStore.LabelRblnNodes | internal/scope/cluster_policy.go:142-190 | for every order the pass refines the per-node function, counts the device nodes, reports NFD labels and sends the predicted number of Updates; an aborted pass leaves each node old or new, and with a healthy server none is aborted |
| Workloads.WorkloadsNeverMix | internal/scope/patch/vfio_manager.go:576 | in every state of every labelling run, a node that a component's DaemonSet selects is present and no component of the other workload selects it |
| Workloads.DriversKeepToContainers | internal/scope/patch/driver_manager.go:507-509 | no driver DaemonSet, built from any snapshot, ever shares a node with the virtual-machine components |
| Workloads.HostedAfterPass | internal/scope/cluster_policy.go:254-279 | after a pass a device node is selected by exactly the components of the workload that its own label names, or else the default, less those an existing label keeps away |
| Workloads.FamiliesAgree | internal/scope/cluster_policy.go:230-244 | the deploy keys of each workload are exactly those its components' selectors ask for, with the driver's |
| StatusFiles.Name.GlobMeaning | internal/scope/patch/validator.go:459 | the preStop pattern removes driver-ready and toolkit-ready and neither hidden nor temporary files |
| StatusFiles.PathsApart | cmd/rbln-validator/util.go:44-47 | the names in the validations directory are different files |
| StatusFiles.LinesOfUnlines | cmd/rbln-validator/driver_validation.go:273-282 | lines without line breaks read back as they were written |
| StatusFiles.RecordReadsBack | cmd/rbln-validator/driver_validation.go:248-282 | a record reads back as its four lines, spelled out for the host driver and for the container's |
| Handshake.StepKeepsInv | cmd/rbln-validator/driver_validation.go:50-129 | every step of every process keeps the protocol invariant |
| Handshake.ReachableInv | cmd/rbln-validator/toolkit.go:34-123 | the invariant holds in every interleaving from an empty directory |
| Handshake.ValidationIsBacked | cmd/rbln-validator/driver_validation.go:50-129 | a successful driver validation followed a passing host check, or a passing rbln-smi after the operator was found not to manage the driver or after a container-ready file was seen that a passed startup probe had put there and no stop of the driver pod had removed |
| Handshake.PublisherStands | cmd/rbln-validator/util.go:19-65 | for each of the three files, the publisher the trace yields is the one event after which the file was neither withdrawn nor replaced |
| Handshake.StepMakesOrRemoves | cmd/rbln-validator/util.go:19-65 | exactly the probe's move, the driver validation's rename and the toolkit validation's create make the three files, and exactly the preStop hooks and the removals of the validations remove them |
| Handshake.FileStandsIff | internal/scope/patch/driver_manager.go:355-358 | in every run each file is there exactly if some step made it and no later one removed it |
| Handshake.SeenSpecIsNotEmpty | cmd/rbln-validator/toolkit.go:71-87 | every spec that a toolkit validation saw was in the CDI directory with a size above zero when it looked |
| Handshake.PluginStartsBehindChain | internal/scope/patch/device_plugin.go:337-354 | in every run a plugin starts only after its pod saw a standing toolkit-ready, published by a validation which saw, in that order, a standing driver-ready and a CDI spec that was there and not empty at that step; each file was neither withdrawn nor replaced until it was seen, and a backed validation had published the driver record |
| Handshake.StillStandsIff | internal/scope/patch/device_plugin.go:337-354 | the toolkit-ready that the pod saw still stands at a later point exactly if it was neither withdrawn nor replaced in between |
| Sandbox.HostStepKeepsInv | internal/scope/patch/sandbox-device-plugin.go:333-450 | every step of the handshake, of the devices and of the sandbox pods keeps the invariant |
| Sandbox.SandboxStartsBehindChecks | internal/scope/patch/sandbox-device-plugin.go:333-450 | in every run a sandbox plugin starts only after its own pod found every device of the vendor and class on vfio-pci and, before that, a standing container-ready file, published after a passed startup probe |
| Sandbox.StartRun | internal/scope/patch/sandbox-device-plugin.go:432-450 | some run does start a sandbox plugin |
| Sandbox.NoVMComponentBesideDriver | internal/scope/patch/vfio_manager.go:576 | in no state of a labelling run is a node selected by a driver DaemonSet and by a virtual-machine component |
| Sandbox.SandboxStartsIff | internal/scope/patch/sandbox-device-plugin.go:333-359 | over every history of node labels, a sandbox plugin can start on a node if and only if a driver DaemonSet has selected it and the sandbox plugin's selects it later or, where eviction lags, at any time |
| DriverRecord.StepKeepsRecords | cmd/rbln-validator/util.go:44-65 | every step keeps the invariant on temporary files and driver-ready, if no name is drawn that another validation is writing under |
| DriverRecord.DrawReplacesNothing | cmd/rbln-validator/util.go:46-50 | creating a temporary file replaces no file and no content |
| DriverRecord.RecordIsWhole | cmd/rbln-validator/util.go:44-65 | with any number of concurrent validations that draw only such free names, driver-ready is absent or the whole record of its last publisher, and so was every text a toolkit daemon read |
| DriverRecord.DriverReadyReadsBack | cmd/rbln-validator/driver.go:32-56 | driver-ready reads as the four lines of the validation that published it, which had succeeded before and whose file still stands |
| DriverRecord.DrawSafeIff | cmd/rbln-validator/util.go:44-65 | after any run of free draws, a draw keeps driver-ready whole in all later runs of free draws if and only if no validation is writing under the drawn name |
| DriverRecord.TakenNameBreaks | cmd/rbln-validator/util.go:44-65 | any other draw lets the earlier writer publish an empty record without a further draw |
| DriverRecord.ReusedNameBreaksRecord | cmd/rbln-validator/util.go:44-65 | a run in which three validations draw one name publishes an empty record |
| DriverRecord.PluginCanStart | internal/scope/patch/device_plugin.go:337-354 | some run does start a plugin |
| DriverRecord.PluginCanStartLate | internal/scope/patch/validator.go:459 | some run starts one after the preStop hook has removed toolkit-ready |
| DriverRecord.ContainerCanValidate | cmd/rbln-validator/driver_validation.go:70-129 | some run validates a driver container, managed by the operator or not |
| ToolkitScan.CheckReady | cmd/rbln-validator/toolkit.go:43-97 | succeeds exactly if driver-ready and the directory are readable, no RBLN entry is unreadable and one is not empty; the spec is the first of the newest |
| ToolkitScan.NamedIff | cmd/rbln-validator/toolkit.go:65-70 | an entry counts exactly if it is no directory and its name holds the four letters "rbln" in any case |
| Components.CleanUpMirrorsPatch | internal/scope/patch/rbln_daemon.go:72-142 | every component deletes exactly the kinds of objects it writes, on OpenShift and elsewhere |
| Components.KindsOf | internal/scope/patch/metrics_exporter.go:58-88 | which kinds of objects each component has, on OpenShift and elsewhere |
| Components.NamesOf | internal/scope/patch/vfio_manager.go:264 | under which names and in which namespace |
| Components.KeysApart | internal/scope/patch/vfio_manager.go:35-137 | for every base name no object belongs to two components, the daemon's fixed name included |
| Components.ApiServer.CreateOrPatch | internal/utils/k8s/common.go:46-51 | writes the wanted content and owner or fails before or after doing so; an object another policy controls ends the process and is not written |
| Components.ApiServer.Delete | internal/scope/patch/rbln_daemon.go:96-103 | removes the object or fails before or after doing so; a missing object is no failure |
| Components.ApiServer.Handle | internal/scope/patch/container_toolkit.go:79-149 | a component's calls in order: on success each of its objects has its wanted state; otherwise each object is as it was or as wanted |
| Components.ApiServer.PatchComponents | internal/scope/cluster_policy.go:105-118 | a done pass has finished every component; an unfinished one leaves each object as it was or as wanted; the process exits only on an object held by another policy, and such an object rules out success; with a healthy server the pass is done exactly if there is none |
| Components.FinishedMeaning | internal/scope/cluster_policy.go:105-118 | from any store, a finished pass leaves an object of a component present exactly if the policy switches the component on or it is the validator; present ones are as wanted, and all other objects untouched |
| Components.SecondPassChangesNothing | internal/scope/cluster_policy.go:105-118 | after a finished pass, another one, complete or not, changes nothing and is not held up |
| Components.LeftoversDoNotMatter | internal/scope/cluster_policy.go:105-118 | after any number of passes that stopped anywhere, a finished pass ends in the store an undisturbed one would have reached |
| Components.RestartsDoNotUnblock | internal/utils/k8s/common.go:46-51 | starting again neither cures nor causes an object held by another policy |
| Components.BlockedIff | internal/utils/k8s/common.go:46-51 | a pass is blocked exactly if an object that a switched-on component has to write, of a kind that gets an owner, exists and names another owner |
| Components.HandoverBlockedIff | internal/utils/k8s/common.go:46-51 | right after one policy's finished pass another policy is blocked exactly if both want an owned object, or a third party holds one that the new policy wants and the old one did not remove |
| Components.HandoverIsBlocked | internal/utils/k8s/common.go:46-51 | that is so for policies of the same names, and for policies of any names in one namespace that both run the daemon |
| Components.CollectionUnblocksIff | internal/utils/k8s/common.go:46-51 | after the old policy's objects are collected, the new one is blocked exactly if a third party holds an object that it wants and the old one did not own |
| Components.ClusterRoleOutlivesPolicy | internal/scope/patch/validator.go:291-314 | the validator's cluster role survives the collection unless it already carried the policy as owner |
| Singleton.Reconciler.Reconcile | internal/controller/rblnclusterpolicy_controller.go:53-127 | every request is a step of the protocol; one that gets through has labelled all nodes, finished all components and settled the cluster; with healthy servers it gets that far exactly if its policy is in charge, NFD labels and a device are found and no object is held by another policy |
| Singleton.OthersChangeNothing | internal/controller/rblnclusterpolicy_controller.go:77-82 | over any stretch of a run in which nothing ended the record, reconciles of other policies change neither nodes, objects nor the record |
| Singleton.RecordHolds | internal/controller/rblnclusterpolicy_controller.go:60-87 | over any stretch of a run the record stays until its policy is found missing or the operator restarts |
| Singleton.HandoverNeedsAnEnd | internal/controller/rblnclusterpolicy_controller.go:60-87 | the record leaves a policy only after a reconcile found that policy missing, or a restart |
| Singleton.OnePolicyInCharge | internal/controller/rblnclusterpolicy_controller.go:53-127 | until then every write of the operator is made for that policy |
| Singleton.SettledForGood | internal/controller/rblnclusterpolicy_controller.go:53-127 | once settled, no sequence of reconciles of any policies changes a label, an object or the record |
| Singleton.HandoverWaitsForCollection | internal/controller/rblnclusterpolicy_controller.go:53-127 | while a gone policy still holds the validator's DaemonSet, every other policy of the same names stays blocked, over all reconciles and restarts |
| Vfio.Sysfs.UnbindFromDriver | internal/scope/patch/vfio_manager.go:287-301 | takes a device off its driver and clears its override, leaves a driverless one alone, and touches no other device |
| Vfio.Sysfs.UnbindFromOtherDriver | internal/scope/patch/vfio_manager.go:303-318 | the same, except that a device on vfio-pci stays there |
| Vfio.Sysfs.BindPciDevice | internal/scope/patch/vfio_manager.go:372-383 | binds the device, or stops in one of the listed intermediate states |
| Vfio.Sysfs.BindAll | internal/scope/patch/vfio_manager.go:396-404 | on success, which a healthy host guarantees if it has any device, every target is bound; after an abort every device is in a listed intermediate state |
| Vfio.Sysfs.UnbindAll | internal/scope/patch/vfio_manager.go:362-370 | on success, which a healthy host guarantees if it has any device, every target is off its driver; after an abort every device is in a listed intermediate state |
| Vfio.Sysfs.CheckBindAll | internal/scope/patch/vfio_manager.go:423-467 | succeeds exactly if every device of vendor "0x1eff" and class "0x120000" has the driver vfio-pci |
| Vfio.BindAllMeaning | internal/scope/patch/vfio_manager.go:396-404 | a complete bind puts every such device on vfio-pci, passes the check and is idempotent; complete or not it leaves other vendors and classes alone |
| Vfio.RestartedBindConverges | internal/scope/patch/vfio_manager.go:372-404 | after any number of binds cut short anywhere, the next complete one ends where the first would have |
| Vfio.BindThenUnbindReleases | internal/scope/patch/vfio_manager.go:362-404 | bind then unbind leaves every target driverless with its override cleared and every other device untouched |
| Vfio.UnbindReleasesIff | internal/scope/patch/vfio_manager.go:287-301 | unbind alone releases a target exactly if it had a driver or no override |
| Vfio.RestartedUnbindConvergesIff | internal/scope/patch/vfio_manager.go:287-370 | after any number of unbinds cut short anywhere, the next complete one ends where the first would have exactly if no device was left between its two writes with an override |
| Vfio.UnfinishedBindSurvivesUnbind | internal/scope/patch/vfio_manager.go:372-383 | every unbound target has an unfinished bind after which unbind leaves it reserved for vfio-pci |
| EnvMerge.PutIsSeen | internal/scope/patch/validator.go:584-595 | an added variable is what the container sees unless its name was set twice already, and then it sees what it saw before; other names are as they were |
| EnvMerge.MergeAssociates | internal/scope/patch/validator.go:580-598 | merging in two goes is merging in one |
| EnvMerge.MergeMeaning | internal/scope/patch/container_toolkit.go:619-637 | on a base of distinct names: each name once, in order of first appearance, with its last value |
| EnvMerge.TransparentIff | internal/scope/patch/validator.go:580-598 | a merge means the lists written one after the other, for all additions, if and only if the base has distinct names |
| EnvMerge.Place | internal/scope/patch/validator.go:584-595 | the innermost loop replaces the first entry of that name in place or appends |
| EnvMerge.MergeEnvVars | internal/scope/patch/validator.go:580-598 | the three loops compute the merge and leave the base array as it is |
| EnvMerge.ValidatorEnvs | internal/scope/patch/validator.go:360-387 | each validator container sees its own list over the namespace over the common list over the default, and nothing of the other container's list |
| SpecLayers.SyncSpec | internal/scope/patch/util.go:44-75 | a component's labels and annotations win per key, shared affinity, tolerations and priority fill gaps, a disabled component gets the zero spec |
| SpecLayers.LayeringSettles | internal/scope/patch/util.go:44-75 | the layered spec is determined, and layering it again gives it back and nothing else |
| Affinity.MergeAffinity | internal/utils/k8s/podspec.go:90-194 | whatever the two share, the result has the merged rules and consists of the user's objects where there are any; the user's affinity changes exactly if the defaults add to an object it has, and the defaults exactly if that object is shared |
| Affinity.MergeMeaning | internal/utils/k8s/podspec.go:90-194 | preferred scores add, required pod and anti-affinity terms conjoin, required node terms are alternatives when both sides have some |

## Left out

- Kubernetes client, caches, watches, leader election and cmd/npu-operator/main.go: network and framework plumbing.
- Contents of pod specs, volumes, security contexts, probes and RBAC rules: an object's content is an opaque function of its key, so ordering of fields and defaults filled in by the API server are not captured; a second pass changes nothing in the store, which does not say that it sends no request.
- The owner reference check of controller-runtime: modelled as a comparison of policy names, and its failure as an exit of the process.
- Process execution, chroot, modinfo, rbln-smi and symlink resolution: either outcome is possible at any time.
- Time: sleeps, back-off, retries and any form of progress. CDI specs older than the driver are accepted, as in the code.
- Status conditions, status messages and the writes of a policy's status: the ready state of a component does not depend on its DaemonSet in the code, so it has no property worth stating.
- DaemonSets of vanished pools: the code never deletes them, so uniqueness over nodes is stated for the DaemonSets of one snapshot.
- driverManagerPatcher.CleanUp: it cannot be reached.
- collectDevices, the device plugin configuration and ComposeImageReference: they would only add easy members.
- setEnvVar and prependPathListEnvvar: they prepare the environment of a child process that is not modelled.
- Single-device commands of vfio-manage.sh and the handling of its arguments: the per-device functions they call are the ones modelled.
- Sharing between Go slices after append in MergeAffinity: sequences are values; only the sharing of objects is captured.
- Nil against empty maps in MergeMaps and syncSpec: both are the empty map here.
- Placement of pods over time: Sandbox assumes that a driver pod probes only once its DaemonSet has selected the node, and that a sandbox plugin starts only while its DaemonSet does or, where eviction lags, once it has; scheduling and eviction themselves are not modelled.
- Handshake and DriverRecord model driver_validation.go, driver.go, toolkit.go and util.go as a step relation on values rather than as methods, since the steps of different processes interleave.
