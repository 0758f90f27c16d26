/**
 * Component convergence (internal/scope/cluster_policy.go and the eight
 * patchers of internal/scope/patch): one pass creates, patches or deletes every
 * object a component owns and stops at the first call that goes wrong.
 *
 * The content of an object is an opaque string computed from the policy. Any
 * call to the API server may fail, before or after it took effect.
 */
module Components {
  import opened Wrappers

  datatype Kind =
    | ServiceAccount | Role | RoleBinding | ClusterRole | ClusterRoleBinding
    | ConfigMap | Service | DaemonSet

  datatype Key = Key(kind: Kind, namespace: string, name: string)

  /** `controller` is the owner reference, `content` the fields a patcher sets,
      `rest` the fields it leaves alone. */
  datatype Object = Object(controller: Option<string>, content: string, rest: string)

  type Store = map<Key, Object>

  function Get(objects: Store, k: Key): Option<Object> {
    if k in objects then Some(objects[k]) else None
  }

  // ---------- the components and what they own ----------

  datatype Component =
    | VfioManager | FeatureDiscovery | MetricsExporter | RblnDaemon
    | DevicePlugin | SandboxDevicePlugin | ContainerToolkit | OperatorValidator

  /** The order in which the scope registers its patchers. */
  const REGISTERED: seq<Component> :=
    [VfioManager, FeatureDiscovery, MetricsExporter, RblnDaemon,
     DevicePlugin, SandboxDevicePlugin, ContainerToolkit, OperatorValidator]

  lemma EveryComponentIsRegistered(c: Component)
    ensures c in REGISTERED
  {
    assert REGISTERED[0] == VfioManager && REGISTERED[1] == FeatureDiscovery;
    assert REGISTERED[2] == MetricsExporter && REGISTERED[3] == RblnDaemon;
    assert REGISTERED[4] == DevicePlugin && REGISTERED[5] == SandboxDevicePlugin;
    assert REGISTERED[6] == ContainerToolkit && REGISTERED[7] == OperatorValidator;
  }

  /** A pass of one policy: who owns what it writes, and what it wants. */
  datatype Pass = Pass(owner: string, baseName: string, namespace: string, openshift: bool,
                       switchedOn: Component -> bool, content: Key -> string)

  /** The validator cannot be switched off. */
  predicate Enabled(p: Pass, c: Component) {
    c == OperatorValidator || p.switchedOn(c)
  }

  function Tail(c: Component): string {
    match c
    case VfioManager => "vfio-manager"
    case FeatureDiscovery => "npu-feature-discovery"
    case MetricsExporter => "metrics-exporter"
    case RblnDaemon => "rbln-daemon"
    case DevicePlugin => "device-plugin"
    case SandboxDevicePlugin => "sandbox-device-plugin"
    case ContainerToolkit => "container-toolkit"
    case OperatorValidator => "operator-validator"
  }

  /** The daemon's name does not depend on the policy. */
  function ComponentName(baseName: string, c: Component): string {
    if c == RblnDaemon then Tail(c) else baseName + "-" + Tail(c)
  }

  function Extension(c: Component, kind: Kind): string {
    if kind == ConfigMap then (if c == ContainerToolkit then "-entrypoint" else "-config")
    else if kind == Service && c == MetricsExporter then "-service"
    else ""
  }

  predicate ClusterScoped(kind: Kind) { kind == ClusterRole || kind == ClusterRoleBinding }

  function KeyOf(p: Pass, c: Component, kind: Kind): Key {
    Key(kind, if ClusterScoped(kind) then "" else p.namespace, ComponentName(p.baseName, c) + Extension(c, kind))
  }

  /** The order of the writes in each Patch. */
  function PatchOrder(p: Pass, c: Component): seq<Kind> {
    var rbac := if p.openshift then [Role, RoleBinding] else [];
    match c
    case VfioManager => [ServiceAccount] + rbac + [ConfigMap, DaemonSet]
    case FeatureDiscovery => [ServiceAccount] + rbac + [DaemonSet]
    case MetricsExporter => [ServiceAccount] + rbac + [DaemonSet, Service]
    case RblnDaemon => [ServiceAccount] + rbac + [DaemonSet, Service]
    case DevicePlugin => [ServiceAccount] + rbac + [ConfigMap, DaemonSet]
    case SandboxDevicePlugin => [ServiceAccount] + rbac + [ConfigMap, DaemonSet]
    case ContainerToolkit => [ServiceAccount, Role, RoleBinding, ConfigMap, DaemonSet]
    case OperatorValidator => [ServiceAccount, Role, RoleBinding, ClusterRole, ClusterRoleBinding, DaemonSet]
  }

  /** The order of the deletes in each CleanUp. */
  function CleanUpOrder(p: Pass, c: Component): seq<Kind> {
    var rbac := if p.openshift then [RoleBinding, Role] else [];
    match c
    case VfioManager => [DaemonSet, ConfigMap] + rbac + [ServiceAccount]
    case FeatureDiscovery => [DaemonSet] + rbac + [ServiceAccount]
    case MetricsExporter => [Service, DaemonSet] + rbac + [ServiceAccount]
    case RblnDaemon => [Service, DaemonSet] + rbac + [ServiceAccount]
    case DevicePlugin => [DaemonSet, ConfigMap] + rbac + [ServiceAccount]
    case SandboxDevicePlugin => [DaemonSet, ConfigMap] + rbac + [ServiceAccount]
    case ContainerToolkit => [DaemonSet, RoleBinding, Role, ConfigMap, ServiceAccount]
    case OperatorValidator => [DaemonSet, ClusterRoleBinding, ClusterRole, RoleBinding, Role, ServiceAccount]
  }

  /** CleanUp deletes exactly what Patch writes. */
  lemma CleanUpMirrorsPatch(p: Pass, c: Component, kind: Kind)
    ensures kind in CleanUpOrder(p, c) <==> kind in PatchOrder(p, c)
  {
  }

  ghost predicate Owns(p: Pass, c: Component, k: Key) {
    k.kind in PatchOrder(p, c) && k == KeyOf(p, c, k.kind)
  }

  ghost function Keys(p: Pass, c: Component, kinds: seq<Kind>): set<Key> {
    set kind | kind in kinds :: KeyOf(p, c, kind)
  }

  lemma TailsApart(c: Component, d: Component)
    requires c != d
    ensures |Tail(c)| > 0 && |Tail(d)| > 0 && Tail(c)[0] != Tail(d)[0]
  {
  }

  /** No other tail ends like the one name that has no base name in front. */
  lemma TailsEndApart(c: Component)
    requires c != RblnDaemon
    ensures |Tail(c)| >= 11 && Tail(c)[|Tail(c)| - 2..] != "on" && Tail(RblnDaemon)[9..] == "on"
  {
    match c
    case VfioManager => assert Tail(c)[10..] == "er";
    case FeatureDiscovery => assert Tail(c)[19..] == "ry";
    case MetricsExporter => assert Tail(c)[14..] == "er";
    case DevicePlugin => assert Tail(c)[11..] == "in";
    case SandboxDevicePlugin => assert Tail(c)[19..] == "in";
    case ContainerToolkit => assert Tail(c)[15..] == "it";
    case OperatorValidator => assert Tail(c)[16..] == "or";
  }

  lemma DaemonNameApart(baseName: string, c: Component)
    requires c != RblnDaemon
    ensures ComponentName(baseName, c) != Tail(RblnDaemon)
    ensures ComponentName(baseName, c) + "-service" != Tail(RblnDaemon)
  {
    var n := ComponentName(baseName, c);
    TailsEndApart(c);
    assert n[|n| - 2..] == Tail(c)[|Tail(c)| - 2..];
    assert |n| >= 12;
  }

  lemma PrefixedNamesApart(baseName: string, c: Component, d: Component, kind: Kind)
    requires c != d && c != RblnDaemon && d != RblnDaemon
    ensures ComponentName(baseName, c) + Extension(c, kind) != ComponentName(baseName, d) + Extension(d, kind)
  {
    TailsApart(c, d);
    var i := |baseName| + 1;
    assert (ComponentName(baseName, c) + Extension(c, kind))[i] == Tail(c)[0];
    assert (ComponentName(baseName, d) + Extension(d, kind))[i] == Tail(d)[0];
  }

  lemma DaemonKeysApart(p: Pass, c: Component, k: Key)
    requires c != RblnDaemon && Owns(p, RblnDaemon, k)
    ensures !Owns(p, c, k)
  {
    DaemonNameApart(p.baseName, c);
    assert k.kind in {ServiceAccount, Role, RoleBinding, DaemonSet, Service};
    assert Extension(c, k.kind) == "" || Extension(c, k.kind) == "-service";
    assert k.name == Tail(RblnDaemon) + "" == Tail(RblnDaemon);
    assert ComponentName(p.baseName, c) + "" == ComponentName(p.baseName, c);
  }

  /** No object belongs to two components, whatever the policy's base name. */
  lemma KeysApart(p: Pass, c: Component, d: Component, k: Key)
    requires Owns(p, c, k) && Owns(p, d, k)
    ensures c == d
  {
    if c != d {
      if c == RblnDaemon {
        DaemonKeysApart(p, d, k);
      } else if d == RblnDaemon {
        DaemonKeysApart(p, c, k);
      } else {
        PrefixedNamesApart(p.baseName, c, d, k.kind);
      }
    }
  }

  // ---------- what a pass wants of each object ----------

  ghost predicate Wanted(p: Pass, k: Key) { exists c :: Enabled(p, c) && Owns(p, c, k) }

  ghost predicate Unwanted(p: Pass, k: Key) { exists c :: !Enabled(p, c) && Owns(p, c, k) }

  lemma NeverBoth(p: Pass, k: Key)
    ensures !(Wanted(p, k) && Unwanted(p, k))
  {
    if Wanted(p, k) && Unwanted(p, k) {
      var c :| Enabled(p, c) && Owns(p, c, k);
      var d :| !Enabled(p, d) && Owns(p, d, k);
      KeysApart(p, c, d, k);
    }
  }

  /** The object a CreateOrPatch leaves behind. The cluster-scoped objects get no
      owner reference. */
  function Written(p: Pass, k: Key, before: Option<Object>): Object {
    Object(if !ClusterScoped(k.kind) then Some(p.owner) else if before.Some? then before.value.controller else None,
           p.content(k),
           if before.Some? then before.value.rest else "")
  }

  /** What a finished pass makes of the object under `k`. */
  ghost function After(p: Pass, k: Key, before: Option<Object>): Option<Object> {
    if Wanted(p, k) then Some(Written(p, k, before))
    else if Unwanted(p, k) then None
    else before
  }

  /** Setting the owner reference of an object another policy controls ends the
      operator's process. */
  predicate HeldByAnother(p: Pass, k: Key, before: Option<Object>) {
    !ClusterScoped(k.kind) && before.Some? && before.value.controller.Some? && before.value.controller.value != p.owner
  }

  ghost predicate Stuck(p: Pass, k: Key, before: Option<Object>) {
    Wanted(p, k) && HeldByAnother(p, k, before)
  }

  ghost predicate Blocked(p: Pass, objects: Store) { exists k :: Stuck(p, k, Get(objects, k)) }

  ghost predicate Finished(p: Pass, before: Store, now: Store) {
    forall k :: Get(now, k) == After(p, k, Get(before, k))
  }

  /** A pass that stopped anywhere: each object is as it was or as wanted, and
      the ones held by another are as they were. */
  ghost predicate Partway(p: Pass, before: Store, now: Store) {
    forall k ::
      || Get(now, k) == Get(before, k)
      || (Get(now, k) == After(p, k, Get(before, k)) && !Stuck(p, k, Get(before, k)))
  }

  // ---------- the passes themselves ----------

  /** What the loops have done once the objects in `done` have had their turn. */
  ghost predicate Progress(p: Pass, before: Store, now: Store, done: set<Key>) {
    && (forall k :: Get(now, k) == if k in done then After(p, k, Get(before, k)) else Get(before, k))
    && (forall k :: k in done ==> !Stuck(p, k, Get(before, k)))
  }

  /** How a call on the object under `k`, or a run of calls, may end. */
  ghost predicate Ends(p: Pass, before: Store, now: Store, o: Outcome, done: set<Key>) {
    && (o == Done ==> Progress(p, before, now, done))
    && (o == Exited ==> Blocked(p, before))
    && Partway(p, before, now)
  }

  lemma ProgressIsPartway(p: Pass, before: Store, now: Store, done: set<Key>)
    requires Progress(p, before, now, done)
    ensures Partway(p, before, now)
  {
  }

  /** One more object has had its turn. */
  lemma Turn(p: Pass, before: Store, mid: Store, now: Store, done: set<Key>, k: Key)
    requires Progress(p, before, mid, done)
    requires forall j :: j != k ==> Get(now, j) == Get(mid, j)
    requires Get(now, k) == After(p, k, Get(mid, k))
    ensures Stuck(p, k, Get(mid, k)) ==> Blocked(p, before)
    ensures !Stuck(p, k, Get(mid, k)) ==> Progress(p, before, now, done + {k}) && Partway(p, before, now)
  {
    assert Get(now, k) == After(p, k, Get(before, k));
    forall j ensures Get(now, j) == if j in done + {k} then After(p, j, Get(before, j)) else Get(before, j) {
      if j != k {
        assert Get(now, j) == Get(mid, j);
      }
    }
  }

  lemma KeysStep(p: Pass, c: Component, kinds: seq<Kind>, i: nat, done: set<Key>)
    requires i < |kinds|
    ensures done + Keys(p, c, kinds[..i + 1]) == done + Keys(p, c, kinds[..i]) + {KeyOf(p, c, kinds[i])}
  {
    assert kinds[..i + 1] == kinds[..i] + [kinds[i]];
  }

  lemma KeysOfCleanUp(p: Pass, c: Component)
    ensures Keys(p, c, CleanUpOrder(p, c)) == Keys(p, c, PatchOrder(p, c))
  {
    forall kind ensures kind in CleanUpOrder(p, c) <==> kind in PatchOrder(p, c) {
      CleanUpMirrorsPatch(p, c, kind);
    }
  }

  ghost function AllKeys(p: Pass, cs: seq<Component>): set<Key> {
    if cs == [] then {}
    else AllKeys(p, cs[..|cs| - 1]) + Keys(p, cs[|cs| - 1], PatchOrder(p, cs[|cs| - 1]))
  }

  lemma {:induction false} AllKeysCover(p: Pass, cs: seq<Component>, c: Component, k: Key)
    requires c in cs && Owns(p, c, k)
    ensures k in AllKeys(p, cs)
  {
    if c != cs[|cs| - 1] {
      AllKeysCover(p, cs[..|cs| - 1], c, k);
    }
  }

  /** Every component has had its turn. */
  lemma PassDone(p: Pass, before: Store, now: Store)
    requires Progress(p, before, now, AllKeys(p, REGISTERED))
    ensures Finished(p, before, now) && !Blocked(p, before)
  {
    forall k, c | Owns(p, c, k) ensures k in AllKeys(p, REGISTERED) {
      EveryComponentIsRegistered(c);
      AllKeysCover(p, REGISTERED, c, k);
    }
  }

  /** While the server is healthy no call fails. */
  class ApiServer {
    var objects: Store
    var healthy: bool

    constructor (objects: Store, healthy: bool)
      ensures this.objects == objects && this.healthy == healthy
    {
      this.objects, this.healthy := objects, healthy;
    }

    /** Reads the object, lets the patcher fill it in, then creates or patches. */
    method CreateOrPatch(p: Pass, k: Key) returns (o: Outcome)
      modifies this`objects
      ensures healthy ==> o != Failed
      ensures o == Done ==> objects == old(objects)[k := Written(p, k, Get(old(objects), k))]
      ensures o == Failed ==> objects == old(objects) || objects == old(objects)[k := Written(p, k, Get(old(objects), k))]
      ensures o == Exited ==> HeldByAnother(p, k, Get(old(objects), k))
      ensures HeldByAnother(p, k, Get(old(objects), k)) ==> o != Done && objects == old(objects)
    {
      var readFails: bool, applied: bool, reported: bool := *, *, *;
      if readFails && !healthy {
        return Failed;
      }
      var found := Get(objects, k);
      if HeldByAnother(p, k, found) {
        return Exited;
      }
      applied, reported := applied || healthy, reported || healthy;
      if applied {
        objects := objects[k := Written(p, k, found)];
      }
      o := if applied && reported then Done else Failed;
    }

    /** A missing object counts as deleted. */
    method Delete(k: Key) returns (o: Outcome)
      modifies this`objects
      ensures o != Exited && (healthy ==> o == Done)
      ensures o == Done ==> objects == old(objects) - {k}
      ensures o == Failed ==> objects == old(objects) || objects == old(objects) - {k}
    {
      var applied: bool, reported: bool := *, *;
      applied, reported := applied || healthy, reported || healthy;
      if applied {
        objects := objects - {k};
      }
      o := if applied && reported then Done else Failed;
    }

    /** One call on an object of an enabled component. */
    method Write(p: Pass, c: Component, k: Key, ghost before: Store, ghost done: set<Key>) returns (o: Outcome)
      requires Enabled(p, c) && Owns(p, c, k) && Progress(p, before, objects, done)
      modifies this`objects
      ensures healthy ==> o != Failed
      ensures Ends(p, before, objects, o, done + {k})
    {
      ghost var mid := objects;
      o := CreateOrPatch(p, k);
      ProgressIsPartway(p, before, mid, done);
      Turn(p, before, mid, mid[k := Written(p, k, Get(mid, k))], done, k);
    }

    /** One call on an object of a disabled component. */
    method Remove(p: Pass, c: Component, k: Key, ghost before: Store, ghost done: set<Key>) returns (o: Outcome)
      requires !Enabled(p, c) && Owns(p, c, k) && Progress(p, before, objects, done)
      modifies this`objects
      ensures healthy ==> o != Failed
      ensures Ends(p, before, objects, o, done + {k})
    {
      ghost var mid := objects;
      NeverBoth(p, k);
      o := Delete(k);
      ProgressIsPartway(p, before, mid, done);
      Turn(p, before, mid, mid - {k}, done, k);
    }

    /** A component's Patch or CleanUp: its calls in order, up to the first that
        goes wrong. */
    method Handle(p: Pass, c: Component, ghost before: Store, ghost done: set<Key>) returns (o: Outcome)
      requires Progress(p, before, objects, done)
      modifies this`objects
      ensures healthy ==> o != Failed
      ensures Ends(p, before, objects, o, done + Keys(p, c, PatchOrder(p, c)))
    {
      var kinds := if Enabled(p, c) then PatchOrder(p, c) else CleanUpOrder(p, c);
      KeysOfCleanUp(p, c);
      for i := 0 to |kinds|
        invariant Progress(p, before, objects, done + Keys(p, c, kinds[..i]))
      {
        var k := KeyOf(p, c, kinds[i]);
        CleanUpMirrorsPatch(p, c, kinds[i]);
        KeysStep(p, c, kinds, i, done);
        if Enabled(p, c) {
          o := Write(p, c, k, before, done + Keys(p, c, kinds[..i]));
        } else {
          o := Remove(p, c, k, before, done + Keys(p, c, kinds[..i]));
        }
        if o != Done {
          return;
        }
      }
      assert kinds[..|kinds|] == kinds;
      ProgressIsPartway(p, before, objects, done + Keys(p, c, kinds));
      o := Done;
    }

    /** The loop over the patchers. */
    method HandleAll(p: Pass, patchers: seq<Component>) returns (o: Outcome)
      modifies this`objects
      ensures healthy ==> o != Failed
      ensures Ends(p, old(objects), objects, o, AllKeys(p, patchers))
    {
      for i := 0 to |patchers|
        invariant Progress(p, old(objects), objects, AllKeys(p, patchers[..i]))
      {
        o := Handle(p, patchers[i], old(objects), AllKeys(p, patchers[..i]));
        if o != Done {
          return;
        }
        assert patchers[..i + 1][..i] == patchers[..i];
      }
      assert patchers[..|patchers|] == patchers;
      ProgressIsPartway(p, old(objects), objects, AllKeys(p, patchers));
      o := Done;
    }

    /** One pass. A pass that is done has given every object its wanted state; one
        that is not has left each as it was or as wanted. Short of a failing call,
        a pass is done unless an object it wants is held by another policy, and
        then the process exits. */
    method PatchComponents(p: Pass) returns (o: Outcome)
      modifies this`objects
      ensures Partway(p, old(objects), objects)
      ensures healthy ==> o == if Blocked(p, old(objects)) then Exited else Done
      ensures o == Done ==> Finished(p, old(objects), objects) && !Blocked(p, old(objects))
      ensures o == Exited ==> Blocked(p, old(objects)) && Blocked(p, objects)
    {
      o := HandleAll(p, REGISTERED);
      if o == Done {
        PassDone(p, old(objects), objects);
      } else if o == Exited {
        ghost var k :| Stuck(p, k, Get(old(objects), k));
        assert Get(objects, k) == Get(old(objects), k);
      }
    }
  }

  // ---------- convergence ----------

  /** A finished pass, from any store: the objects of the components that the policy
      switches on, and of the validator, are present as wanted, those of the others
      are gone, everything else is as it was. */
  lemma FinishedMeaning(p: Pass, before: Store, now: Store)
    requires Finished(p, before, now)
    ensures forall c, kind :: kind in PatchOrder(p, c) ==>
              (KeyOf(p, c, kind) in now <==> c == OperatorValidator || p.switchedOn(c))
    ensures forall c, kind :: kind in PatchOrder(p, c) && (c == OperatorValidator || p.switchedOn(c)) ==>
              && var k := KeyOf(p, c, kind);
              && k in now && now[k].content == p.content(k)
              && (kind != ClusterRole && kind != ClusterRoleBinding ==> now[k].controller == Some(p.owner))
              && (k in before ==> now[k].rest == before[k].rest)
    ensures forall k :: (forall c :: !Owns(p, c, k)) ==> Get(now, k) == Get(before, k)
  {
    forall c, kind | kind in PatchOrder(p, c)
      ensures var k := KeyOf(p, c, kind);
              Get(now, k) == if Enabled(p, c) then Some(Written(p, k, Get(before, k))) else None
    {
      var k := KeyOf(p, c, kind);
      assert Owns(p, c, k);
      NeverBoth(p, k);
      assert Get(now, k) == After(p, k, Get(before, k));
    }
    forall k | forall c :: !Owns(p, c, k) ensures Get(now, k) == Get(before, k) {
      assert Get(now, k) == After(p, k, Get(before, k));
    }
  }

  /** Which kinds of objects a component has. */
  lemma KindsOf(p: Pass, c: Component, kind: Kind)
    ensures kind in PatchOrder(p, c) <==>
            match kind
            case ServiceAccount => true
            case DaemonSet => true
            case Role => p.openshift || c == ContainerToolkit || c == OperatorValidator
            case RoleBinding => p.openshift || c == ContainerToolkit || c == OperatorValidator
            case ConfigMap => c == VfioManager || c == DevicePlugin || c == SandboxDevicePlugin || c == ContainerToolkit
            case Service => c == MetricsExporter || c == RblnDaemon
            case ClusterRole => c == OperatorValidator
            case ClusterRoleBinding => c == OperatorValidator
  {
  }

  /** Where the objects are: the daemon's under its fixed name, the others' under the
      base name; the validator's cluster-wide objects in no namespace. */
  lemma NamesOf(p: Pass, c: Component, kind: Kind)
    requires kind in PatchOrder(p, c)
    ensures var k := KeyOf(p, c, kind);
            && k.kind == kind
            && k.namespace == (if kind == ClusterRole || kind == ClusterRoleBinding then "" else p.namespace)
            && k.name == if c == RblnDaemon then "rbln-daemon"
                         else if kind == ConfigMap && c == ContainerToolkit then p.baseName + "-" + Tail(c) + "-entrypoint"
                         else if kind == ConfigMap then p.baseName + "-" + Tail(c) + "-config"
                         else if kind == Service then p.baseName + "-" + Tail(c) + "-service"
                         else p.baseName + "-" + Tail(c)
  {
    KindsOf(p, c, kind);
    var n := ComponentName(p.baseName, c);
    assert n + "" == n;
  }

  /** When a pass runs into another policy's object: one it has to write, of a kind
      that gets an owner, exists and names another owner. */
  lemma BlockedIff(p: Pass, objects: Store)
    ensures Blocked(p, objects) <==> exists c, kind, other :: BlockedBy(p, objects, c, kind, other)
  {
    if k :| Stuck(p, k, Get(objects, k)) {
      var c :| Enabled(p, c) && Owns(p, c, k);
      assert BlockedBy(p, objects, c, k.kind, objects[k].controller.value);
    }
    if c, kind, other :| BlockedBy(p, objects, c, kind, other) {
      var k := KeyOf(p, c, kind);
      assert Owns(p, c, k) && Enabled(p, c);
      assert Stuck(p, k, Get(objects, k));
    }
  }

  ghost predicate BlockedBy(p: Pass, objects: Store, c: Component, kind: Kind, other: string) {
    && (c == OperatorValidator || p.switchedOn(c)) && kind in PatchOrder(p, c)
    && kind != ClusterRole && kind != ClusterRoleBinding
    && var k := KeyOf(p, c, kind);
    && k in objects && objects[k].controller == Some(other) && other != p.owner
  }

  lemma SameObjects(a: Store, b: Store)
    requires forall k :: Get(a, k) == Get(b, k)
    ensures a == b
  {
    forall k ensures (k in a <==> k in b) && (k in a ==> a[k] == b[k]) {
      assert Get(a, k) == Get(b, k);
    }
  }

  lemma AfterIdempotent(p: Pass, k: Key, before: Option<Object>)
    ensures After(p, k, After(p, k, before)) == After(p, k, before)
  {
  }

  /** A second pass changes nothing, even one that stops early, and nothing holds
      it up. */
  lemma SecondPassChangesNothing(p: Pass, before: Store, now: Store, later: Store)
    requires Finished(p, before, now) && Partway(p, now, later)
    ensures later == now && Finished(p, now, now) && !Blocked(p, now)
  {
    forall k
      ensures Get(later, k) == Get(now, k) == After(p, k, Get(now, k))
      ensures !Stuck(p, k, Get(now, k))
    {
      AfterIdempotent(p, k, Get(before, k));
      assert Get(now, k) == After(p, k, Get(before, k));
    }
    SameObjects(later, now);
  }

  /** Passes of the same policy, each stopped wherever it was. */
  ghost predicate Stops(p: Pass, run: seq<Store>) {
    |run| > 0 && forall i :: 0 <= i < |run| - 1 ==> Partway(p, run[i], run[i + 1])
  }

  lemma StopIsHarmless(p: Pass, before: Store, mid: Store, k: Key)
    requires Partway(p, before, mid)
    ensures After(p, k, Get(mid, k)) == After(p, k, Get(before, k))
    ensures Stuck(p, k, Get(before, k)) <==> Stuck(p, k, Get(mid, k))
  {
    AfterIdempotent(p, k, Get(before, k));
  }

  lemma {:induction false} StopsAreHarmless(p: Pass, run: seq<Store>, k: Key)
    requires Stops(p, run)
    ensures After(p, k, Get(run[|run| - 1], k)) == After(p, k, Get(run[0], k))
    ensures Stuck(p, k, Get(run[0], k)) <==> Stuck(p, k, Get(run[|run| - 1], k))
  {
    if |run| > 1 {
      var init := run[..|run| - 1];
      forall i | 0 <= i < |init| - 1 ensures Partway(p, init[i], init[i + 1]) {
        assert Partway(p, run[i], run[i + 1]);
      }
      StopsAreHarmless(p, init, k);
      assert Partway(p, run[|run| - 2], run[|run| - 2 + 1]);
      StopIsHarmless(p, run[|run| - 2], run[|run| - 1], k);
    }
  }

  /** However many passes stopped before it, a finished pass ends in the very
      store an undisturbed first pass would have ended in. */
  lemma LeftoversDoNotMatter(p: Pass, run: seq<Store>, now: Store, undisturbed: Store)
    requires Stops(p, run)
    requires Finished(p, run[|run| - 1], now) && Finished(p, run[0], undisturbed)
    ensures now == undisturbed
  {
    forall k ensures Get(now, k) == Get(undisturbed, k) {
      StopsAreHarmless(p, run, k);
      assert Get(now, k) == After(p, k, Get(run[|run| - 1], k));
      assert Get(undisturbed, k) == After(p, k, Get(run[0], k));
    }
    SameObjects(now, undisturbed);
  }

  /** Running into an object another policy holds is not cured by starting the
      pass again, however often. */
  lemma RestartsDoNotUnblock(p: Pass, run: seq<Store>)
    requires Stops(p, run)
    ensures Blocked(p, run[0]) <==> Blocked(p, run[|run| - 1])
  {
    var first, last := run[0], run[|run| - 1];
    if Blocked(p, first) {
      var k :| Stuck(p, k, Get(first, k));
      StopsAreHarmless(p, run, k);
    }
    if Blocked(p, last) {
      var k :| Stuck(p, k, Get(last, k));
      StopsAreHarmless(p, run, k);
    }
  }

  // ---------- handing the cluster to another policy ----------

  /** An object that stands in the way of `q` after a finished pass of `p`: both
      want it, or a third party held it and `p` did not remove it. */
  ghost predicate Clashes(p: Pass, q: Pass, before: Store, k: Key) {
    && Wanted(q, k) && !ClusterScoped(k.kind)
    && (Wanted(p, k) || (!Unwanted(p, k) && HeldByAnother(q, k, Get(before, k))))
  }

  /** Right after a finished pass of one policy, a pass of another is blocked
      exactly if some object clashes. */
  lemma HandoverBlockedIff(p: Pass, q: Pass, before: Store, now: Store)
    requires Finished(p, before, now) && q.owner != p.owner
    ensures Blocked(q, now) <==> exists k :: Clashes(p, q, before, k)
  {
    forall k ensures Stuck(q, k, Get(now, k)) <==> Clashes(p, q, before, k) {
      assert Get(now, k) == After(p, k, Get(before, k));
    }
  }

  /** That is always so for policies of the same names, and for policies of any
      names in one namespace that both run the daemon, whose name is fixed. */
  lemma HandoverIsBlocked(p: Pass, q: Pass, before: Store, now: Store)
    requires Finished(p, before, now) && q.owner != p.owner && q.namespace == p.namespace
    requires q.baseName == p.baseName || (Enabled(p, RblnDaemon) && Enabled(q, RblnDaemon))
    ensures Blocked(q, now)
  {
    var c := if q.baseName == p.baseName then OperatorValidator else RblnDaemon;
    var k := KeyOf(p, c, DaemonSet);
    assert k == KeyOf(q, c, DaemonSet);
    assert Owns(p, c, k) && Owns(q, c, k) && Enabled(p, c) && Enabled(q, c);
    assert Clashes(p, q, before, k);
    HandoverBlockedIff(p, q, before, now);
  }

  /** What is left once every object a deleted policy controls is collected. */
  function Collected(objects: Store, owner: string): Store {
    map k | k in objects && objects[k].controller != Some(owner) :: objects[k]
  }

  /** Once the old policy's objects are collected, the new one is blocked exactly
      if a third party held one of its objects before the old policy's pass, and
      the old pass did not need or remove that object. */
  lemma CollectionUnblocksIff(p: Pass, q: Pass, before: Store, now: Store)
    requires Finished(p, before, now) && q.owner != p.owner
    ensures Blocked(q, Collected(now, p.owner)) <==>
            exists k :: Stuck(q, k, Get(Collected(before, p.owner), k)) && !Wanted(p, k) && !Unwanted(p, k)
  {
    forall k
      ensures Stuck(q, k, Get(Collected(now, p.owner), k)) <==>
              Stuck(q, k, Get(Collected(before, p.owner), k)) && !Wanted(p, k) && !Unwanted(p, k)
    {
      assert Get(now, k) == After(p, k, Get(before, k));
    }
  }

  /** The validator's cluster role carries no owner, so it outlives its policy. */
  lemma ClusterRoleOutlivesPolicy(p: Pass, before: Store, now: Store)
    requires Finished(p, before, now)
    ensures var k := KeyOf(p, OperatorValidator, ClusterRole);
            k in Collected(now, p.owner) <==> !(k in before && before[k].controller == Some(p.owner))
  {
    var k := KeyOf(p, OperatorValidator, ClusterRole);
    assert Owns(p, OperatorValidator, k) && Enabled(p, OperatorValidator);
    assert Get(now, k) == After(p, k, Get(before, k));
  }
}
