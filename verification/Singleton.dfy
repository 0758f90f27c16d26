/**
 * The cluster-policy reconciler (internal/controller/rblnclusterpolicy_controller.go):
 * one recorded policy is in charge of the nodes and the components, and every
 * other policy is ignored. The record lives in the operator's memory.
 */
module Singleton {
  import opened Wrappers
  import opened NodeLabelling
  import Components

  /** What the reconciler reads from a policy; `spec.owner` is its name. */
  datatype Policy = Policy(spec: Components.Pass, default: string)

  datatype World = World(singleton: string, policies: map<string, Policy>,
                         nodes: Cluster, objects: Components.Store)

  /** Names of API objects are not empty, and a policy owns in its own name. */
  ghost predicate WellNamed(policies: map<string, Policy>) {
    forall n :: n in policies ==> n != "" && policies[n].spec.owner == n
  }

  datatype Fetch = Found | Missing | FetchFailed

  datatype Event =
    | Reconciled(name: string, fetch: Fetch)
    | PoliciesEdited
    | ClusterEdited  // somebody else changes nodes or objects
    | Restarted

  ghost predicate ReconcileStep(w: World, name: string, fetch: Fetch, w': World) {
    && w'.policies == w.policies
    && match fetch
       case FetchFailed => w' == w
       case Missing =>
         name !in w.policies && w' == w.(singleton := if w.singleton == name then "" else w.singleton)
       case Found =>
         && name in w.policies
         && if w.singleton != "" && w.singleton != name then w' == w
            else w'.singleton == name && PassesOf(w.policies[name], w, w')
  }

  /** What the two passes of a policy may do: the components are touched only once
      every node is labelled and one has the device. */
  ghost predicate PassesOf(policy: Policy, w: World, w': World) {
    && PassEffect(w.nodes, w'.nodes, policy.default)
    && Components.Partway(policy.spec, w.objects, w'.objects)
    && (w'.objects != w.objects ==>
          && w'.nodes == Targets(w.nodes, policy.default)
          && DeviceNodes(w.nodes) != {}
          && exists n :: n in w.nodes && HasNFDLabels(w.nodes[n]))
  }

  ghost predicate Step(w: World, e: Event, w': World) {
    WellNamed(w.policies) && WellNamed(w'.policies) &&
    match e
    case Reconciled(name, fetch) => ReconcileStep(w, name, fetch, w')
    case PoliciesEdited => w' == w.(policies := w'.policies)
    case ClusterEdited => w'.singleton == w.singleton && w'.policies == w.policies
    case Restarted => w' == w.(singleton := "")
  }

  ghost predicate Run(worlds: seq<World>, events: seq<Event>) {
    |worlds| == |events| + 1 && forall i :: 0 <= i < |events| ==> Step(worlds[i], events[i], worlds[i + 1])
  }

  class Reconciler {
    var singleton: string
    var policies: map<string, Policy>
    const nodes: NodeStore
    const api: Components.ApiServer

    constructor (policies: map<string, Policy>, nodes: NodeStore, api: Components.ApiServer)
      ensures singleton == "" && this.policies == policies && this.nodes == nodes && this.api == api
    {
      this.singleton, this.policies, this.nodes, this.api := "", policies, nodes, api;
    }

    ghost function View(): World
      reads this, nodes, api
    {
      World(singleton, policies, nodes.nodes, api.objects)
    }

    /** A reconcile request for `name`; the node list arrives in some `order`.
        Besides being a step of the protocol, a reconcile that reaches the end of
        its component pass has labelled every node and finished every component. */
    method Reconcile(name: string, order: seq<string>, fetchFails: bool, scopeFails: bool, listFails: bool)
      returns (fetch: Fetch, components: Option<Outcome>)
      requires WellNamed(policies) && Listing(nodes.nodes, order)
      modifies this`singleton, nodes`nodes, nodes`updates, api`objects
      ensures Step(old(View()), Reconciled(name, fetch), View())
      ensures fetch == if fetchFails then FetchFailed else if name in policies then Found else Missing
      ensures singleton == if fetch == Found && old(singleton) == "" then name
                           else if fetch == Missing && old(singleton) == name then "" else old(singleton)
      ensures components.Some? ==> name in policies && singleton == name
      ensures nodes.healthy && fetch == Found && old(singleton) in {"", name} && !scopeFails && !listFails ==>
                nodes.nodes == Targets(old(nodes.nodes), policies[name].default)
      ensures nodes.healthy ==>
                (components.Some? <==>
                   && fetch == Found && old(singleton) in {"", name} && !scopeFails && !listFails
                   && DeviceNodes(old(nodes.nodes)) != {}
                   && exists n :: n in old(nodes.nodes) && HasNFDLabels(old(nodes.nodes)[n]))
      ensures api.healthy && components.Some? ==>
                components.value == if Components.Blocked(policies[name].spec, old(api.objects))
                                    then Exited else Done
      ensures components.None? ==> api.objects == old(api.objects)
      ensures components == Some(Done) ==>
                && nodes.nodes == Targets(old(nodes.nodes), policies[name].default)
                && Components.Finished(policies[name].spec, old(api.objects), api.objects)
                && !Components.Blocked(policies[name].spec, old(api.objects))
                && Settled(View())
      ensures components == Some(Exited) ==> Components.Blocked(policies[name].spec, old(api.objects))
    {
      components := None;
      if fetchFails {
        return FetchFailed, None;
      }
      if name !in policies {
        if singleton == name {
          singleton := "";
        }
        return Missing, None;
      }
      fetch := Found;
      if singleton != "" && singleton != name {
        return;
      }
      if singleton == "" {
        singleton := name;
      }
      var policy := policies[name];
      if scopeFails {
        return;
      }
      var ok, nfd, count := nodes.LabelRblnNodes(policy.default, order, listFails);
      if !ok || !nfd || count == 0 {
        return;
      }
      var outcome := api.PatchComponents(policy.spec);
      components := Some(outcome);
    }
  }

  // ---------- runs ----------

  /** A reconcile that changes a node or an object is one of the policy that is on
      record afterwards, and no other was on record before. */
  lemma WritesOnlyForSingleton(w: World, e: Event, w': World)
    requires Step(w, e, w') && e.Reconciled? && (w'.nodes != w.nodes || w'.objects != w.objects)
    ensures e.fetch == Found && e.name in w.policies && w'.singleton == e.name
    ensures w.singleton == "" || w.singleton == e.name
    ensures PassesOf(w.policies[e.name], w, w')
  {
  }

  /** The events that end a policy's time on record. */
  predicate Ends(e: Event, name: string) {
    e == Restarted || e == Reconciled(name, Missing)
  }

  lemma RecordStays(w: World, e: Event, w': World)
    requires Step(w, e, w') && w.singleton != "" && !Ends(e, w.singleton)
    ensures w'.singleton == w.singleton
  {
  }

  /** While nothing ended it, the record holds over any stretch of a run. */
  lemma {:induction false} RecordHolds(worlds: seq<World>, events: seq<Event>, i: nat, j: nat)
    requires Run(worlds, events) && i <= j <= |events| && worlds[i].singleton != ""
    requires forall t :: i <= t < j ==> !Ends(events[t], worlds[i].singleton)
    ensures worlds[j].singleton == worlds[i].singleton
    decreases j
  {
    if i < j {
      RecordHolds(worlds, events, i, j - 1);
      assert Step(worlds[j - 1], events[j - 1], worlds[j - 1 + 1]);
      RecordStays(worlds[j - 1], events[j - 1], worlds[j]);
    }
  }

  /** The record moves away from a policy only after a reconcile found that policy
      missing, or the operator restarted. */
  lemma HandoverNeedsAnEnd(worlds: seq<World>, events: seq<Event>, i: nat, j: nat)
    requires Run(worlds, events) && i <= j <= |events|
    requires worlds[i].singleton != "" && worlds[j].singleton != worlds[i].singleton
    ensures exists t :: i <= t < j && Ends(events[t], worlds[i].singleton)
  {
    if forall t :: i <= t < j ==> !Ends(events[t], worlds[i].singleton) {
      RecordHolds(worlds, events, i, j);
    }
  }

  /** Until then the reconciles of other policies change nothing at all. */
  lemma OthersChangeNothing(worlds: seq<World>, events: seq<Event>, i: nat, j: nat)
    requires Run(worlds, events) && i <= j < |events| && worlds[i].singleton != ""
    requires forall t :: i <= t < j ==> !Ends(events[t], worlds[i].singleton)
    requires events[j].Reconciled? && events[j].name != worlds[i].singleton
    ensures worlds[j + 1] == worlds[j]
  {
    RecordHolds(worlds, events, i, j);
    assert Step(worlds[j], events[j], worlds[j + 1]);
  }

  /** Until then every write of the operator is made for that policy. */
  lemma OnePolicyInCharge(worlds: seq<World>, events: seq<Event>, i: nat, j: nat)
    requires Run(worlds, events) && i <= j < |events| && worlds[i].singleton != ""
    requires forall t :: i <= t < j ==> !Ends(events[t], worlds[i].singleton)
    requires events[j].Reconciled? && (worlds[j + 1].nodes != worlds[j].nodes || worlds[j + 1].objects != worlds[j].objects)
    ensures events[j] == Reconciled(worlds[i].singleton, Found)
    ensures worlds[j + 1].singleton == worlds[i].singleton
  {
    RecordHolds(worlds, events, i, j);
    assert Step(worlds[j], events[j], worlds[j + 1]);
    WritesOnlyForSingleton(worlds[j], events[j], worlds[j + 1]);
  }

  // ---------- settling ----------

  /** What a reconcile that went through leaves behind. */
  ghost predicate Settled(w: World) {
    && w.singleton in w.policies
    && var policy := w.policies[w.singleton];
    && (exists before :: w.nodes == Targets(before, policy.default))
    && (exists before :: Components.Finished(policy.spec, before, w.objects))
  }

  lemma ReconcileKeepsSettled(w: World, e: Event, w': World)
    requires Settled(w) && Step(w, e, w') && e.Reconciled?
    ensures w' == w
  {
    if e == Reconciled(w.singleton, Found) {
      var policy := w.policies[w.singleton];
      var nodes :| w.nodes == Targets(nodes, policy.default);
      forall n | n in w.nodes ensures Target(w.nodes[n], policy.default) == w.nodes[n] {
        TargetIdempotent(nodes[n], policy.default);
      }
      assert w'.nodes == w.nodes;
      var objects :| Components.Finished(policy.spec, objects, w.objects);
      Components.SecondPassChangesNothing(policy.spec, objects, w.objects, w'.objects);
    }
  }

  /** Once settled, no sequence of reconciles of any policies, cut short anywhere,
      changes a label, an object or the record. */
  lemma {:induction false} SettledForGood(worlds: seq<World>, events: seq<Event>, i: nat)
    requires Run(worlds, events) && i <= |events| && Settled(worlds[0])
    requires forall e :: e in events ==> e.Reconciled?
    ensures worlds[i] == worlds[0]
  {
    if i > 0 {
      SettledForGood(worlds, events, i - 1);
      assert Step(worlds[i - 1], events[i - 1], worlds[i - 1 + 1]) && events[i - 1] in events;
      ReconcileKeepsSettled(worlds[i - 1], events[i - 1], worlds[i]);
    }
  }

  // ---------- handing over ----------

  ghost predicate SameNames(p: Components.Pass, q: Components.Pass) {
    p.baseName == q.baseName && p.namespace == q.namespace
  }

  /** The validator's DaemonSet still belongs to the policy of `p`. */
  ghost predicate StillHeld(p: Components.Pass, objects: Components.Store) {
    var k := Components.KeyOf(p, Components.OperatorValidator, Components.DaemonSet);
    k in objects && objects[k].controller == Some(p.owner)
  }

  lemma HeldBlocks(p: Components.Pass, q: Components.Pass, objects: Components.Store)
    requires StillHeld(p, objects) && SameNames(p, q) && q.owner != p.owner
    ensures Components.Blocked(q, objects)
    ensures forall later :: Components.Partway(q, objects, later) ==> StillHeld(p, later)
  {
    var k := Components.KeyOf(p, Components.OperatorValidator, Components.DaemonSet);
    assert k == Components.KeyOf(q, Components.OperatorValidator, Components.DaemonSet);
    assert Components.Owns(q, Components.OperatorValidator, k);
    assert Components.Enabled(q, Components.OperatorValidator);
    assert Components.Stuck(q, k, Components.Get(objects, k));
    forall later | Components.Partway(q, objects, later) ensures StillHeld(p, later) {
      assert Components.Get(later, k) == Components.Get(objects, k);
    }
  }

  /** After a policy is gone, and until somebody collects its objects, no other
      policy of the same names gets through a component pass, however the events
      fall and however often the operator restarts. */
  lemma {:induction false} HandoverWaitsForCollection(worlds: seq<World>, events: seq<Event>, p: Components.Pass, i: nat)
    requires Run(worlds, events) && i <= |events| && StillHeld(p, worlds[0].objects)
    requires forall e :: e in events ==> e != ClusterEdited
    requires forall w, n :: w in worlds && n in w.policies ==> n != p.owner && SameNames(p, w.policies[n].spec)
    ensures StillHeld(p, worlds[i].objects)
    ensures forall n :: n in worlds[i].policies && worlds[i].policies[n].spec.owner == n ==>
              Components.Blocked(worlds[i].policies[n].spec, worlds[i].objects)
  {
    assert worlds[i] in worlds;
    if i > 0 {
      HandoverWaitsForCollection(worlds, events, p, i - 1);
      var w, e := worlds[i - 1], events[i - 1];
      assert Step(w, e, worlds[i - 1 + 1]) && e in events && w in worlds;
      if e.Reconciled? && worlds[i].objects != w.objects {
        WritesOnlyForSingleton(w, e, worlds[i]);
        HeldBlocks(p, w.policies[e.name].spec, w.objects);
      }
    }
    forall n | n in worlds[i].policies && worlds[i].policies[n].spec.owner == n
      ensures Components.Blocked(worlds[i].policies[n].spec, worlds[i].objects)
    {
      HeldBlocks(p, worlds[i].policies[n].spec, worlds[i].objects);
    }
  }
}
