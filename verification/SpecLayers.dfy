/** Layering of the settings shared by all DaemonSets under a component's own
    (syncSpec in internal/scope/patch/util.go). */
module SpecLayers {
  import opened Wrappers
  import opened Labels

  datatype Shared = Shared(labels: LabelMap, annotations: LabelMap, affinity: Option<string>,
                           tolerations: seq<string>, priorityClass: string)

  /** `rest` stands for the fields layering leaves alone. */
  datatype ComponentSpec = ComponentSpec(enabled: bool, labels: LabelMap, annotations: LabelMap,
                                         affinity: Option<string>, tolerations: seq<string>,
                                         priorityClass: string, rest: string)

  const ZERO: ComponentSpec := ComponentSpec(false, map[], map[], None, [], "", "")

  /** The layered spec as the design has it: the component's own setting where it
      has one, else the shared one; a disabled component has nothing. */
  ghost predicate IsLayered(shared: Option<Shared>, own: ComponentSpec, r: ComponentSpec) {
    if !own.enabled then r == ComponentSpec(false, map[], map[], None, [], "", "")
    else if shared.None? then r == own
    else
      var ds := shared.value;
      && r.enabled && r.rest == own.rest
      && (forall k :: k in r.labels <==> k in own.labels || k in ds.labels)
      && (forall k :: k in r.labels ==> r.labels[k] == if k in own.labels then own.labels[k] else ds.labels[k])
      && (forall k :: k in r.annotations <==> k in own.annotations || k in ds.annotations)
      && (forall k :: k in r.annotations ==>
            r.annotations[k] == if k in own.annotations then own.annotations[k] else ds.annotations[k])
      && r.affinity == (if own.affinity.Some? then own.affinity else ds.affinity)
      && r.tolerations == (if own.tolerations != [] then own.tolerations else ds.tolerations)
      && r.priorityClass == (if own.priorityClass != "" then own.priorityClass else ds.priorityClass)
  }

  method SyncSpec(shared: Option<Shared>, own: ComponentSpec) returns (r: ComponentSpec)
    ensures IsLayered(shared, own, r)
  {
    if !own.enabled {
      return ZERO;
    }
    r := own;
    if shared.Some? {
      var ds := shared.value;
      var labels := MergeMaps(ds.labels, r.labels);
      r := r.(labels := labels);
      var annotations := MergeMaps(ds.annotations, r.annotations);
      r := r.(annotations := annotations);
      if r.affinity.None? && ds.affinity.Some? {
        r := r.(affinity := ds.affinity);
      }
      if r.tolerations == [] && ds.tolerations != [] {
        r := r.(tolerations := ds.tolerations);
      }
      if r.priorityClass == "" && ds.priorityClass != "" {
        r := r.(priorityClass := ds.priorityClass);
      }
    }
  }

  lemma SameMap(a: LabelMap, b: LabelMap)
    requires forall k :: k in a <==> k in b
    requires forall k :: k in a && k in b ==> a[k] == b[k]
    ensures a == b
  {
  }

  /** Layering has one result, and layering again gives it back. */
  lemma LayeringSettles(shared: Option<Shared>, own: ComponentSpec, once: ComponentSpec, twice: ComponentSpec)
    requires IsLayered(shared, own, once)
    ensures IsLayered(shared, own, twice) ==> twice == once
    ensures IsLayered(shared, once, twice) <==> twice == once
  {
    if own.enabled && shared.Some? {
      if IsLayered(shared, once, twice) || IsLayered(shared, own, twice) {
        SameMap(twice.labels, once.labels);
        SameMap(twice.annotations, once.annotations);
      }
    }
  }
}
