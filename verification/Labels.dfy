/** Label maps, Kubernetes equality selectors and the two map helpers the
    operator applies to them. */
module Labels {

  type LabelMap = map<string, string>

  /** A Kubernetes equality selector: every key must be present on the object
      and carry the demanded value. */
  predicate Selects(selector: LabelMap, labels: LabelMap) {
    forall k :: k in selector ==> k in labels && labels[k] == selector[k]
  }

  /** Go's `labels[key]`: an absent key reads as the empty string. */
  function Lookup(labels: LabelMap, key: string): string {
    if key in labels then labels[key] else ""
  }

  /** The entries whose key starts with `prefix`. */
  function WithPrefix(m: LabelMap, prefix: string): LabelMap {
    map k | k in m && prefix <= k :: m[k]
  }

  /** MergeMaps: two range loops over Go maps, whose order is arbitrary. */
  method MergeMaps(base: LabelMap, override: LabelMap) returns (r: LabelMap)
    ensures r.Keys == base.Keys + override.Keys
    ensures forall k :: k in override ==> r[k] == override[k]
    ensures forall k :: k in base && k !in override ==> r[k] == base[k]
  {
    r := map[];
    var todo := base.Keys;
    while todo != {}
      invariant todo <= base.Keys
      invariant r.Keys == base.Keys - todo
      invariant forall k :: k in r ==> r[k] == base[k]
    {
      var k :| k in todo;
      r := r[k := base[k]];
      todo := todo - {k};
    }
    todo := override.Keys;
    while todo != {}
      invariant todo <= override.Keys
      invariant r.Keys == base.Keys + (override.Keys - todo)
      invariant forall k :: k in r && k in override && k !in todo ==> r[k] == override[k]
      invariant forall k :: k in r && k !in override ==> r[k] == base[k]
    {
      var k :| k in todo;
      r := r[k := override[k]];
      todo := todo - {k};
    }
  }

  /** FilterMapWithPrefix: a range loop that copies the matching entries. */
  method FilterMapWithPrefix(m: LabelMap, prefix: string) returns (r: LabelMap)
    ensures r == WithPrefix(m, prefix)
  {
    r := map[];
    var todo := m.Keys;
    while todo != {}
      invariant todo <= m.Keys
      invariant forall k :: k in r <==> k in m && k !in todo && prefix <= k
      invariant forall k :: k in r ==> r[k] == m[k]
    {
      var k :| k in todo;
      if prefix <= k {
        r := r[k := m[k]];
      }
      todo := todo - {k};
    }
  }
}
