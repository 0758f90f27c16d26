/**
 * MergeAffinity (internal/utils/k8s/podspec.go). The Go code reuses the user's
 * objects for the result and appends the defaults into them, so the objects are
 * modelled as objects: what the merge means, and what else it changes.
 */
module Affinity {
  import opened Wrappers

  type Term = string

  datatype Weighted = Weighted(weight: int, term: Term)

  class NodeSelector {
    var terms: seq<Term>
    constructor (terms: seq<Term>) ensures this.terms == terms { this.terms := terms; }
  }

  class NodeAffinity {
    var required: NodeSelector?
    var preferred: seq<Weighted>
    constructor (required: NodeSelector?, preferred: seq<Weighted>)
      ensures this.required == required && this.preferred == preferred
    {
      this.required, this.preferred := required, preferred;
    }
  }

  class PodAffinity {
    var required: seq<Term>
    var preferred: seq<Weighted>
    constructor (required: seq<Term>, preferred: seq<Weighted>)
      ensures this.required == required && this.preferred == preferred
    {
      this.required, this.preferred := required, preferred;
    }
  }

  class PodAntiAffinity {
    var required: seq<Term>
    var preferred: seq<Weighted>
    constructor (required: seq<Term>, preferred: seq<Weighted>)
      ensures this.required == required && this.preferred == preferred
    {
      this.required, this.preferred := required, preferred;
    }
  }

  class Affinity {
    var node: NodeAffinity?
    var pod: PodAffinity?
    var anti: PodAntiAffinity?
    constructor (node: NodeAffinity?, pod: PodAffinity?, anti: PodAntiAffinity?)
      ensures this.node == node && this.pod == pod && this.anti == anti
    {
      this.node, this.pod, this.anti := node, pod, anti;
    }
  }

  // ---------- the rules an affinity spells out ----------

  datatype NodeRules = NodeRules(required: Option<seq<Term>>, preferred: seq<Weighted>)

  datatype PodRules = PodRules(required: seq<Term>, preferred: seq<Weighted>)

  datatype Rules = Rules(node: NodeRules, pod: PodRules, anti: PodRules)

  ghost function NodeView(a: NodeAffinity?): NodeRules
    reads a, if a != null then {a.required} else {}
  {
    if a == null then NodeRules(None, [])
    else NodeRules(if a.required == null then None else Some(a.required.terms), a.preferred)
  }

  ghost function PodView(a: PodAffinity?): PodRules
    reads a
  {
    if a == null then PodRules([], []) else PodRules(a.required, a.preferred)
  }

  ghost function AntiView(a: PodAntiAffinity?): PodRules
    reads a
  {
    if a == null then PodRules([], []) else PodRules(a.required, a.preferred)
  }

  /** The objects an affinity is made of, below the top one. */
  ghost function Parts(a: Affinity?): set<object?>
    reads a, if a != null then {a.node} else {}
  {
    if a == null then {}
    else {a.node, a.pod, a.anti} + if a.node != null then {a.node.required} else {}
  }

  ghost function View(a: Affinity?): Rules
    reads a, Parts(a)
  {
    if a == null then Rules(NodeView(null), PodView(null), AntiView(null))
    else Rules(NodeView(a.node), PodView(a.pod), AntiView(a.anti))
  }

  // ---------- what a scheduler makes of the rules ----------

  /** Required node terms are alternatives. */
  predicate NodeAllowed(r: NodeRules, fits: Term -> bool) {
    r.required.Some? ==> exists i :: 0 <= i < |r.required.value| && fits(r.required.value[i])
  }

  /** Required pod terms must all hold. */
  predicate PodAllowed(r: PodRules, holds: Term -> bool) {
    forall i :: 0 <= i < |r.required| ==> holds(r.required[i])
  }

  function Score(preferred: seq<Weighted>, fits: Term -> bool): int {
    if preferred == [] then 0
    else (if fits(preferred[0].term) then preferred[0].weight else 0) + Score(preferred[1..], fits)
  }

  // ---------- the merge ----------

  function MergedNode(d: NodeRules, u: NodeRules): NodeRules {
    NodeRules(
      if d.required.None? then u.required
      else if u.required.None? then d.required
      else Some(u.required.value + d.required.value),
      u.preferred + d.preferred)
  }

  function MergedPod(d: PodRules, u: PodRules): PodRules {
    PodRules(u.required + d.required, u.preferred + d.preferred)
  }

  function Merged(d: Rules, u: Rules): Rules {
    Rules(MergedNode(d.node, u.node), MergedPod(d.pod, u.pod), MergedPod(d.anti, u.anti))
  }

  /** The defaults have something for an object that the user has: preferences, or
      required terms that are not there already. */
  predicate NodeAdds(d: NodeRules, u: NodeRules) {
    d.preferred != [] || (d.required.Some? && (u.required.None? || d.required.value != []))
  }

  predicate PodAdds(d: PodRules) { d.required != [] || d.preferred != [] }

  lemma NodeAddsIff(d: NodeRules, u: NodeRules)
    ensures MergedNode(d, u) != u <==> NodeAdds(d, u)
  {
    assert |u.preferred + d.preferred| == |u.preferred| + |d.preferred|;
    if d.required.Some? && u.required.Some? {
      assert |u.required.value + d.required.value| == |u.required.value| + |d.required.value|;
      assert u.required.value + [] == u.required.value;
    }
    assert u.preferred + [] == u.preferred;
  }

  lemma PodAddsIff(d: PodRules, u: PodRules)
    ensures MergedPod(d, u) != u <==> PodAdds(d)
  {
    assert |u.required + d.required| == |u.required| + |d.required|;
    assert |u.preferred + d.preferred| == |u.preferred| + |d.preferred|;
  }

  /** The branches for one field: the user's object where there is one, with the
      defaults appended to it. The two may be the same object. */
  method MergeNode(d: NodeAffinity?, u: NodeAffinity?) returns (n: NodeAffinity?)
    modifies u, if u != null then {u.required} else {}
    ensures n == if u != null then u else d
    ensures NodeView(n) == MergedNode(old(NodeView(d)), old(NodeView(u)))
    ensures NodeView(u) == old(NodeView(u)) <==> u == null || d == null || !NodeAdds(old(NodeView(d)), old(NodeView(u)))
    ensures NodeView(d) == old(NodeView(d)) <==> !old(NodeSpoils(d, u))
  {
    n := if u != null then u else d;
    if d != null && u != null {
      NodeAddsIff(NodeView(d), NodeView(u));
      if d.required != null {
        if u.required == null {
          u.required := d.required;
        } else {
          u.required.terms := u.required.terms + d.required.terms;
        }
      }
      u.preferred := u.preferred + d.preferred;
    }
  }

  method MergePod(d: PodAffinity?, u: PodAffinity?) returns (n: PodAffinity?)
    modifies u
    ensures n == if u != null then u else d
    ensures PodView(n) == MergedPod(old(PodView(d)), old(PodView(u)))
    ensures PodView(u) == old(PodView(u)) <==> u == null || d == null || !PodAdds(old(PodView(d)))
    ensures PodView(d) == old(PodView(d)) <==> d == null || d != u || !PodAdds(old(PodView(d)))
  {
    n := if u != null then u else d;
    if d != null && u != null {
      PodAddsIff(PodView(d), PodView(u));
      u.required, u.preferred := u.required + d.required, u.preferred + d.preferred;
    }
  }

  method MergeAnti(d: PodAntiAffinity?, u: PodAntiAffinity?) returns (n: PodAntiAffinity?)
    modifies u
    ensures n == if u != null then u else d
    ensures AntiView(n) == MergedPod(old(AntiView(d)), old(AntiView(u)))
    ensures AntiView(u) == old(AntiView(u)) <==> u == null || d == null || !PodAdds(old(AntiView(d)))
    ensures AntiView(d) == old(AntiView(d)) <==> d == null || d != u || !PodAdds(old(AntiView(d)))
  {
    n := if u != null then u else d;
    if d != null && u != null {
      PodAddsIff(AntiView(d), AntiView(u));
      u.required, u.preferred := u.required + d.required, u.preferred + d.preferred;
    }
  }

  /** The node object, or its required terms, are shared and grow. */
  ghost predicate NodeSpoils(d: NodeAffinity?, u: NodeAffinity?)
    reads d, u, if d != null then {d.required} else {}
  {
    && d != null && u != null
    && (|| (d == u && d.preferred != [])
        || (d.required != null && d.required == u.required && d.required.terms != []))
  }

  /** The user's affinity changes: the defaults add to an object it has. */
  ghost predicate Adds(d: Affinity?, u: Affinity?)
    reads d, u, Parts(d), Parts(u)
  {
    && d != null && u != null
    && (|| (d.node != null && u.node != null && NodeAdds(NodeView(d.node), NodeView(u.node)))
        || (d.pod != null && u.pod != null && PodAdds(PodView(d.pod)))
        || (d.anti != null && u.anti != null && PodAdds(AntiView(d.anti))))
  }

  /** The defaults change: they share an object with the user's affinity and add
      to it. */
  ghost predicate Spoils(d: Affinity?, u: Affinity?)
    reads d, u, Parts(d), Parts(u)
  {
    && d != null && u != null
    && (|| NodeSpoils(d.node, u.node)
        || (d.pod != null && d.pod == u.pod && PodAdds(PodView(d.pod)))
        || (d.anti != null && d.anti == u.anti && PodAdds(AntiView(d.anti))))
  }

  /** The three fields, one after the other. */
  method MergeFields(d: NodeAffinity?, d': PodAffinity?, d'': PodAntiAffinity?,
                     u: NodeAffinity?, u': PodAffinity?, u'': PodAntiAffinity?)
    returns (n: NodeAffinity?, n': PodAffinity?, n'': PodAntiAffinity?)
    modifies u, u', u'', if u != null then {u.required} else {}
    ensures n == if u != null then u else d
    ensures n' == if u' != null then u' else d'
    ensures n'' == if u'' != null then u'' else d''
    ensures NodeView(n) == MergedNode(old(NodeView(d)), old(NodeView(u)))
    ensures PodView(n') == MergedPod(old(PodView(d')), old(PodView(u')))
    ensures AntiView(n'') == MergedPod(old(AntiView(d'')), old(AntiView(u'')))
    ensures NodeView(u) == old(NodeView(u)) <==> u == null || d == null || !NodeAdds(old(NodeView(d)), old(NodeView(u)))
    ensures PodView(u') == old(PodView(u')) <==> u' == null || d' == null || !PodAdds(old(PodView(d')))
    ensures AntiView(u'') == old(AntiView(u'')) <==> u'' == null || d'' == null || !PodAdds(old(AntiView(d'')))
    ensures NodeView(d) == old(NodeView(d)) <==> !old(NodeSpoils(d, u))
    ensures PodView(d') == old(PodView(d')) <==> d' == null || d' != u' || !PodAdds(old(PodView(d')))
    ensures AntiView(d'') == old(AntiView(d'')) <==> d'' == null || d'' != u'' || !PodAdds(old(AntiView(d'')))
  {
    n := MergeNode(d, u);
    n' := MergePod(d', u');
    n'' := MergeAnti(d'', u'');
  }

  method MergeBoth(d: Affinity, u: Affinity) returns (merged: Affinity)
    modifies Parts(u)
    ensures View(merged) == Merged(old(View(d)), old(View(u)))
    ensures View(u) == old(View(u)) <==> !old(Adds(d, u))
    ensures View(d) == old(View(d)) <==> !old(Spoils(d, u))
    ensures fresh(merged)
    ensures merged.node == if u.node != null then u.node else d.node
    ensures merged.pod == if u.pod != null then u.pod else d.pod
    ensures merged.anti == if u.anti != null then u.anti else d.anti
  {
    var node, pod, anti := MergeFields(d.node, d.pod, d.anti, u.node, u.pod, u.anti);
    merged := new Affinity(node, pod, anti);
  }

  /** The rules are merged whatever objects the two share. The result is made of
      the user's objects wherever the user has any, so the user's affinity changes
      with it exactly if the defaults add to one of them, and the defaults change
      exactly if that one is shared. */
  method MergeAffinity(d: Affinity?, u: Affinity?) returns (merged: Affinity?)
    modifies Parts(u)
    ensures View(merged) == Merged(old(View(d)), old(View(u)))
    ensures View(u) == old(View(u)) <==> !old(Adds(d, u))
    ensures View(d) == old(View(d)) <==> !old(Spoils(d, u))
    ensures d == null ==> merged == u
    ensures u == null ==> merged == d
    ensures d != null && u != null ==>
              && merged != null && fresh(merged)
              && merged.node == (if u.node != null then u.node else d.node)
              && merged.pod == (if u.pod != null then u.pod else d.pod)
              && merged.anti == (if u.anti != null then u.anti else d.anti)
  {
    if u == null {
      return d;
    }
    if d == null {
      return u;
    }
    merged := MergeBoth(d, u);
  }

  // ---------- what it means ----------

  lemma {:induction false} ScoreAdds(a: seq<Weighted>, b: seq<Weighted>, fits: Term -> bool)
    ensures Score(a + b, fits) == Score(a, fits) + Score(b, fits)
  {
    if a == [] {
      assert a + b == b;
    } else {
      assert (a + b)[1..] == a[1..] + b;
      ScoreAdds(a[1..], b, fits);
    }
  }

  lemma AlternativesUnite(d: NodeRules, u: NodeRules, fits: Term -> bool)
    requires d.required.Some? && u.required.Some?
    ensures NodeAllowed(MergedNode(d, u), fits) <==> NodeAllowed(d, fits) || NodeAllowed(u, fits)
  {
    var (x, y) := (u.required.value, d.required.value);
    if i :| 0 <= i < |x| && fits(x[i]) {
      assert (x + y)[i] == x[i];
    }
    if i :| 0 <= i < |y| && fits(y[i]) {
      assert (x + y)[|x| + i] == y[i];
    }
  }

  lemma DemandsConjoin(d: PodRules, u: PodRules, holds: Term -> bool)
    ensures PodAllowed(MergedPod(d, u), holds) <==> PodAllowed(d, holds) && PodAllowed(u, holds)
  {
    var (x, y) := (u.required, d.required);
    if PodAllowed(MergedPod(d, u), holds) {
      forall i | 0 <= i < |x| ensures holds(x[i]) {
        assert (x + y)[i] == x[i];
      }
      forall i | 0 <= i < |y| ensures holds(y[i]) {
        assert (x + y)[|x| + i] == y[i];
      }
    }
  }

  /** Scores add, pod demands conjoin, and required node terms are alternatives
      when both sides have some. */
  lemma MergeMeaning(d: Rules, u: Rules, fits: Term -> bool)
    ensures var m := Merged(d, u);
            && Score(m.node.preferred, fits) == Score(u.node.preferred, fits) + Score(d.node.preferred, fits)
            && Score(m.pod.preferred, fits) == Score(u.pod.preferred, fits) + Score(d.pod.preferred, fits)
            && Score(m.anti.preferred, fits) == Score(u.anti.preferred, fits) + Score(d.anti.preferred, fits)
            && (PodAllowed(m.pod, fits) <==> PodAllowed(d.pod, fits) && PodAllowed(u.pod, fits))
            && (PodAllowed(m.anti, fits) <==> PodAllowed(d.anti, fits) && PodAllowed(u.anti, fits))
            && (NodeAllowed(m.node, fits) <==>
                  if d.node.required.Some? && u.node.required.Some?
                  then NodeAllowed(d.node, fits) || NodeAllowed(u.node, fits)
                  else NodeAllowed(d.node, fits) && NodeAllowed(u.node, fits))
  {
    ScoreAdds(u.node.preferred, d.node.preferred, fits);
    ScoreAdds(u.pod.preferred, d.pod.preferred, fits);
    ScoreAdds(u.anti.preferred, d.anti.preferred, fits);
    DemandsConjoin(d.pod, u.pod, fits);
    DemandsConjoin(d.anti, u.anti, fits);
    if d.node.required.Some? && u.node.required.Some? {
      AlternativesUnite(d.node, u.node, fits);
    }
  }
}
