/** driverRelevantNodeLabelUpdated: which node updates wake the driver
    reconciler, and when ignoring the others loses nothing. */
module NodeWatch {
  import opened Labels
  import opened NodePools

  const WATCHED: seq<string> := [DEPLOY, OS_ID, OS_VERSION, KERNEL]

  /** The search over the watched keys; Go reads an absent label as "". */
  predicate Relevant(before: LabelMap, after: LabelMap) {
    exists i :: 0 <= i < |WATCHED| && Lookup(before, WATCHED[i]) != Lookup(after, WATCHED[i])
  }

  /** A round of updates of which none wakes the reconciler. */
  ghost predicate Suppressed(before: seq<Node>, after: seq<Node>) {
    && |before| == |after|
    && forall i :: 0 <= i < |before| ==>
         before[i].name == after[i].name && !Relevant(before[i].labels, after[i].labels)
  }

  /** No watched label turns from absent to empty or back. */
  ghost predicate NoEmptySwitch(before: seq<Node>, after: seq<Node>)
    requires |before| == |after|
  {
    forall i, k :: 0 <= i < |before| && k in WATCHED ==> (k in before[i].labels <==> k in after[i].labels)
  }

  ghost predicate SamePools(before: seq<Node>, after: seq<Node>, selector: LabelMap) {
    forall p :: PoolOfCluster(before, selector, p) <==> PoolOfCluster(after, selector, p)
  }

  lemma SuppressedLookups(before: LabelMap, after: LabelMap, k: string)
    requires !Relevant(before, after) && k in WATCHED
    ensures Lookup(before, k) == Lookup(after, k)
  {
    var j :| 0 <= j < |WATCHED| && WATCHED[j] == k;
  }

  // ---------- clusters that look alike to a selector ----------

  /** The watched labels are the same. */
  ghost predicate Alike(m: Node, n: Node) {
    forall k :: k in WATCHED ==>
      (k in m.labels <==> k in n.labels) && (k in m.labels ==> m.labels[k] == n.labels[k])
  }

  ghost predicate AllAlike(before: seq<Node>, after: seq<Node>) {
    |before| == |after| && forall i :: 0 <= i < |before| ==> Alike(before[i], after[i])
  }

  /** Both nodes are listed and look alike, or neither is listed. */
  ghost predicate ListedAlike(m: Node, n: Node, base: LabelMap) {
    if Selects(base, m.labels) then Selects(base, n.labels) && Alike(m, n) else !Selects(base, n.labels)
  }

  ghost predicate AllListedAlike(before: seq<Node>, after: seq<Node>, base: LabelMap) {
    |before| == |after| && forall i :: 0 <= i < |before| ==> ListedAlike(before[i], after[i], base)
  }

  lemma AlikeNodes(m: Node, n: Node, base: LabelMap)
    requires Alike(m, n)
    ensures BuildNodePool(m, base) == BuildNodePool(n, base)
  {
    assert WATCHED[1] in WATCHED && WATCHED[2] in WATCHED && WATCHED[3] in WATCHED;
  }

  lemma AlikeAppend(before: seq<Node>, after: seq<Node>, m: Node, n: Node)
    requires AllAlike(before, after) && Alike(m, n)
    ensures AllAlike(before + [m], after + [n])
  {
  }

  lemma {:induction false} AlikeListings(before: seq<Node>, after: seq<Node>, base: LabelMap)
    requires AllListedAlike(before, after, base)
    ensures AllAlike(ListNodes(before, base), ListNodes(after, base))
  {
    if before != [] {
      var i := |before| - 1;
      var m, n := before[i], after[i];
      AlikeListings(before[..i], after[..i], base);
      assert ListedAlike(m, n, base);
      if Selects(base, m.labels) {
        AlikeAppend(ListNodes(before[..i], base), ListNodes(after[..i], base), m, n);
      }
    }
  }

  lemma AlikePools(before: seq<Node>, after: seq<Node>, base: LabelMap, p: NodePool)
    requires AllAlike(before, after) && IsPool(before, base, p)
    ensures IsPool(after, base, p)
  {
    var i: nat :| PoolAt(before, base, p, i);
    forall j | 0 <= j <= i ensures BuildNodePool(before[j], base) == BuildNodePool(after[j], base) {
      AlikeNodes(before[j], after[j], base);
    }
    assert PoolAt(after, base, p, i);
  }

  lemma AlikeSymmetric(before: seq<Node>, after: seq<Node>)
    requires AllAlike(before, after)
    ensures AllAlike(after, before)
  {
  }

  lemma ListedAlikeGivesSamePools(before: seq<Node>, after: seq<Node>, selector: LabelMap)
    requires AllListedAlike(before, after, BuildNodeSelector(selector))
    ensures SamePools(before, after, selector)
  {
    var base := BuildNodeSelector(selector);
    AlikeListings(before, after, base);
    var b, a := ListNodes(before, base), ListNodes(after, base);
    AlikeSymmetric(b, a);
    forall p ensures PoolOfCluster(before, selector, p) <==> PoolOfCluster(after, selector, p) {
      if IsPool(b, base, p) { AlikePools(b, a, base, p); }
      if IsPool(a, base, p) { AlikePools(a, b, base, p); }
    }
  }

  // ---------- selectors over watched keys ----------

  ghost predicate OnlyWatched(selector: LabelMap) {
    forall k :: k in selector ==> k in WATCHED
  }

  lemma SuppressedUpdateIsSafe(before: seq<Node>, after: seq<Node>, selector: LabelMap)
    requires OnlyWatched(selector)
    requires Suppressed(before, after) && NoEmptySwitch(before, after)
    ensures SamePools(before, after, selector)
  {
    var base := BuildNodeSelector(selector);
    assert WATCHED[0] in WATCHED;
    forall i | 0 <= i < |before| ensures ListedAlike(before[i], after[i], base) {
      forall k | k in WATCHED ensures Lookup(before[i].labels, k) == Lookup(after[i].labels, k) {
        SuppressedLookups(before[i].labels, after[i].labels, k);
      }
      assert Alike(before[i], after[i]);
    }
    ListedAlikeGivesSamePools(before, after, selector);
  }

  /** Any other selector misses a change. */
  lemma UnwatchedKeyLosesUpdate(selector: LabelMap, k: string) returns (before: seq<Node>, after: seq<Node>)
    requires k in selector && k !in WATCHED
    ensures Suppressed(before, after) && NoEmptySwitch(before, after)
    ensures !SamePools(before, after, selector)
  {
    WatchedKeysDiffer();
    var labels := Fitting(selector);
    var n, n' := Node("n", labels), Node("n", labels - {k});
    before, after := [n], [n'];
    forall i | 0 <= i < |WATCHED|
      ensures Lookup(n.labels, WATCHED[i]) == Lookup(n'.labels, WATCHED[i])
    {
      assert WATCHED[i] in WATCHED;
    }
    assert Selects(BuildNodeSelector(selector), labels);
    assert Eligible(before, selector, n);
    var p := EligibleNodeHasPool(before, selector, n);
    if PoolOfCluster(after, selector, p) {
      var m := PoolComesFromNode(after, selector, p);
    }
  }

  /** As long as no watched label turns from absent to empty or back, ignoring the
      other updates is safe for a selector exactly when it asks only for watched
      keys. */
  lemma SuppressionSafeIff(selector: LabelMap)
    ensures (forall before, after :: Suppressed(before, after) && NoEmptySwitch(before, after)
                                     ==> SamePools(before, after, selector))
            <==> OnlyWatched(selector)
  {
    if OnlyWatched(selector) {
      forall before, after | Suppressed(before, after) && NoEmptySwitch(before, after)
        ensures SamePools(before, after, selector)
      {
        SuppressedUpdateIsSafe(before, after, selector);
      }
    } else {
      var k :| k in selector && k !in WATCHED;
      var before, after := UnwatchedKeyLosesUpdate(selector, k);
    }
  }

  // ---------- empty labels ----------

  /** A label that a listed node may carry empty. */
  ghost predicate MayBeEmpty(selector: LabelMap, k: string) {
    var base := BuildNodeSelector(selector);
    k in WATCHED && (k in base ==> base[k] == "")
  }

  /** Such a label can disappear unseen and take the node out of its pool. */
  lemma EmptyLabelLosesUpdate(selector: LabelMap, k: string) returns (before: seq<Node>, after: seq<Node>)
    requires MayBeEmpty(selector, k)
    ensures Suppressed(before, after) && !SamePools(before, after, selector)
  {
    WatchedKeysDiffer();
    var labels := Fitting(selector)[k := ""];
    var n, n' := Node("n", labels), Node("n", labels - {k});
    before, after := [n], [n'];
    forall i | 0 <= i < |WATCHED| ensures Lookup(labels, WATCHED[i]) == Lookup(n'.labels, WATCHED[i]) {
    }
    assert Eligible(before, selector, n);
    var p := EligibleNodeHasPool(before, selector, n);
    if PoolOfCluster(after, selector, p) {
      var m := PoolComesFromNode(after, selector, p);
    }
  }

  /** A selector that pins every watched key to something and asks for nothing
      else. */
  ghost predicate PinsWatched(selector: LabelMap) {
    OnlyWatched(selector) && forall k :: k in WATCHED ==> !MayBeEmpty(selector, k)
  }

  lemma PinnedIsSafe(before: seq<Node>, after: seq<Node>, selector: LabelMap)
    requires PinsWatched(selector) && Suppressed(before, after)
    ensures SamePools(before, after, selector)
  {
    var base := BuildNodeSelector(selector);
    assert WATCHED[0] in WATCHED;
    forall i | 0 <= i < |before| ensures ListedAlike(before[i], after[i], base) {
      forall k | k in WATCHED
        ensures Lookup(before[i].labels, k) == Lookup(after[i].labels, k) && k in base && base[k] != ""
      {
        SuppressedLookups(before[i].labels, after[i].labels, k);
        assert !MayBeEmpty(selector, k);
      }
    }
    ListedAlikeGivesSamePools(before, after, selector);
  }

  /** With nothing assumed about empty labels: the ignored updates never matter to
      a selector exactly when it pins every watched key and asks for nothing else. */
  lemma AlwaysSafeIff(selector: LabelMap)
    ensures (forall before, after :: Suppressed(before, after) ==> SamePools(before, after, selector))
            <==> PinsWatched(selector)
  {
    if PinsWatched(selector) {
      forall before, after | Suppressed(before, after) ensures SamePools(before, after, selector) {
        PinnedIsSafe(before, after, selector);
      }
    } else if k :| k in selector && k !in WATCHED {
      var before, after := UnwatchedKeyLosesUpdate(selector, k);
    } else {
      var k :| k in WATCHED && MayBeEmpty(selector, k);
      var before, after := EmptyLabelLosesUpdate(selector, k);
    }
  }
}
