/** Merging of environment lists (mergeEnvVars in internal/scope/patch/validator.go
    and its twin in internal/scope/patch/container_toolkit.go). */
module EnvMerge {
  import opened Wrappers

  datatype Source = Literal(text: string) | FieldRef(path: string)

  datatype EnvVar = EnvVar(name: string, value: Source)

  type Env = seq<EnvVar>

  // ---------- what a merge computes ----------

  /** Replaces the first entry of that name, or appends. */
  function Put(env: Env, e: EnvVar): Env {
    if env == [] then [e]
    else if env[0].name == e.name then [e] + env[1..]
    else [env[0]] + Put(env[1..], e)
  }

  function PutAll(env: Env, list: Env): Env
    decreases |list|
  {
    if list == [] then env else PutAll(Put(env, list[0]), list[1..])
  }

  function Flat(lists: seq<Env>): Env {
    if lists == [] then [] else lists[0] + Flat(lists[1..])
  }

  function Merge(base: Env, additions: seq<Env>): Env { PutAll(base, Flat(additions)) }

  // ---------- what an environment means ----------

  /** A container sees the last value given to a name. */
  function Seen(env: Env, name: string): Option<Source> {
    if env == [] then None
    else if env[|env| - 1].name == name then Some(env[|env| - 1].value)
    else Seen(env[..|env| - 1], name)
  }

  function Names(env: Env): seq<string> {
    seq(|env|, i requires 0 <= i < |env| => env[i].name)
  }

  ghost predicate Distinct<T>(s: seq<T>) {
    forall i, j :: 0 <= i < j < |s| ==> s[i] != s[j]
  }

  /** The members of a sequence in the order of their first appearance. */
  function FirstSeen(s: seq<string>): seq<string> {
    if s == [] then []
    else
      var (init, last) := (s[..|s| - 1], s[|s| - 1]);
      if last in init then FirstSeen(init) else FirstSeen(init) + [last]
  }

  // ---------- one entry ----------

  /** The position Put writes to. */
  ghost predicate FirstAt(env: Env, name: string, i: nat) {
    && i <= |env|
    && (forall j :: 0 <= j < i ==> env[j].name != name)
    && (i < |env| ==> env[i].name == name)
  }

  lemma {:induction false} PutAt(env: Env, e: EnvVar, i: nat)
    requires FirstAt(env, e.name, i)
    ensures Put(env, e) == if i < |env| then env[i := e] else env + [e]
  {
    if i > 0 {
      PutAt(env[1..], e, i - 1);
    }
  }

  ghost function First(env: Env, name: string): (i: nat)
    ensures FirstAt(env, name, i)
  {
    if env == [] || env[0].name == name then 0 else 1 + First(env[1..], name)
  }

  lemma {:induction false} SeenAt(env: Env, name: string, i: nat)
    requires i < |env| && env[i].name == name && forall j :: i < j < |env| ==> env[j].name != name
    ensures Seen(env, name) == Some(env[i].value)
  {
    if i < |env| - 1 {
      SeenAt(env[..|env| - 1], name, i);
    }
  }

  lemma {:induction false} SeenNone(env: Env, name: string)
    ensures Seen(env, name).None? <==> name !in Names(env)
  {
    if env != [] {
      SeenNone(env[..|env| - 1], name);
      assert Names(env) == Names(env[..|env| - 1]) + [env[|env| - 1].name];
    }
  }

  /** A replaced entry matters only to its own name. */
  lemma {:induction false} SeenElsewhere(env: Env, i: nat, e: EnvVar, name: string)
    requires i < |env| && env[i].name == e.name != name
    ensures Seen(env[i := e], name) == Seen(env, name)
  {
    if i < |env| - 1 {
      assert env[i := e][..|env| - 1] == env[..|env| - 1][i := e];
      SeenElsewhere(env[..|env| - 1], i, e, name);
    } else {
      assert env[i := e][..|env| - 1] == env[..|env| - 1];
    }
  }

  ghost predicate Repeats(env: Env, name: string) {
    exists i, j :: 0 <= i < j < |env| && env[i].name == env[j].name == name
  }

  /** Put is heard, by the name it sets, unless that name is set twice already;
      the other names are as they were. */
  lemma PutIsSeen(env: Env, e: EnvVar, name: string)
    ensures Seen(Put(env, e), name) ==
            if name == e.name && !Repeats(env, name) then Some(e.value) else Seen(env, name)
  {
    var i := First(env, e.name);
    var put := Put(env, e);
    PutAt(env, e, i);
    if i == |env| {
      assert put[..|put| - 1] == env;
    } else if name != e.name {
      SeenElsewhere(env, i, e, name);
    } else if Repeats(env, name) {
      assert Names(env)[i] == name;
      var k := LastOf(env, name);
      SeenAt(env, name, k);
      SeenAt(put, name, k);
    } else {
      SeenAt(put, name, i);
    }
  }

  lemma {:induction false} LastOf(env: Env, name: string) returns (k: nat)
    requires name in Names(env)
    ensures k < |env| && env[k].name == name && forall j :: k < j < |env| ==> env[j].name != name
  {
    var i :| 0 <= i < |env| && env[i].name == name;
    if env[|env| - 1].name == name {
      k := |env| - 1;
    } else {
      assert env[..|env| - 1][i].name == name;
      assert Names(env[..|env| - 1])[i] == name;
      k := LastOf(env[..|env| - 1], name);
    }
  }

  lemma PutNames(env: Env, e: EnvVar)
    ensures Names(Put(env, e)) == if e.name in Names(env) then Names(env) else Names(env) + [e.name]
  {
    var i := First(env, e.name);
    PutAt(env, e, i);
    if i < |env| {
      assert Names(env)[i] == e.name;
    }
  }

  // ---------- whole merges ----------

  lemma {:induction false} PutAllSplit(env: Env, a: Env, b: Env)
    ensures PutAll(env, a + b) == PutAll(PutAll(env, a), b)
    decreases |a|
  {
    if a == [] {
      assert a + b == b;
    } else {
      assert (a + b)[1..] == a[1..] + b;
      PutAllSplit(Put(env, a[0]), a[1..], b);
    }
  }

  lemma {:induction false} FlatSplit(x: seq<Env>, y: seq<Env>)
    ensures Flat(x + y) == Flat(x) + Flat(y)
  {
    if x == [] {
      assert x + y == y;
    } else {
      assert (x + y)[1..] == x[1..] + y;
      FlatSplit(x[1..], y);
    }
  }

  /** Merging in two goes is merging in one. */
  lemma MergeAssociates(base: Env, x: seq<Env>, y: seq<Env>)
    ensures Merge(Merge(base, x), y) == Merge(base, x + y)
  {
    FlatSplit(x, y);
    PutAllSplit(base, Flat(x), Flat(y));
  }

  lemma {:induction false} FirstSeenMembers(s: seq<string>)
    ensures Distinct(FirstSeen(s))
    ensures forall n :: n in FirstSeen(s) <==> n in s
    ensures Distinct(s) ==> FirstSeen(s) == s
  {
    if s != [] {
      var init := s[..|s| - 1];
      FirstSeenMembers(init);
      assert s == init + [s[|s| - 1]];
    }
  }

  lemma PutAllLast(base: Env, list: Env)
    requires list != []
    ensures PutAll(base, list) == Put(PutAll(base, list[..|list| - 1]), list[|list| - 1])
  {
    var (init, e) := (list[..|list| - 1], list[|list| - 1]);
    assert list == init + [e];
    PutAllSplit(base, init, [e]);
    assert PutAll(PutAll(base, init), [e]) == Put(PutAll(base, init), e);
  }

  lemma OneMore(env: Env, e: EnvVar, name: string)
    ensures Seen(env + [e], name) == if e.name == name then Some(e.value) else Seen(env, name)
    ensures Names(env + [e]) == Names(env) + [e.name]
    ensures FirstSeen(Names(env + [e])) ==
            FirstSeen(Names(env)) + if e.name in Names(env) then [] else [e.name]
  {
    assert (env + [e])[..|env|] == env;
    var s := Names(env) + [e.name];
    assert Names(env + [e]) == s && s[..|env|] == Names(env);
  }

  /** The names come in the order of their first appearance, each with its last
      value. */
  lemma {:induction false} PutAllMeaning(base: Env, list: Env, name: string)
    requires Distinct(Names(base))
    ensures Names(PutAll(base, list)) == FirstSeen(Names(base + list))
    ensures Seen(PutAll(base, list), name) == Seen(base + list, name)
    decreases |list|
  {
    if list == [] {
      FirstSeenMembers(Names(base));
      assert base + list == base;
    } else {
      var (init, e) := (list[..|list| - 1], list[|list| - 1]);
      PutAllMeaning(base, init, name);
      PutAllLast(base, list);
      assert base + list == base + init + [e];
      OneMore(base + init, e, name);
      PutMeaning(PutAll(base, init), base + init, e, name);
    }
  }

  /** One more entry, onto an environment that means what `all` means. */
  lemma PutMeaning(env: Env, all: Env, e: EnvVar, name: string)
    requires Names(env) == FirstSeen(Names(all)) && Seen(env, name) == Seen(all, name)
    ensures Names(Put(env, e)) == FirstSeen(Names(all)) + if e.name in Names(all) then [] else [e.name]
    ensures Seen(Put(env, e), name) == if e.name == name then Some(e.value) else Seen(all, name)
  {
    FirstSeenMembers(Names(all));
    PutNames(env, e);
    DistinctNeverRepeats(env, name);
    PutIsSeen(env, e, name);
  }

  lemma DistinctNeverRepeats(env: Env, name: string)
    requires Distinct(Names(env))
    ensures !Repeats(env, name)
  {
    forall i, j | 0 <= i < j < |env| ensures env[i].name != env[j].name {
      assert Names(env)[i] != Names(env)[j];
    }
  }

  /** Merging onto a base of distinct names: each name of the lists appears once,
      in the order of its first appearance, with its last value. */
  lemma MergeMeaning(base: Env, additions: seq<Env>, name: string)
    requires Distinct(Names(base))
    ensures Names(Merge(base, additions)) == FirstSeen(Names(base + Flat(additions)))
    ensures Distinct(Names(Merge(base, additions)))
    ensures Seen(Merge(base, additions), name) == Seen(base + Flat(additions), name)
  {
    PutAllMeaning(base, Flat(additions), name);
    FirstSeenMembers(Names(base + Flat(additions)));
  }

  /** A merge means the same as writing the lists one after the other, for every
      list of additions, exactly if no name is set twice in the base. */
  ghost predicate Transparent(base: Env) {
    forall additions, name :: Seen(Merge(base, additions), name) == Seen(base + Flat(additions), name)
  }

  lemma TransparentIff(base: Env)
    ensures Transparent(base) <==> Distinct(Names(base))
  {
    if Distinct(Names(base)) {
      forall additions, name ensures Seen(Merge(base, additions), name) == Seen(base + Flat(additions), name) {
        MergeMeaning(base, additions, name);
      }
    } else {
      var i, j :| 0 <= i < j < |Names(base)| && Names(base)[i] == Names(base)[j];
      DeafBase(base, i, j);
    }
  }

  /** An addition that a base setting its name twice does not let through. */
  lemma DeafBase(base: Env, i: nat, j: nat)
    requires i < j < |base| && base[i].name == base[j].name
    ensures !Transparent(base)
  {
    var name := base[i].name;
    assert Names(base)[i] == name;
    SeenNone(base, name);
    var other := if Seen(base, name) == Some(Literal("")) then Literal("x") else Literal("");
    var e := EnvVar(name, other);
    assert Flat([[e]]) == [e];
    assert PutAll(base, [e]) == Put(base, e);
    PutIsSeen(base, e, name);
    assert Seen(Merge(base, [[e]]), name) != Seen(base + Flat([[e]]), name);
  }

  // ---------- the loops ----------

  /** The innermost loop: replaces in place, or appends to the buffer. */
  method Place(buffer: array<EnvVar>, n: nat, e: EnvVar) returns (n': nat)
    requires n < buffer.Length
    modifies buffer
    ensures n' <= n + 1 && n' <= buffer.Length && buffer[..n'] == Put(old(buffer[..n]), e)
  {
    ghost var was := buffer[..n];
    for idx := 0 to n
      invariant buffer[..n] == was
      invariant forall j :: 0 <= j < idx ==> was[j].name != e.name
    {
      assert buffer[..n][idx] == buffer[idx];
      if buffer[idx].name == e.name {
        PutAt(was, e, idx);
        buffer[idx] := e;
        assert buffer[..n] == was[idx := e];
        return n;
      }
    }
    PutAt(was, e, n);
    buffer[n] := e;
    assert buffer[..n + 1] == was + [e];
    return n + 1;
  }

  method Clone(base: array<EnvVar>, spare: nat) returns (buffer: array<EnvVar>)
    ensures fresh(buffer) && buffer.Length == base.Length + spare && buffer[..base.Length] == base[..]
  {
    buffer := new EnvVar[base.Length + spare](i reads base =>
      if 0 <= i < base.Length then base[i] else EnvVar("", Literal("")));
  }

  /** Works on a clone, so the base, which several merges share, keeps its
      entries. */
  method MergeEnvVars(base: array<EnvVar>, additions: seq<Env>) returns (merged: Env)
    ensures merged == Merge(base[..], additions)
  {
    var buffer := Clone(base, |Flat(additions)|);
    var n: nat, i: nat := base.Length, 0;
    ghost var done: Env := [];
    while i < |additions|
      invariant i <= |additions| && n <= base.Length + |done| && done + Flat(additions[i..]) == Flat(additions)
      invariant n <= buffer.Length && buffer[..n] == PutAll(base[..], done)
    {
      var list := additions[i];
      assert Flat(additions[i..]) == list + Flat(additions[i + 1..]);
      n := PlaceAll(buffer, n, list);
      PutAllSplit(base[..], done, list);
      done := done + list;
      i := i + 1;
    }
    assert done + Flat(additions[i..]) == done;
    return buffer[..n];
  }

  method PlaceAll(buffer: array<EnvVar>, n: nat, list: Env) returns (n': nat)
    requires n + |list| <= buffer.Length
    modifies buffer
    ensures n' <= n + |list| && buffer[..n'] == PutAll(old(buffer[..n]), list)
  {
    ghost var was := buffer[..n];
    n' := n;
    for i := 0 to |list|
      invariant n' <= n + i && buffer[..n'] == PutAll(was, list[..i])
    {
      PutAllSplit(was, list[..i], [list[i]]);
      assert list[..i + 1] == list[..i] + [list[i]];
      n' := Place(buffer, n', list[i]);
    }
    assert list[..|list|] == list;
  }

  // ---------- the validator's containers ----------

  const TMPDIR: EnvVar := EnvVar("TMPDIR", Literal("/run/rbln/validations"))
  const NAMESPACE: EnvVar := EnvVar("OPERATOR_NAMESPACE", FieldRef("metadata.namespace"))

  /** The environment a validator container is meant to have: its own list over
      the namespace over the common list over the default. */
  function Layers(common: Env, own: Env): Env { [TMPDIR] + common + [NAMESPACE] + own }

  lemma LayeredMerge(common: Env, own: Env, name: string)
    ensures var env := Merge(Merge([TMPDIR], [common, [NAMESPACE]]), [own]);
            Seen(env, name) == Seen(Layers(common, own), name) && Distinct(Names(env))
  {
    var lists := [common, [NAMESPACE]];
    MergeAssociates([TMPDIR], lists, [own]);
    MergeMeaning([TMPDIR], lists + [own], name);
    FlatSplit(lists, [own]);
    assert Flat([own]) == own;
    assert Flat(lists[1..]) == [NAMESPACE];
    assert Flat(lists) == common + [NAMESPACE];
    assert [TMPDIR] + (common + [NAMESPACE] + own) == Layers(common, own);
  }

  /** Both containers' lists are merged onto the same base; what one adds does not
      reach the other. */
  method ValidatorEnvs(common: Env, driverOwn: Env, toolkitOwn: Env) returns (driver: Env, toolkit: Env)
    ensures forall name :: Seen(driver, name) == Seen(Layers(common, driverOwn), name)
    ensures forall name :: Seen(toolkit, name) == Seen(Layers(common, toolkitOwn), name)
    ensures Distinct(Names(driver)) && Distinct(Names(toolkit))
  {
    var start := new EnvVar[] [TMPDIR];
    assert start[..] == [TMPDIR];
    var merged := MergeEnvVars(start, [common, [NAMESPACE]]);
    var base := new EnvVar[|merged|](i requires 0 <= i < |merged| => merged[i]);
    assert base[..] == merged;
    driver := MergeEnvVars(base, [driverOwn]);
    toolkit := MergeEnvVars(base, [toolkitOwn]);
    LayeredMerge(common, driverOwn, "");
    LayeredMerge(common, toolkitOwn, "");
    forall name
      ensures Seen(driver, name) == Seen(Layers(common, driverOwn), name)
      ensures Seen(toolkit, name) == Seen(Layers(common, toolkitOwn), name)
    {
      LayeredMerge(common, driverOwn, name);
      LayeredMerge(common, toolkitOwn, name);
    }
  }
}
