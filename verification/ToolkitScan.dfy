/** The readiness test of the toolkit validator (cmd/rbln-validator/toolkit.go):
    it looks for the newest non-empty RBLN spec in the CDI directory. */
module ToolkitScan {
  import opened Wrappers
  import opened Text

  const CDI_ROOT: string := "/var/run/cdi"

  datatype Info = Info(size: nat, mtime: int)

  /** A directory entry; its `info` may have become unreadable. */
  datatype Entry = Entry(name: string, isDir: bool, info: Option<Info>)

  datatype Spec = Spec(path: string, mtime: int)

  /** Lower-casing maps no character outside ASCII to a letter of "rbln". */
  predicate Named(e: Entry) { !e.isDir && Contains(ToLower(e.name), "rbln") }

  /** The four letters at `i`, each in either case. */
  predicate SpellsRbln(s: string, i: nat) {
    && i + 4 <= |s|
    && (s[i] == 'r' || s[i] == 'R') && (s[i + 1] == 'b' || s[i + 1] == 'B')
    && (s[i + 2] == 'l' || s[i + 2] == 'L') && (s[i + 3] == 'n' || s[i + 3] == 'N')
  }

  lemma SpellsIff(s: string, i: nat)
    ensures SpellsRbln(s, i) <==> i + 4 <= |s| && "rbln" <= ToLower(s)[i..]
  {
    if i + 4 <= |s| {
      var t := ToLower(s)[i..];
      assert "rbln" <= t <==> t[0] == 'r' && t[1] == 'b' && t[2] == 'l' && t[3] == 'n';
      assert t[0] == Lower(s[i]) && t[1] == Lower(s[i + 1]) && t[2] == Lower(s[i + 2]) && t[3] == Lower(s[i + 3]);
    }
  }

  /** A file with "rbln" in its name, in any case. */
  lemma NamedIff(e: Entry)
    ensures Named(e) <==> !e.isDir && exists i: nat :: SpellsRbln(e.name, i)
  {
    var s := ToLower(e.name);
    if i :| 0 <= i <= |s| - 4 && "rbln" <= s[i..] {
      SpellsIff(e.name, i);
    }
    if i: nat :| SpellsRbln(e.name, i) {
      SpellsIff(e.name, i);
    }
  }

  predicate Unreadable(e: Entry) { Named(e) && e.info.None? }

  predicate Candidate(e: Entry) { Named(e) && e.info.Some? && e.info.value.size > 0 }

  function PathOf(e: Entry): string { CDI_ROOT + "/" + e.name }

  /** The first of the newest candidates among the first `n` entries. */
  ghost predicate Newest(entries: seq<Entry>, n: nat, spec: Spec, i: nat)
    requires n <= |entries|
  {
    && i < n && Candidate(entries[i])
    && spec == Spec("/var/run/cdi/" + entries[i].name, entries[i].info.value.mtime)
    && forall j :: 0 <= j < n && Named(entries[j]) && entries[j].info.Some? && entries[j].info.value.size > 0 ==>
         entries[j].info.value.mtime <= spec.mtime && (j < i ==> entries[j].info.value.mtime < spec.mtime)
  }

  /** `driverReady` is the time stamp of the driver's status file, `listing` the
      CDI directory, each missing if it cannot be read. A spec older than the
      driver is accepted. */
  method CheckReady(driverReady: Option<int>, listing: Option<seq<Entry>>) returns (r: Result<Spec>)
    ensures r.Ok? <==>
              && driverReady.Some? && listing.Some?
              && (forall e :: e in listing.value && Named(e) ==> e.info.Some?)
              && exists e :: e in listing.value && Named(e) && e.info.Some? && e.info.value.size > 0
    ensures r.Ok? ==> exists i :: Newest(listing.value, |listing.value|, r.value, i)
  {
    if driverReady.None? {
      return Err("no driver-ready");
    }
    if listing.None? {
      return Err("no directory");
    }
    var entries := listing.value;
    var newestPath, newestTime := "", 0;
    ghost var best := 0;
    for n := 0 to |entries|
      invariant forall j :: 0 <= j < n ==> !Unreadable(entries[j])
      invariant newestPath == "" ==> forall j :: 0 <= j < n ==> !Candidate(entries[j])
      invariant newestPath != "" ==> Newest(entries, n, Spec(newestPath, newestTime), best)
    {
      var e := entries[n];
      if !Named(e) {
        continue;
      }
      if e.info.None? {
        assert e in entries && Unreadable(e);
        return Err("unreadable");
      }
      if e.info.value.size == 0 {
        continue;
      }
      if newestPath == "" || e.info.value.mtime > newestTime {
        newestPath, newestTime := PathOf(e), e.info.value.mtime;
        best := n;
      }
    }
    if newestPath == "" {
      return Err("no spec");
    }
    assert entries[best] in entries;
    return Ok(Spec(newestPath, newestTime));
  }
}
