/** getSanitizedKernelVersion: the lossy step that turns a kernel release into
    a part of a node-pool name. */
module KernelName {
  import opened Text

  const X86: string := "x86_64"
  const ARM: string := "aarch64"
  const PAGES: string := "_64k"

  /** Length of the match of `x86_64(?:_64k)?|aarch64(?:_64k)?` at the start of
      `s`, 0 when it does not match there. */
  function ArchAt(s: string): (n: nat)
    ensures n <= |s|
  {
    if X86 <= s then |X86| + (if PAGES <= s[|X86|..] then |PAGES| else 0)
    else if ARM <= s then |ARM| + (if PAGES <= s[|ARM|..] then |PAGES| else 0)
    else 0
  }

  /** ReplaceAllString(s, ""): leftmost, non-overlapping matches removed. */
  function RemoveArch(s: string): string
    decreases |s|
  {
    if s == "" then ""
    else if ArchAt(s) > 0 then RemoveArch(s[ArchAt(s)..])
    else [s[0]] + RemoveArch(s[1..])
  }

  function Dotted(c: char): char {
    if c == '_' then '.' else c
  }

  function Underscores(s: string): (r: string)
    ensures |r| == |s| && forall i :: 0 <= i < |s| ==> r[i] == Dotted(s[i])
  {
    seq(|s|, i requires 0 <= i < |s| => Dotted(s[i]))
  }

  function TrimDot(s: string): string {
    if s != "" && s[|s| - 1] == '.' then s[..|s| - 1] else s
  }

  function Sanitize(kernel: string): string {
    ToLower(TrimDot(Underscores(RemoveArch(kernel))))
  }

  lemma LongPrefixHasDot(w: string, p: string, t: string)
    requires w <= p + "." + t && |w| > |p|
    ensures '.' in w
  {
    assert w[|p|] == (p + "." + t)[|p|];
  }

  /** A pattern without a dot cannot reach across one. */
  lemma PrefixStopsAtDot(w: string, p: string, t: string)
    requires '.' !in w
    ensures w <= p + "." + t <==> w <= p
  {
    var s := p + "." + t;
    if w <= s && |w| > |p| {
      LongPrefixHasDot(w, p, t);
    } else if |w| <= |p| {
      assert s[..|w|] == p[..|w|];
    }
  }

  lemma ArchStopsAtDot(p: string, t: string)
    ensures ArchAt(p + "." + t) == ArchAt(p)
  {
    var s := p + "." + t;
    PrefixStopsAtDot(X86, p, t);
    PrefixStopsAtDot(ARM, p, t);
    if X86 <= p {
      assert s[|X86|..] == p[|X86|..] + "." + t;
      PrefixStopsAtDot(PAGES, p[|X86|..], t);
    } else if ARM <= p {
      assert s[|ARM|..] == p[|ARM|..] + "." + t;
      PrefixStopsAtDot(PAGES, p[|ARM|..], t);
    }
  }

  /** What follows one match, or one character without a match, at the front, and
      what of that is kept. */
  function Rest(p: string): (r: string)
    requires p != ""
    ensures |r| < |p|
  {
    if ArchAt(p) > 0 then p[ArchAt(p)..] else p[1..]
  }

  function Kept(p: string): string
    requires p != ""
  {
    if ArchAt(p) > 0 then "" else [p[0]]
  }

  lemma RemoveArchUnfold(p: string)
    requires p != ""
    ensures RemoveArch(p) == Kept(p) + RemoveArch(Rest(p))
  {
  }

  lemma RemoveArchStep(p: string, t: string)
    requires p != ""
    ensures RemoveArch(p + "." + t) == Kept(p) + RemoveArch(Rest(p) + "." + t)
  {
    var s := p + "." + t;
    ArchStopsAtDot(p, t);
    RemoveArchUnfold(s);
    assert Rest(s) == Rest(p) + "." + t;
  }

  /** Removal distributes over a dot. */
  lemma {:induction false} RemoveArchOverDot(p: string, t: string)
    ensures RemoveArch(p + "." + t) == RemoveArch(p) + "." + RemoveArch(t)
    decreases |p|
  {
    if p == "" {
      RemoveArchAtDot(t);
      assert p + "." + t == "." + t;
    } else {
      RemoveArchStep(p, t);
      RemoveArchUnfold(p);
      var rest := Rest(p);
      RemoveArchOverDot(rest, t);
      DotAssociates(Kept(p), RemoveArch(rest), RemoveArch(t));
    }
  }

  lemma RemoveArchAtDot(t: string)
    ensures RemoveArch("." + t) == "" + "." + RemoveArch(t)
  {
    ArchStopsAtDot("", t);
    assert "" + "." + t == "." + t;
    assert ("." + t)[1..] == t;
  }

  lemma DotAssociates(a: string, b: string, c: string)
    ensures a + (b + "." + c) == a + b + "." + c
  {
  }

  ghost predicate ArchSuffix(a: string) {
    a == X86 || a == X86 + PAGES || a == ARM || a == ARM + PAGES
  }

  lemma ArchSuffixVanishes(a: string)
    requires ArchSuffix(a)
    ensures RemoveArch(a) == ""
  {
    if a == X86 || a == X86 + PAGES {
      assert a[|X86|..] == if a == X86 then "" else PAGES;
    } else {
      assert a[0] == 'a' && X86[0] == 'x';
      assert a[|ARM|..] == if a == ARM then "" else PAGES;
    }
    assert ArchAt(a) == |a|;
    assert a[|a|..] == "";
  }

  /** Whatever the release prefix, the architecture suffix and the page-size
      variant leave no trace in the sanitised name. */
  lemma SanitizeForgetsArch(p: string, a: string)
    requires ArchSuffix(a)
    ensures Sanitize(p + "." + a) == ToLower(Underscores(RemoveArch(p)))
  {
    RemoveArchOverDot(p, a);
    ArchSuffixVanishes(a);
    var r := RemoveArch(p);
    assert RemoveArch(p + "." + a) == r + ".";
    assert Underscores(r + ".") == Underscores(r) + ".";
    assert TrimDot(Underscores(r) + ".") == Underscores(r);
  }

  /** Characters of a label value; the ends are alphanumeric, which is not
      needed here. */
  ghost predicate LabelChar(c: char) {
    'a' <= c <= 'z' || 'A' <= c <= 'Z' || '0' <= c <= '9' || c == '-' || c == '_' || c == '.'
  }

  /** Characters of a host name under section 2.1 of RFC 1123, with the label
      separator. */
  ghost predicate HostChar(c: char) {
    'a' <= c <= 'z' || '0' <= c <= '9' || c == '-' || c == '.'
  }

  lemma {:induction false} RemoveArchKeepsChars(s: string)
    ensures forall c :: c in RemoveArch(s) ==> c in s
    decreases |s|
  {
    if s != "" {
      if ArchAt(s) > 0 {
        RemoveArchKeepsChars(s[ArchAt(s)..]);
      } else {
        RemoveArchKeepsChars(s[1..]);
      }
    }
  }

  lemma SanitizeIsHostName(kernel: string)
    requires forall c :: c in kernel ==> LabelChar(c)
    ensures forall c :: c in Sanitize(kernel) ==> HostChar(c)
  {
    RemoveArchKeepsChars(kernel);
    var r := RemoveArch(kernel);
    var t := TrimDot(Underscores(r));
    forall i | 0 <= i < |t| ensures HostChar(ToLower(t)[i]) {
      assert t[i] == Dotted(r[i]);
      assert r[i] in r;
    }
  }

  // ---------- how a sanitised name ends ----------

  ghost predicate Alphanumeric(c: char) {
    'a' <= c <= 'z' || 'A' <= c <= 'Z' || '0' <= c <= '9'
  }

  /** Not empty and with an alphanumeric last character, as the last part of an
      object's name has to be. */
  ghost predicate EndsWell(s: string) {
    s != "" && Alphanumeric(s[|s| - 1])
  }

  /** One separator at the end is cut off. */
  function WithoutSeparator(s: string): string {
    if s != "" && (s[|s| - 1] == '.' || s[|s| - 1] == '_') then s[..|s| - 1] else s
  }

  /** The name ends well exactly if what precedes the removed architectures does,
      once a single separator is cut off. */
  lemma SanitizeEndsWellIff(kernel: string)
    ensures EndsWell(Sanitize(kernel)) <==> EndsWell(WithoutSeparator(RemoveArch(kernel)))
  {
    var r := RemoveArch(kernel);
    var t := TrimDot(Underscores(r));
    assert |t| == |WithoutSeparator(r)|;
    if t != "" {
      assert t[|t| - 1] == Dotted(r[|t| - 1]) && WithoutSeparator(r)[|t| - 1] == r[|t| - 1];
    }
  }

  /** The kernels a distribution ships: a release that ends well and has no
      architecture in it, alone or with an architecture after a dot. */
  lemma ReleasesEndWell(p: string, a: string)
    requires EndsWell(p) && RemoveArch(p) == p && ArchSuffix(a)
    ensures EndsWell(Sanitize(p)) && EndsWell(Sanitize(p + "." + a))
  {
    ArchLeavesDot(p, a);
    CutsOneSeparator(p);
    EndsWellWith(p, p);
    EndsWellWith(p + "." + a, p + ".");
  }

  lemma CutsOneSeparator(p: string)
    requires EndsWell(p)
    ensures WithoutSeparator(p) == p && WithoutSeparator(p + ".") == p
  {
  }

  lemma EndsWellWith(kernel: string, r: string)
    requires r == RemoveArch(kernel) && EndsWell(WithoutSeparator(r))
    ensures EndsWell(Sanitize(kernel))
  {
    SanitizeEndsWellIff(kernel);
  }

  lemma ArchLeavesDot(p: string, a: string)
    requires ArchSuffix(a)
    ensures RemoveArch(p + "." + a) == RemoveArch(p) + "."
  {
    RemoveArchOverDot(p, a);
    ArchSuffixVanishes(a);
    assert RemoveArch(p) + "." + "" == RemoveArch(p) + ".";
  }

  /** Kernels for which it does not: the architecture alone, or behind two
      separators or a dash, whatever the release. */
  lemma SomeNamesEndBadly(p: string, a: string)
    requires ArchSuffix(a)
    ensures Sanitize(a) == "" && !EndsWell(Sanitize(p + "." + "." + a))
  {
    ArchSuffixVanishes(a);
    ArchLeavesDot(p + ".", a);
    RemoveArchOverDot(p, "");
    SanitizeEndsWellIff(p + "." + "." + a);
    var r := RemoveArch(p) + ".";
    assert p + "." + "" == p + "." && RemoveArch(p) + "." + "" == r;
    assert WithoutSeparator(r + ".") == r;
  }

  // ---------- what sanitising leaves alone ----------

  lemma {:induction false} RemoveArchShrinks(s: string)
    ensures |RemoveArch(s)| <= |s|
    decreases |s|
  {
    if s != "" {
      RemoveArchUnfold(s);
      RemoveArchShrinks(Rest(s));
    }
  }

  /** A string loses nothing exactly if no architecture occurs in it. */
  lemma {:induction false} NothingRemovedIff(s: string)
    ensures RemoveArch(s) == s <==> !Contains(s, X86) && !Contains(s, ARM)
    decreases |s|
  {
    if s != "" {
      RemoveArchUnfold(s);
      RemoveArchShrinks(Rest(s));
      if ArchAt(s) > 0 {
        assert s[0..] == s;
      } else {
        NothingRemovedIff(s[1..]);
        ContainsLater(s, X86);
        ContainsLater(s, ARM);
        SameRest(s, RemoveArch(s[1..]));
      }
    }
  }

  lemma SameRest(s: string, r: string)
    requires s != ""
    ensures [s[0]] + r == s <==> r == s[1..]
  {
    assert ([s[0]] + r)[1..] == r && s == [s[0]] + s[1..];
  }

  lemma ContainsLater(s: string, w: string)
    requires s != "" && !(w <= s)
    ensures Contains(s, w) <==> Contains(s[1..], w)
  {
    if i :| 0 <= i <= |s| - |w| && w <= s[i..] {
      assert s[i..] == s[1..][i - 1..];
    }
    if i :| 0 <= i <= |s[1..]| - |w| && w <= s[1..][i..] {
      assert s[1..][i..] == s[i + 1..];
    }
  }

  /** Without an architecture and with a proper end, the name is the kernel in lower
      case with dots for underscores, character by character. */
  lemma PlainKernelKeepsItsName(kernel: string, i: nat)
    requires !Contains(kernel, "x86_64") && !Contains(kernel, "aarch64") && EndsWell(kernel) && i < |kernel|
    ensures |Sanitize(kernel)| == |kernel|
    ensures Sanitize(kernel)[i] == if kernel[i] == '_' then '.'
                                   else if 'A' <= kernel[i] <= 'Z' then kernel[i] + ' ' else kernel[i]
  {
    NothingRemovedIff(kernel);
    var u := Underscores(kernel);
    assert u[|u| - 1] == Dotted(kernel[|kernel| - 1]);
    assert TrimDot(u) == u;
  }
}
