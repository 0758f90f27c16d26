/** The string operations the operator uses, over ASCII. */
module Text {

  function Lower(c: char): char {
    if 'A' <= c <= 'Z' then c - 'A' + 'a' else c
  }

  function ToLower(s: string): (r: string)
    ensures |r| == |s| && forall i :: 0 <= i < |s| ==> r[i] == Lower(s[i])
  {
    seq(|s|, i requires 0 <= i < |s| => Lower(s[i]))
  }

  predicate Contains(s: string, w: string) {
    exists i :: 0 <= i <= |s| - |w| && w <= s[i..]
  }

  lemma ContainsIff(s: string, w: string)
    ensures Contains(s, w) <==> exists a, b :: s == a + w + b
  {
    if i :| 0 <= i <= |s| - |w| && w <= s[i..] {
      assert s == s[..i] + w + s[i + |w|..];
    }
    if a, b :| s == a + w + b {
      assert s[|a|..] == w + b;
    }
  }

  // ---------- spaces ----------

  predicate Space(c: char) {
    c == ' ' || c == '\t' || c == '\n' || c == '\r' || c as int == 11 || c as int == 12
  }

  function TrimLeft(s: string): string {
    if s != "" && Space(s[0]) then TrimLeft(s[1..]) else s
  }

  function TrimRight(s: string): string {
    if s != "" && Space(s[|s| - 1]) then TrimRight(s[..|s| - 1]) else s
  }

  function TrimSpace(s: string): string { TrimRight(TrimLeft(s)) }

  /** Tabs, line feeds, vertical tabs, form feeds, carriage returns and blanks. */
  const SPACES: set<char> := set c: char | 9 <= c as int <= 13 || c as int == 32

  ghost predicate AllSpace(s: string) { forall c :: c in s ==> c in SPACES }

  ghost predicate Trimmed(s: string) {
    s != "" ==> s[0] !in SPACES && s[|s| - 1] !in SPACES
  }

  /** `s` is `core` with nothing but spaces around it. */
  ghost predicate Padded(s: string, core: string) {
    Trimmed(core) && exists left, right :: AllSpace(left) && AllSpace(right) && s == left + core + right
  }

  lemma {:induction false} TrimLeftDrops(left: string, s: string)
    requires AllSpace(left)
    ensures TrimLeft(left + s) == TrimLeft(s)
  {
    if left == "" {
      assert left + s == s;
    } else {
      assert left[0] in left;
      assert (left + s)[1..] == left[1..] + s;
      TrimLeftDrops(left[1..], s);
    }
  }

  lemma {:induction false} TrimRightDrops(s: string, right: string)
    requires AllSpace(right)
    ensures TrimRight(s + right) == TrimRight(s)
  {
    if right == "" {
      assert s + right == s;
    } else {
      assert right[|right| - 1] in right;
      assert (s + right)[..|s + right| - 1] == s + right[..|right| - 1];
      TrimRightDrops(s, right[..|right| - 1]);
    }
  }

  /** Trimming takes off exactly the spaces around. */
  lemma TrimIff(s: string, core: string)
    ensures TrimSpace(s) == core <==> Padded(s, core)
  {
    TrimLeavesPadding(s);
    if Padded(s, core) {
      TrimOfPadded(s, core);
    }
  }

  lemma TrimOfPadded(s: string, core: string)
    requires Padded(s, core)
    ensures TrimSpace(s) == core
  {
    var left, right :| AllSpace(left) && AllSpace(right) && s == left + core + right;
    assert s == left + (core + right);
    TrimLeftDrops(left, core + right);
    if core == "" {
      assert core + right == right + "";
      TrimLeftDrops(right, "");
    } else {
      assert (core + right)[0] == core[0];
      TrimRightDrops(core, right);
    }
  }

  lemma TrimLeavesPadding(s: string)
    ensures Padded(s, TrimSpace(s))
  {
    TrimmedAfterTrim(s);
    var left := LeftSpaces(s);
    var right := RightSpaces(TrimLeft(s));
    assert s == left + TrimSpace(s) + right;
  }

  lemma {:induction false} LeftSpaces(s: string) returns (left: string)
    ensures AllSpace(left) && s == left + TrimLeft(s)
    ensures TrimLeft(s) != "" ==> !Space(TrimLeft(s)[0])
  {
    if s != "" && Space(s[0]) {
      var l := LeftSpaces(s[1..]);
      left := [s[0]] + l;
    } else {
      left := "";
    }
  }

  lemma {:induction false} RightSpaces(s: string) returns (right: string)
    ensures AllSpace(right) && s == TrimRight(s) + right
    ensures TrimRight(s) != "" ==> !Space(TrimRight(s)[|TrimRight(s)| - 1])
  {
    if s != "" && Space(s[|s| - 1]) {
      var r := RightSpaces(s[..|s| - 1]);
      right := r + [s[|s| - 1]];
    } else {
      right := "";
    }
  }

  lemma TrimmedAfterTrim(s: string)
    ensures Trimmed(TrimSpace(s))
  {
    var left := LeftSpaces(s);
    var right := RightSpaces(TrimLeft(s));
    if TrimSpace(s) != "" {
      assert TrimLeft(s)[0] == TrimSpace(s)[0];
    }
  }
}
