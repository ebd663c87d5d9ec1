/**
  The string operations of the standard library that the gateway relies on.
  Case folding is that of the ASCII letters.
 */
module Text {

  /** unicode.IsSpace. */
  predicate IsSpace(c: char) {
    var n := c as int;
    9 <= n <= 13 || n == 0x20 || n == 0x85 || n == 0xA0 || n == 0x1680 || 0x2000 <= n <= 0x200A ||
    n == 0x2028 || n == 0x2029 || n == 0x202F || n == 0x205F || n == 0x3000
  }

  function TrimLeft(s: string): (t: string)
    ensures |t| <= |s|
    ensures t == [] || !IsSpace(t[0])
  {
    if s == [] || !IsSpace(s[0]) then s else TrimLeft(s[1..])
  }

  function TrimRight(s: string): (t: string)
    ensures t <= s
    ensures t == [] || !IsSpace(t[|t| - 1])
  {
    if s == [] || !IsSpace(s[|s| - 1]) then s else TrimRight(s[..|s| - 1])
  }

  /** strings.TrimSpace. */
  function TrimSpace(s: string): string
  {
    TrimRight(TrimLeft(s))
  }

  /** Neither starts nor ends with a space. */
  predicate Trimmed(s: string) {
    s != [] ==> !IsSpace(s[0]) && !IsSpace(s[|s| - 1])
  }

  /** The result of trimming neither starts nor ends with a space. */
  lemma TrimResult(s: string)
    ensures Trimmed(TrimSpace(s)) && |TrimSpace(s)| <= |s|
  {
  }

  lemma TrimTrimmed(s: string)
    requires Trimmed(s)
    ensures TrimSpace(s) == s
  {
  }

  predicate Blank(s: string) { forall i :: 0 <= i < |s| ==> IsSpace(s[i]) }

  lemma BlankJoin(a: string, b: string)
    requires Blank(a) && Blank(b)
    ensures Blank(a + b)
  {
  }

  /** TrimLeft drops the first `n` characters, which are all spaces. */
  lemma {:induction false} LeftDrops(s: string) returns (n: nat)
    ensures n <= |s| && TrimLeft(s) == s[n..] && Blank(s[..n])
  {
    if s == [] || !IsSpace(s[0]) {
      n := 0;
      assert s[0..] == s;
    } else {
      var rest := s[1..];
      n := LeftDrops(rest);
      BlankJoin([s[0]], rest[..n]);
      assert s[..n + 1] == [s[0]] + rest[..n];
      assert s[n + 1..] == rest[n..];
      n := n + 1;
    }
  }

  lemma {:induction false} RightDrops(s: string) returns (n: nat)
    ensures n <= |s| && TrimRight(s) == s[..n] && Blank(s[n..])
  {
    if s == [] || !IsSpace(s[|s| - 1]) {
      n := |s|;
      assert s[..n] == s;
    } else {
      var rest, last := s[..|s| - 1], [s[|s| - 1]];
      n := RightDrops(rest);
      BlankJoin(rest[n..], last);
      assert s[n..] == rest[n..] + last;
      assert s[..n] == rest[..n];
    }
  }

  /** Trimming takes off spaces at both ends and nothing else. */
  lemma TrimTakesSpaces(s: string) returns (lead: string, trail: string)
    ensures s == lead + TrimSpace(s) + trail && Blank(lead) && Blank(trail) && Trimmed(TrimSpace(s))
  {
    var m := LeftDrops(s);
    var left := TrimLeft(s);
    var n := RightDrops(left);
    lead, trail := s[..m], left[n..];
    TrimResult(s);
    assert left == left[..n] + trail;
    assert s == lead + left;
  }

  lemma TrimIdempotent(s: string)
    ensures TrimSpace(TrimSpace(s)) == TrimSpace(s)
  {
    TrimResult(s);
    TrimTrimmed(TrimSpace(s));
  }

  lemma TrimLeading(s: string)
    requires s != [] && Trimmed(s)
    ensures TrimSpace(" " + s) == s
  {
    assert (" " + s)[1..] == s;
    assert TrimLeft(" " + s) == TrimLeft(s);
  }

  function LowerChar(c: char): char {
    if 'A' <= c <= 'Z' then ((c as int) + 32) as char else c
  }

  /** strings.ToLower. */
  function ToLower(s: string): (t: string)
    ensures |t| == |s|
  {
    if s == [] then [] else [LowerChar(s[0])] + ToLower(s[1..])
  }

  lemma {:induction false} LowerAt(s: string, i: nat)
    requires i < |s|
    ensures ToLower(s)[i] == LowerChar(s[i])
  {
    if i > 0 {
      LowerAt(s[1..], i - 1);
    }
  }

  lemma {:induction false} LowerIdempotent(s: string)
    ensures ToLower(ToLower(s)) == ToLower(s)
  {
    if s != [] {
      LowerIdempotent(s[1..]);
      assert ToLower(s)[1..] == ToLower(s[1..]);
    }
  }

  lemma {:induction false} LowerFixed(s: string)
    requires forall i :: 0 <= i < |s| ==> !('A' <= s[i] <= 'Z')
    ensures ToLower(s) == s
  {
    if s != [] {
      LowerFixed(s[1..]);
      assert [s[0]] + s[1..] == s;
    }
  }

  lemma LowerTrimmed(s: string)
    requires Trimmed(s)
    ensures Trimmed(ToLower(s))
  {
    if s != [] {
      LowerAt(s, 0);
      LowerAt(s, |s| - 1);
    }
  }

  /** strings.Contains. */
  predicate Contains(s: string, part: string) {
    part <= s || (s != [] && Contains(s[1..], part))
  }

  lemma {:induction false} LeftContains(s: string, part: string)
    requires Contains(TrimLeft(s), part)
    ensures Contains(s, part)
  {
    if s != [] && IsSpace(s[0]) {
      LeftContains(s[1..], part);
    }
  }

  lemma {:induction false} PrefixContains(s: string, n: nat, part: string)
    requires n <= |s| && Contains(s[..n], part)
    ensures Contains(s, part)
  {
    if part <= s[..n] {
      assert part <= s;
    } else {
      assert s[..n][1..] == s[1..][..n - 1];
      PrefixContains(s[1..], n - 1, part);
    }
  }

  /** Trimming cannot make a substring appear. */
  lemma TrimContains(s: string, part: string)
    requires Contains(TrimSpace(s), part)
    ensures Contains(s, part)
  {
    var left := TrimLeft(s);
    assert TrimSpace(s) == left[..|TrimSpace(s)|];
    PrefixContains(left, |TrimSpace(s)|, part);
    LeftContains(s, part);
  }
}
