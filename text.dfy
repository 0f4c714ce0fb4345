/** The pieces of Go's `strings` and `fmt` packages that the core relies on:
    TrimSpace, TrimPrefix and the decimal rendering of integers used by `%d`. */
module Text {

  /** ASCII white space as `unicode.IsSpace` sees it for one-byte characters. */
  predicate IsSpace(c: char) {
    c == ' ' || c == '\t' || c == '\n' || c == '\r' || c == '\U{000B}' || c == '\U{000C}'
  }

  predicate AllSpace(s: string) {
    forall i :: 0 <= i < |s| ==> IsSpace(s[i])
  }

  /** No white space at either end. */
  predicate Trimmed(s: string) {
    s == [] || (!IsSpace(s[0]) && !IsSpace(s[|s| - 1]))
  }

  function TrimLeft(s: string): (r: string)
    ensures |r| <= |s| && r == s[|s| - |r|..]
    ensures AllSpace(s[..|s| - |r|])
    ensures r == [] || !IsSpace(r[0])
  {
    if s == [] || !IsSpace(s[0]) then s else TrimLeft(s[1..])
  }

  function TrimRight(s: string): (r: string)
    ensures |r| <= |s| && r == s[..|r|]
    ensures AllSpace(s[|r|..])
    ensures r == [] || !IsSpace(r[|r| - 1])
  {
    if s == [] || !IsSpace(s[|s| - 1]) then s else TrimRight(s[..|s| - 1])
  }

  /** strings.TrimSpace: `s` without its leading and trailing white space. */
  function TrimSpace(s: string): (r: string)
    ensures Trimmed(r)
    ensures |r| <= |s|
  {
    var l := TrimLeft(s);
    var r := TrimRight(l);
    assert r == [] || !IsSpace(r[0]) by {
      if r != [] { assert r[0] == l[0]; }
    }
    r
  }

  /** Trimming is the identity on a string that has no white space at its ends. */
  lemma {:induction false} TrimSpaceOfTrimmed(s: string)
    requires Trimmed(s)
    ensures TrimSpace(s) == s
  {
    if s != [] {
      assert TrimLeft(s) == s;
      assert TrimRight(s) == s;
    }
  }

  /** An all-blank string trims to the empty string. */
  lemma {:induction false} TrimSpaceOfBlank(s: string)
    requires AllSpace(s)
    ensures TrimSpace(s) == []
  {
    if s != [] {
      assert AllSpace(s[1..]);
      TrimSpaceOfBlank(s[1..]);
      assert TrimLeft(s) == TrimLeft(s[1..]);
    }
  }

  /** Leading white space does not change the result of trimming. */
  lemma TrimSpaceSkipsBlank(b: string, t: string)
    requires AllSpace(b)
    ensures TrimSpace(b + t) == TrimSpace(t)
  {
    TrimLeftSkipsBlank(b, t);
  }

  lemma {:induction false} TrimLeftSkipsBlank(b: string, t: string)
    requires AllSpace(b)
    ensures TrimLeft(b + t) == TrimLeft(t)
  {
    if b != [] {
      assert (b + t)[0] == b[0];
      assert (b + t)[1..] == b[1..] + t;
      TrimLeftSkipsBlank(b[1..], t);
    } else {
      assert b + t == t;
    }
  }

  predicate HasPrefix(s: string, p: string) {
    |p| <= |s| && s[..|p|] == p
  }

  /** strings.TrimPrefix: drops one leading copy of `p`, if there is one. */
  function TrimPrefix(s: string, p: string): (r: string)
    ensures HasPrefix(s, p) ==> p + r == s
    ensures !HasPrefix(s, p) ==> r == s
  {
    if HasPrefix(s, p) then s[|p|..] else s
  }

  predicate IsDigit(c: char) {
    '0' <= c <= '9'
  }

  function DigitChar(d: nat): (c: char)
    requires d < 10
    ensures IsDigit(c)
  {
    "0123456789"[d]
  }

  /** The decimal numeral of a natural number, as `%d` prints it. */
  function NatText(n: nat): (r: string)
    ensures |r| >= 1
    ensures forall i :: 0 <= i < |r| ==> IsDigit(r[i])
  {
    if n < 10 then [DigitChar(n)] else NatText(n / 10) + [DigitChar(n % 10)]
  }

  /** `%d` of a signed integer. */
  function IntText(n: int): (r: string)
    ensures |r| >= 1
    ensures n >= 0 ==> r == NatText(n)
    ensures n < 0 ==> r == "-" + NatText(-n)
  {
    if n >= 0 then NatText(n) else "-" + NatText(-n)
  }
}
