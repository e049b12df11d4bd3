/** The JavaScript string operations the services rely on, on `seq<char>`. */
module Strings {
  import opened Common

  /** The characters matched by `\s` and removed by `String.prototype.trim`:
      ECMAScript WhiteSpace (tab, vertical tab, form feed, space, no-break space,
      byte order mark and the space separators) and LineTerminator. */
  predicate IsWhitespace(c: char) {
    || c == '\t' || c == '\n' || c == '\U{000B}' || c == '\U{000C}' || c == '\r' || c == ' '
    || c == '\U{00A0}' || c == '\U{1680}' || ('\U{2000}' <= c <= '\U{200A}')
    || c == '\U{2028}' || c == '\U{2029}' || c == '\U{202F}' || c == '\U{205F}'
    || c == '\U{3000}' || c == '\U{FEFF}'
  }

  /** Drops the leading run of whitespace. */
  function TrimStart(s: string): (r: string)
    ensures |r| <= |s| && r == s[|s| - |r|..]
    ensures r != [] ==> !IsWhitespace(r[0])
    ensures forall i :: 0 <= i < |s| - |r| ==> IsWhitespace(s[i])
  {
    if s != [] && IsWhitespace(s[0]) then
      var r := TrimStart(s[1..]);
      assert forall i :: 1 <= i < |s| - |r| ==> s[i] == s[1..][i - 1];
      r
    else s
  }

  /** Drops the trailing run of whitespace. */
  function TrimEnd(s: string): (r: string)
    ensures |r| <= |s| && r == s[..|r|]
    ensures r != [] ==> !IsWhitespace(r[|r| - 1])
    ensures forall i :: |r| <= i < |s| ==> IsWhitespace(s[i])
  {
    if s != [] && IsWhitespace(s[|s| - 1]) then
      var r := TrimEnd(s[..|s| - 1]);
      assert forall i :: |r| <= i < |s| - 1 ==> s[i] == s[..|s| - 1][i];
      r
    else s
  }

  /** `s.trim()`. */
  function Trim(s: string): (r: string) {
    TrimEnd(TrimStart(s))
  }

  /** `parts.join(sep)`. */
  function Join(parts: seq<string>, sep: string): string {
    if |parts| == 0 then ""
    else if |parts| == 1 then parts[0]
    else parts[0] + sep + Join(parts[1..], sep)
  }

  /** `t` occurs in `s` at position `i`. */
  predicate OccursAt(s: string, t: string, i: int) {
    0 <= i && i + |t| <= |s| && s[i..i + |t|] == t
  }

  /** `s.includes(t)`. */
  predicate Contains(s: string, t: string) {
    exists i | 0 <= i <= |s| - |t| :: OccursAt(s, t, i)
  }

  lemma ContainsMiddle(a: string, b: string, c: string)
    ensures Contains(a + b + c, b)
  {
    assert OccursAt(a + b + c, b, |a|);
  }

  lemma ContainsSelf(t: string)
    ensures Contains(t, t)
  {
    assert OccursAt(t, t, 0);
  }

  /** Text found in `a` is still found after something is appended. */
  lemma ContainsLeft(a: string, b: string, t: string)
    requires Contains(a, t)
    ensures Contains(a + b, t)
  {
    var i :| 0 <= i <= |a| - |t| && OccursAt(a, t, i);
    assert (a + b)[i..i + |t|] == a[i..i + |t|];
    assert OccursAt(a + b, t, i);
  }

  /** Text found in `b` is still found after something is prepended. */
  lemma ContainsRight(a: string, b: string, t: string)
    requires Contains(b, t)
    ensures Contains(a + b, t)
  {
    var i :| 0 <= i <= |b| - |t| && OccursAt(b, t, i);
    assert (a + b)[|a| + i..|a| + i + |t|] == b[i..i + |t|];
    assert OccursAt(a + b, t, |a| + i);
  }

  /** Text found in `b` is found in any `a + b + c`. */
  lemma ContainsWithin(a: string, b: string, c: string, t: string)
    requires Contains(b, t)
    ensures Contains(a + b + c, t)
  {
    ContainsRight(a, b, t);
    ContainsLeft(a + b, c, t);
  }

  /** Text spread over three consecutive pieces is found as a whole. */
  lemma ContainsSpan(a: string, b: string, c: string, d: string, e: string)
    ensures Contains(a + b + c + (d + e), b + c + d)
  {
    var s := a + b + c + (d + e);
    assert s[|a|..|a| + |b + c + d|] == b + c + d;
    assert OccursAt(s, b + c + d, |a|);
  }

  /** Every part shows up in the joined string. */
  lemma {:induction false} JoinContains(parts: seq<string>, sep: string, i: int)
    requires 0 <= i < |parts|
    ensures Contains(Join(parts, sep), parts[i])
    decreases |parts|
  {
    if i == 0 {
      ContainsSelf(parts[0]);
      if |parts| > 1 {
        ContainsLeft(parts[0], sep + Join(parts[1..], sep), parts[0]);
        assert parts[0] + sep + Join(parts[1..], sep) == parts[0] + (sep + Join(parts[1..], sep));
      }
    } else {
      JoinContains(parts[1..], sep, i - 1);
      ContainsRight(parts[0] + sep, Join(parts[1..], sep), parts[i]);
    }
  }

  /** Equal strings around a hole hold equal contents in it. */
  lemma CancelAround(p: string, a: string, b: string, q: string)
    requires p + a + q == p + b + q
    ensures a == b
  {
    assert |a| == |b|;
    assert a == (p + a + q)[|p|..|p| + |a|];
    assert b == (p + b + q)[|p|..|p| + |b|];
  }

  /** Containment is transitive. */
  lemma ContainsTransitive(s: string, t: string, u: string)
    requires Contains(s, t) && Contains(t, u)
    ensures Contains(s, u)
  {
    var i :| 0 <= i <= |s| - |t| && OccursAt(s, t, i);
    var j :| 0 <= j <= |t| - |u| && OccursAt(t, u, j);
    forall k | 0 <= k < |u|
      ensures s[i + j + k] == u[k]
    {
      assert s[i..i + |t|][j + k] == t[j + k];
      assert t[j..j + |u|][k] == u[k];
    }
    assert s[i + j..i + j + |u|] == u;
    assert OccursAt(s, u, i + j);
  }

  /** `c` does not occur in `s`. */
  predicate Lacks(s: string, c: char) {
    forall i :: 0 <= i < |s| ==> s[i] != c
  }

  /** A character missing from both halves is missing from the whole. */
  lemma LacksConcat(a: string, b: string, c: char)
    requires Lacks(a, c) && Lacks(b, c)
    ensures Lacks(a + b, c)
  {
    forall i | 0 <= i < |a + b|
      ensures (a + b)[i] != c
    {
      if i >= |a| {
        assert (a + b)[i] == b[i - |a|];
      }
    }
  }

  /** A string lacking one of the characters of `t` does not contain `t`. */
  lemma MissingCharNotContained(s: string, t: string, k: int)
    requires 0 <= k < |t|
    requires Lacks(s, t[k])
    ensures !Contains(s, t)
  {
    forall i | 0 <= i <= |s| - |t|
      ensures !OccursAt(s, t, i)
    {
      assert s[i + k] != t[k];
    }
  }

  /** `arr.slice(-n)`: the last `n` elements, or all of them when there are fewer. */
  function LastN<T>(s: seq<T>, n: nat): (r: seq<T>)
    ensures |r| == if |s| <= n then |s| else n
    ensures r == s[|s| - |r|..]
  {
    if |s| <= n then s else s[|s| - n..]
  }

  /** `arr.slice(0, n)`: the first `n` elements, or all of them when there are fewer. */
  function Take<T>(s: seq<T>, n: nat): (r: seq<T>)
    ensures |r| == if |s| <= n then |s| else n
    ensures r == s[..|r|]
  {
    if |s| <= n then s else s[..n]
  }

  function DigitChar(d: nat): char
    requires d < 10
  {
    "0123456789"[d]
  }

  /** `String(n)` for a natural number below 10^21 (larger ones use exponent notation). */
  function NatToString(n: nat): (r: string)
    ensures |r| >= 1
    decreases n
  {
    if n < 10 then [DigitChar(n)] else NatToString(n / 10) + [DigitChar(n % 10)]
  }

  /** Exactly the numbers below 10 are written with one digit. */
  lemma NatToStringShort(n: nat)
    ensures |NatToString(n)| == 1 <==> n < 10
  {
    if n >= 10 {
      assert |NatToString(n / 10)| >= 1;
    }
  }

  /** Distinct numbers are written differently. */
  lemma {:induction false} NatToStringInjective(a: nat, b: nat)
    requires NatToString(a) == NatToString(b)
    ensures a == b
    decreases a
  {
    var sa := NatToString(a);
    var sb := NatToString(b);
    NatToStringShort(a);
    NatToStringShort(b);
    if a < 10 {
      assert "0123456789"[a] == sa[0] == sb[0] == "0123456789"[b];
    } else {
      var pa := NatToString(a / 10);
      var pb := NatToString(b / 10);
      assert sa == pa + [DigitChar(a % 10)] && sb == pb + [DigitChar(b % 10)];
      assert pa == sa[..|pa|] && pb == sb[..|pb|];
      NatToStringInjective(a / 10, b / 10);
      assert sa[|pa|] == DigitChar(a % 10) && sb[|pb|] == DigitChar(b % 10);
      assert "0123456789"[a % 10] == "0123456789"[b % 10];
    }
  }

  /** `String(i)` for an integer number. */
  function IntToString(i: int): string {
    if i < 0 then "-" + NatToString(-i) else NatToString(i)
  }

  /** The position of the first `c` in `s`, if any. */
  function FirstIndexOf(s: string, c: char): (r: Option<nat>)
    ensures r.None? <==> forall i :: 0 <= i < |s| ==> s[i] != c
    ensures r.Some? ==> r.value < |s| && s[r.value] == c && forall i :: 0 <= i < r.value ==> s[i] != c
  {
    if s == [] then None
    else if s[0] == c then Some(0)
    else match FirstIndexOf(s[1..], c)
      case None => None
      case Some(i) => Some(i + 1)
  }

  /** The position of the last `c` in `s`, if any. */
  function LastIndexOf(s: string, c: char): (r: Option<nat>)
    ensures r.None? <==> forall i :: 0 <= i < |s| ==> s[i] != c
    ensures r.Some? ==> r.value < |s| && s[r.value] == c && forall i :: r.value < i < |s| ==> s[i] != c
  {
    if s == [] then None
    else if s[|s| - 1] == c then Some(|s| - 1)
    else LastIndexOf(s[..|s| - 1], c)
  }

  /** The separator after a part that does not contain it is its first occurrence. */
  lemma FirstIndexOfSeparator(x: string, y: string, c: char)
    requires forall i :: 0 <= i < |x| ==> x[i] != c
    ensures FirstIndexOf(x + [c] + y, c) == Some(|x|)
  {
    var s := x + [c] + y;
    assert s[|x|] == c;
    assert forall i :: 0 <= i < |x| ==> s[i] == x[i];
  }

  /** Two strings joined at a separator that the left parts do not contain split back
      into the same parts. */
  lemma SplitAtSeparator(x1: string, y1: string, x2: string, y2: string, c: char)
    requires forall i :: 0 <= i < |x1| ==> x1[i] != c
    requires forall i :: 0 <= i < |x2| ==> x2[i] != c
    requires x1 + [c] + y1 == x2 + [c] + y2
    ensures x1 == x2 && y1 == y2
  {
    FirstIndexOfSeparator(x1, y1, c);
    FirstIndexOfSeparator(x2, y2, c);
    var s := x1 + [c] + y1;
    assert x1 == s[..|x1|] && x2 == (x2 + [c] + y2)[..|x2|];
    assert y1 == s[|x1| + 1..] && y2 == (x2 + [c] + y2)[|x2| + 1..];
  }

  /** Equal strings with the same prefix have equal remainders. */
  lemma CancelPrefix(p: string, a: string, b: string)
    requires p + a == p + b
    ensures a == b
  {
    assert a == (p + a)[|p|..];
    assert b == (p + b)[|p|..];
  }
}
