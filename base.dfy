/** Small value-level helpers shared by the model: an optional value, Python's
    truthiness of optional strings, slicing, ASCII lower-casing, joining lines,
    substring search and the decimal rendering of integers. */
module Base {

  datatype Option<+T> = None | Some(value: T)

  /** Python truthiness of a `str | None`: None and the empty string are falsy. */
  predicate Truthy(x: Option<string>) {
    x.Some? && x.value != ""
  }

  /** Python's `x or fallback` for a `str | None`. */
  function OrElse(x: Option<string>, fallback: string): string {
    if Truthy(x) then x.value else fallback
  }

  /** Python's `s[:n]` for a non-negative `n`. */
  function Take(s: string, n: nat): (r: string)
    ensures |r| == if |s| <= n then |s| else n
    ensures r == s[..|r|]
  {
    if |s| <= n then s else s[..n]
  }

  /** Lower-casing of one character, restricted to ASCII letters. */
  function LowerChar(c: char): char {
    if 'A' <= c <= 'Z' then (c as int + 32) as char else c
  }

  function Lower(s: string): (r: string)
    ensures |r| == |s|
    ensures forall i :: 0 <= i < |s| ==> r[i] == LowerChar(s[i])
  {
    seq(|s|, i requires 0 <= i < |s| => LowerChar(s[i]))
  }

  /** Python's `sep.join(lines)`. */
  function Join(sep: string, lines: seq<string>): string
    decreases |lines|
  {
    if |lines| == 0 then ""
    else if |lines| == 1 then lines[0]
    else lines[0] + sep + Join(sep, lines[1..])
  }

  /** Python's `sub in s` for strings. */
  ghost predicate Contains(s: string, sub: string) {
    exists i :: OccursAt(s, sub, i)
  }

  predicate OccursAt(s: string, sub: string, i: int) {
    0 <= i <= |s| - |sub| && s[i..i + |sub|] == sub
  }

  lemma ContainsMiddle(a: string, b: string, c: string)
    ensures Contains(a + b + c, b)
  {
    var s := a + b + c;
    assert OccursAt(s, b, |a|);
  }

  lemma ContainsTransitive(s: string, t: string, u: string)
    requires Contains(s, t) && Contains(t, u)
    ensures Contains(s, u)
  {
    var i :| OccursAt(s, t, i);
    var j :| OccursAt(t, u, j);
    assert forall k :: 0 <= k < |u| ==> s[i + j + k] == t[j + k] == u[k];
    assert s[i + j..i + j + |u|] == u;
    assert OccursAt(s, u, i + j);
  }

  /** A string occurs at the start and at the end of any concatenation. */
  lemma ContainsEnds(a: string, b: string)
    ensures Contains(a + b, a) && Contains(a + b, b)
  {
    assert (a + b)[..|a|] == a;
    assert OccursAt(a + b, a, 0);
    assert (a + b)[|a|..] == b;
    assert OccursAt(a + b, b, |a|);
  }

  /** Every joined line occurs in the joined text. */
  lemma {:induction false} JoinContains(sep: string, lines: seq<string>, k: nat)
    requires k < |lines|
    ensures Contains(Join(sep, lines), lines[k])
    decreases |lines|
  {
    var joined := Join(sep, lines);
    if |lines| == 1 {
      assert joined == lines[0];
      assert joined[0..|lines[0]|] == lines[0];
      assert OccursAt(joined, lines[k], 0);
    } else {
      var rest := Join(sep, lines[1..]);
      assert joined == lines[0] + (sep + rest);
      if k == 0 {
        ContainsEnds(lines[0], sep + rest);
      } else {
        JoinContains(sep, lines[1..], k - 1);
        assert lines[1..][k - 1] == lines[k];
        assert joined == (lines[0] + sep) + rest;
        ContainsEnds(lines[0] + sep, rest);
        ContainsTransitive(joined, rest, lines[k]);
      }
    }
  }

  predicate IsDigit(c: char) {
    '0' <= c <= '9'
  }

  function DigitChar(d: nat): (c: char)
    requires d < 10
    ensures IsDigit(c) && c as int - '0' as int == d
  {
    ('0' as int + d) as char
  }

  /** Python's `str(n)` for a non-negative integer. */
  function NatToString(n: nat): string
    decreases n
  {
    if n < 10 then [DigitChar(n)] else NatToString(n / 10) + [DigitChar(n % 10)]
  }

  /** Python's `str(i)` (and `f"{i}"`) for any integer. */
  function IntToString(i: int): string {
    if i < 0 then "-" + NatToString(-i) else NatToString(i)
  }

  /** The value of a string of decimal digits, read most significant first. */
  function DigitsValue(s: string): nat
    requires forall k :: 0 <= k < |s| ==> IsDigit(s[k])
  {
    if s == [] then 0
    else
      assert IsDigit(s[|s| - 1]);
      DigitsValue(s[..|s| - 1]) * 10 + (s[|s| - 1] as int - '0' as int)
  }

  /** The integer a rendering by IntToString stands for. */
  function ParseInt(s: string): int
    requires s != []
    requires s[0] == '-' ==> forall k :: 1 <= k < |s| ==> IsDigit(s[k])
    requires s[0] != '-' ==> forall k :: 0 <= k < |s| ==> IsDigit(s[k])
  {
    if s[0] == '-' then 0 - DigitsValue(s[1..]) else DigitsValue(s)
  }

  /** NatToString renders a non-empty run of digits that reads back as `n`. */
  lemma {:induction false} NatToStringRoundTrip(n: nat)
    ensures NatToString(n) != []
    ensures forall k :: 0 <= k < |NatToString(n)| ==> IsDigit(NatToString(n)[k])
    ensures DigitsValue(NatToString(n)) == n
    decreases n
  {
    var s := NatToString(n);
    if n >= 10 {
      NatToStringRoundTrip(n / 10);
      var h := NatToString(n / 10);
      assert s == h + [DigitChar(n % 10)];
      assert s[..|s| - 1] == h;
    }
  }

  /** Rendering an integer in decimal loses nothing: it parses back. */
  lemma IntToStringRoundTrip(i: int)
    ensures IntToString(i) != []
    ensures IntToString(i)[0] == '-' ==> forall k :: 1 <= k < |IntToString(i)| ==> IsDigit(IntToString(i)[k])
    ensures IntToString(i)[0] != '-' ==> forall k :: 0 <= k < |IntToString(i)| ==> IsDigit(IntToString(i)[k])
    ensures ParseInt(IntToString(i)) == i
  {
    if i < 0 {
      NatToStringRoundTrip(-i);
      assert IntToString(i)[1..] == NatToString(-i);
    } else {
      NatToStringRoundTrip(i);
    }
  }
}
