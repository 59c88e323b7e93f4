/** The string operations the agents use: `str.lower()`, `str.strip()`, the
    substring test `sub in s`, and the decimal rendering of an `int`.
    Characters are treated as ASCII: only `A`..`Z` have a lower-case form and
    only the ASCII white-space characters are stripped. */
module Text {

  predicate IsUpper(c: char) {
    'A' <= c <= 'Z'
  }

  function LowerChar(c: char): char {
    if IsUpper(c) then (c as int + 32) as char else c
  }

  /** `s.lower()`. */
  function Lower(s: string): (r: string)
    ensures |r| == |s|
    ensures forall i :: 0 <= i < |s| ==> r[i] == LowerChar(s[i])
  {
    seq(|s|, i requires 0 <= i < |s| => LowerChar(s[i]))
  }

  /** A string without upper-case letters is its own lower-case form. */
  lemma LowerKeepsLower(s: string)
    requires forall i :: 0 <= i < |s| ==> !IsUpper(s[i])
    ensures Lower(s) == s
  {
  }

  /** Lower-casing leaves no upper-case letter behind and changes nothing
      else, so doing it twice is doing it once. */
  lemma LowerIsIdempotent(s: string)
    ensures forall i :: 0 <= i < |s| ==> !IsUpper(Lower(s)[i])
    ensures Lower(Lower(s)) == Lower(s)
  {
  }

  /** Python's `str.isspace()` restricted to ASCII: space, `\t`, `\n`,
      vertical tab, form feed, `\r` and the four separators 0x1C-0x1F. */
  predicate IsSpace(c: char) {
    c == ' ' || 9 <= c as int <= 13 || 28 <= c as int <= 31
  }

  ghost predicate AllSpace(s: string) {
    forall i :: 0 <= i < |s| ==> IsSpace(s[i])
  }

  /** Index of the first character that is not white space (or `|s|`). */
  function TextStart(s: string): (k: nat)
    ensures k <= |s|
    ensures AllSpace(s[..k])
    ensures k < |s| ==> !IsSpace(s[k])
  {
    if s == [] || !IsSpace(s[0]) then 0
    else
      var k := 1 + TextStart(s[1..]);
      assert s[..k] == [s[0]] + s[1..][..k - 1];
      k
  }

  /** Index just past the last character that is not white space (or 0). */
  function TextEnd(s: string): (k: nat)
    ensures k <= |s|
    ensures AllSpace(s[k..])
    ensures k > 0 ==> !IsSpace(s[k - 1])
  {
    if s == [] || !IsSpace(s[|s| - 1]) then |s|
    else
      var k := TextEnd(s[..|s| - 1]);
      assert s[k..] == s[..|s| - 1][k..] + [s[|s| - 1]];
      k
  }

  /** `s.strip()`: `s` is white space, then the result, then white space,
      and the result neither starts nor ends with white space. */
  function Strip(s: string): (r: string)
    ensures |r| <= |s|
    ensures r == [] || (!IsSpace(r[0]) && !IsSpace(r[|r| - 1]))
    ensures exists b, e :: 0 <= b <= e <= |s| && r == s[b..e] && AllSpace(s[..b]) && AllSpace(s[e..])
  {
    var e := TextEnd(s);
    var b := TextStart(s[..e]);
    assert s[..e][..b] == s[..b];
    s[b..e]
  }

  /** Stripping twice is stripping once. */
  lemma StripIsIdempotent(s: string)
    ensures Strip(Strip(s)) == Strip(s)
  {
    var r := Strip(s);
    if r != [] {
      assert TextEnd(r) == |r|;
      assert r[..|r|] == r;
      assert TextStart(r) == 0;
    }
  }

  /** A string that neither starts nor ends with white space is already
      stripped. */
  lemma StripKeepsTrimmed(s: string)
    requires s == [] || (!IsSpace(s[0]) && !IsSpace(s[|s| - 1]))
    ensures Strip(s) == s
  {
    assert TextEnd(s) == |s|;
    assert s[..|s|] == s;
    assert TextStart(s) == 0;
  }

  /** `sub` occurs in `s` starting at index `i`. */
  predicate OccursAt(s: string, sub: string, i: nat) {
    i + |sub| <= |s| && s[i..i + |sub|] == sub
  }

  /** A string occurs where it is spliced in. */
  lemma OccursBetween(before: string, sub: string, after: string)
    ensures OccursAt(before + sub + after, sub, |before|)
    ensures Contains(before + sub + after, sub)
  {
    var s := before + sub + after;
    assert s[|before|..|before| + |sub|] == sub;
    assert OccursAt(s, sub, |before|);
  }

  /** A string lacking one of the characters of `sub` does not contain it. */
  lemma MissingCharNotContained(s: string, sub: string, c: char)
    requires c in sub && c !in s
    ensures !Contains(s, sub)
  {
    forall i: nat | i + |sub| <= |s|
      ensures !OccursAt(s, sub, i)
    {
      var k :| 0 <= k < |sub| && sub[k] == c;
      assert s[i + k] == s[i..i + |sub|][k];
    }
  }

  /** Python's `sub in s` on strings. */
  function Contains(s: string, sub: string): (b: bool)
    ensures b <==> exists i: nat :: OccursAt(s, sub, i)
  {
    ContainsFrom(s, sub, 0)
  }

  function ContainsFrom(s: string, sub: string, from: nat): (b: bool)
    ensures b <==> exists i: nat :: from <= i && OccursAt(s, sub, i)
    decreases |s| - from
  {
    if from + |sub| > |s| then
      assert forall i: nat :: from <= i ==> !OccursAt(s, sub, i);
      false
    else if s[from..from + |sub|] == sub then
      assert OccursAt(s, sub, from);
      true
    else ContainsFrom(s, sub, from + 1)
  }

  function Digit(d: nat): char
    requires d < 10
  {
    "0123456789"[d]
  }

  /** `str(n)` for a non-negative `int`: decimal digits, no leading zero. */
  function NatToDecimal(n: nat): (r: string)
    ensures |r| >= 1
    ensures forall i :: 0 <= i < |r| ==> '0' <= r[i] <= '9'
    ensures |r| > 1 ==> r[0] != '0'
  {
    if n < 10 then [Digit(n)] else NatToDecimal(n / 10) + [Digit(n % 10)]
  }

  /** `str(i)` for any `int`. */
  function IntToDecimal(i: int): (r: string)
    ensures |r| >= 1
    ensures (r[0] == '-') <==> i < 0
  {
    if i < 0 then "-" + NatToDecimal(-i) else NatToDecimal(i)
  }

  /** Reading decimal digits back, the inverse of `NatToDecimal`. */
  function DecimalValue(s: string): nat
    requires forall i :: 0 <= i < |s| ==> '0' <= s[i] <= '9'
  {
    if s == [] then 0 else 10 * DecimalValue(s[..|s| - 1]) + (s[|s| - 1] as int - '0' as int)
  }

  /** Reading an optionally signed decimal back, the inverse of
      `IntToDecimal`. */
  function SignedDecimalValue(s: string): int
    requires s != [] && s[0] == '-' ==> forall i :: 1 <= i < |s| ==> '0' <= s[i] <= '9'
    requires s == [] || s[0] != '-' ==> forall i :: 0 <= i < |s| ==> '0' <= s[i] <= '9'
  {
    if s != [] && s[0] == '-' then -(DecimalValue(s[1..]) as int) else DecimalValue(s)
  }

  lemma {:induction false} DecimalRoundTrip(n: nat)
    ensures DecimalValue(NatToDecimal(n)) == n
  {
    var r := NatToDecimal(n);
    if n >= 10 {
      DecimalRoundTrip(n / 10);
      assert r[..|r| - 1] == NatToDecimal(n / 10);
    }
  }

  /** `str(i)` for any `int`, negative ones included, reads back as `i`. */
  lemma {:induction false} IntDecimalRoundTrip(i: int)
    ensures var r := IntToDecimal(i);
            && (r[0] == '-' ==> forall k :: 1 <= k < |r| ==> '0' <= r[k] <= '9')
            && (r[0] != '-' ==> forall k :: 0 <= k < |r| ==> '0' <= r[k] <= '9')
            && SignedDecimalValue(r) == i
  {
    var r := IntToDecimal(i);
    if i < 0 {
      var d := NatToDecimal(-i);
      assert r == "-" + d;
      assert r[1..] == d;
      forall k | 1 <= k < |r|
        ensures '0' <= r[k] <= '9'
      {
        assert r[k] == d[k - 1];
      }
      DecimalRoundTrip(-i);
      assert SignedDecimalValue(r) == -(DecimalValue(d) as int);
    } else {
      DecimalRoundTrip(i);
    }
  }
}
