/** String helpers the core relies on: Foundation's whitespace trimming, Swift's
    decimal interpolation of integers, `joined(separator:)` and `prefix(_:)`. */
module Text {
  import opened Wrappers

  /** Membership in Foundation's `CharacterSet.whitespacesAndNewlines`: the
      Unicode space separators (general category Zs), U+0009 to U+000D, U+0085
      and the line and paragraph separators U+2028 and U+2029. */
  predicate IsWhitespaceOrNewline(c: char) {
    || c == ' '
    || ('\t' <= c <= '\r')
    || c == '\U{0085}'
    || c == '\U{00A0}'
    || c == '\U{1680}'
    || ('\U{2000}' <= c <= '\U{200A}')
    || c == '\U{2028}'
    || c == '\U{2029}'
    || c == '\U{202F}'
    || c == '\U{205F}'
    || c == '\U{3000}'
  }

  /** True when every character of `s` is whitespace or a newline. */
  predicate AllWhitespace(s: string) {
    forall i :: 0 <= i < |s| ==> IsWhitespaceOrNewline(s[i])
  }

  /** The line terminators of the ICU regular-expression engine, which its
      `.` does not match unless dot-all mode is on. */
  predicate IsLineTerminator(c: char) {
    ('\n' <= c <= '\r') || c == '\U{0085}' || c == '\U{2028}' || c == '\U{2029}'
  }

  /** The pattern `.{n,}` matched against the whole of `s`: at least `n`
      characters, none of them a line terminator. */
  predicate MatchesAnyAtLeast(s: string, n: nat) {
    |s| >= n && forall i :: 0 <= i < |s| ==> !IsLineTerminator(s[i])
  }

  /** `s` without its leading whitespace and newlines. */
  function TrimLeading(s: string): (r: string)
    ensures |r| <= |s| && r == s[|s| - |r|..]
    ensures AllWhitespace(s[..|s| - |r|])
    ensures r == [] || !IsWhitespaceOrNewline(r[0])
  {
    if s == [] || !IsWhitespaceOrNewline(s[0]) then s
    else
      var rest := TrimLeading(s[1..]);
      assert s[..|s| - |rest|] == [s[0]] + s[1..][..|s[1..]| - |rest|];
      rest
  }

  /** `s` without its trailing whitespace and newlines. */
  function TrimTrailing(s: string): (r: string)
    ensures |r| <= |s| && r == s[..|r|]
    ensures AllWhitespace(s[|r|..])
    ensures r == [] || !IsWhitespaceOrNewline(r[|r| - 1])
  {
    if s == [] || !IsWhitespaceOrNewline(s[|s| - 1]) then s
    else
      var rest := TrimTrailing(s[..|s| - 1]);
      assert s[|rest|..] == s[..|s| - 1][|rest|..] + [s[|s| - 1]];
      rest
  }

  /** Swift's `trimmingCharacters(in: .whitespacesAndNewlines)`. */
  function Trim(s: string): string {
    TrimTrailing(TrimLeading(s))
  }

  /** Trimming leaves nothing exactly when the string is all whitespace. */
  lemma TrimEmptyIffAllWhitespace(s: string)
    ensures Trim(s) == [] <==> AllWhitespace(s)
  {
    var l := TrimLeading(s);
    if Trim(s) == [] {
      assert AllWhitespace(l[0..]);
      assert l == [];
      assert s[..|s| - |l|] == s;
    } else {
      assert !IsWhitespaceOrNewline(l[0]);
      assert l[0] == s[|s| - |l|];
    }
  }

  /** The trimmed text of `s` is non-empty exactly when `s` holds a character
      that is neither whitespace nor a newline. */
  lemma TrimNonEmptyIffVisible(s: string)
    ensures Trim(s) != [] <==> exists i :: 0 <= i < |s| && !IsWhitespaceOrNewline(s[i])
  {
    TrimEmptyIffAllWhitespace(s);
  }

  /** Swift's `String(s.prefix(n))`: at most the first `n` characters. */
  function Prefix(s: string, n: nat): (r: string)
    ensures |r| == if |s| <= n then |s| else n
    ensures r == s[..|r|]
  {
    if |s| <= n then s else s[..n]
  }

  /** Swift's `joined(separator:)`. */
  function Join(parts: seq<string>, separator: string): (r: string)
    ensures parts == [] ==> r == []
    ensures |parts| == 1 ==> r == parts[0]
    ensures |parts| > 1 ==> r == parts[0] + separator + Join(parts[1..], separator)
  {
    if parts == [] then []
    else if |parts| == 1 then parts[0]
    else parts[0] + separator + Join(parts[1..], separator)
  }

  predicate IsDigit(c: char) {
    '0' as int <= c as int <= '9' as int
  }

  function DigitChar(d: nat): (c: char)
    requires d < 10
    ensures IsDigit(c) && (c as int) - ('0' as int) == d
  {
    ('0' as int + d) as char
  }

  /** Swift's `"\(n)"` for a non-negative integer: its decimal digits, without
      leading zeros. */
  function NatToDecimal(n: nat): (r: string)
    ensures |r| >= 1 && forall i :: 0 <= i < |r| ==> IsDigit(r[i])
    ensures |r| > 1 ==> r[0] != '0'
    decreases n
  {
    if n < 10 then [DigitChar(n)] else NatToDecimal(n / 10) + [DigitChar(n % 10)]
  }

  /** Swift's `"\(i)"` for any integer: a minus sign before negative values. */
  function IntToDecimal(i: int): (r: string)
    ensures |r| >= 1
    ensures (r[0] == '-') <==> i < 0
    ensures forall k :: 0 < k < |r| ==> IsDigit(r[k])
  {
    if i < 0 then "-" + NatToDecimal(-i) else NatToDecimal(i)
  }

  /** The value of a string of decimal digits. */
  function DecimalValue(s: string): nat
    requires forall i :: 0 <= i < |s| ==> IsDigit(s[i])
  {
    if s == [] then 0
    else
      assert IsDigit(s[|s| - 1]);
      DecimalValue(s[..|s| - 1]) * 10 + ((s[|s| - 1] as int) - ('0' as int))
  }

  /** Reads back a string written by `IntToDecimal`; `None` for anything that
      is not an optional minus sign followed by at least one digit. */
  function ParseInt(s: string): Option<int> {
    if |s| >= 2 && s[0] == '-' && forall i :: 1 <= i < |s| ==> IsDigit(s[i]) then
      var magnitude: int := DecimalValue(s[1..]);
      Some(-magnitude)
    else if |s| >= 1 && forall i :: 0 <= i < |s| ==> IsDigit(s[i]) then
      Some(DecimalValue(s))
    else None
  }

  lemma {:induction false} NatToDecimalRoundTrip(n: nat)
    ensures DecimalValue(NatToDecimal(n)) == n
    decreases n
  {
    if n >= 10 {
      NatToDecimalRoundTrip(n / 10);
      var r := NatToDecimal(n);
      assert r[..|r| - 1] == NatToDecimal(n / 10);
    }
  }

  /** Every integer is recovered from its decimal rendering, so distinct ids
      give distinct path segments. */
  lemma IntToDecimalRoundTrip(i: int)
    ensures ParseInt(IntToDecimal(i)) == Some(i)
  {
    var r := IntToDecimal(i);
    if i < 0 {
      NatToDecimalRoundTrip(-i);
      assert r[1..] == NatToDecimal(-i);
    } else {
      NatToDecimalRoundTrip(i);
    }
  }

  lemma IntToDecimalInjective(i: int, j: int)
    ensures IntToDecimal(i) == IntToDecimal(j) ==> i == j
  {
    IntToDecimalRoundTrip(i);
    IntToDecimalRoundTrip(j);
  }

  /** The characters of `s` before the first `sep`. */
  function FieldBefore(s: string, sep: char): (r: string)
    ensures |r| <= |s| && r == s[..|r|]
  {
    if s == [] || s[0] == sep then [] else [s[0]] + FieldBefore(s[1..], sep)
  }

  lemma {:induction false} FieldBeforeNoSep(d: string, rest: string, sep: char)
    requires forall k :: 0 <= k < |d| ==> d[k] != sep
    requires rest == [] || rest[0] == sep
    ensures FieldBefore(d + rest, sep) == d
    decreases |d|
  {
    if d == [] {
      assert d + rest == rest;
    } else {
      assert (d + rest)[1..] == d[1..] + rest;
      FieldBeforeNoSep(d[1..], rest, sep);
    }
  }
}
