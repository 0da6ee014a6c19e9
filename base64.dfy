/** The `toBase64()` string extension: the UTF-8 bytes of a string (RFC 3629)
    written in the base 64 alphabet of section 4 of RFC 4648, with `=` padding.
    Decoders for both layers are given so that the encoding can be shown to lose
    nothing. */
module Base64 {
  import opened Wrappers

  type Byte = x: int | 0 <= x < 256

  /** A Unicode scalar value: a code point that is not a surrogate. */
  predicate IsScalar(v: int) {
    (0 <= v < 0xD800) || (0xE000 <= v < 0x11_0000)
  }

  /** The UTF-8 bytes of one character (section 3 of RFC 3629). */
  function Utf8EncodeChar(c: char): (r: seq<Byte>)
    ensures 1 <= |r| <= 4
  {
    var v := c as int;
    if v < 0x80 then [v]
    else if v < 0x800 then [0xC0 + v / 64, 0x80 + v % 64]
    else if v < 0x1_0000 then [0xE0 + v / 4096, 0x80 + (v / 64) % 64, 0x80 + v % 64]
    else [0xF0 + v / 262144, 0x80 + (v / 4096) % 64, 0x80 + (v / 64) % 64, 0x80 + v % 64]
  }

  /** Foundation's `Data(s.utf8)`. */
  function Utf8Encode(s: string): (r: seq<Byte>)
    ensures |s| <= |r| <= 4 * |s|
  {
    if s == [] then [] else Utf8EncodeChar(s[0]) + Utf8Encode(s[1..])
  }

  /** The length of the sequence a leading byte announces, or 0 for a byte that
      cannot lead one. */
  function SequenceLength(b: Byte): nat {
    if b < 0x80 then 1
    else if 0xC0 <= b < 0xE0 then 2
    else if 0xE0 <= b < 0xF0 then 3
    else if 0xF0 <= b < 0xF8 then 4
    else 0
  }

  predicate IsContinuation(b: Byte) {
    0x80 <= b < 0xC0
  }

  /** The code point that a complete sequence of `n` bytes spells. */
  function CodePoint(b: seq<Byte>, n: nat): int
    requires 1 <= n <= 4 && n <= |b|
  {
    var b0: int, b1: int := b[0], if n >= 2 then b[1] else 0;
    var b2: int, b3: int := if n >= 3 then b[2] else 0, if n >= 4 then b[3] else 0;
    if n == 1 then b0
    else if n == 2 then (b0 - 0xC0) * 64 + (b1 - 0x80)
    else if n == 3 then (b0 - 0xE0) * 4096 + (b1 - 0x80) * 64 + (b2 - 0x80)
    else (b0 - 0xF0) * 262144 + (b1 - 0x80) * 4096 + (b2 - 0x80) * 64 + (b3 - 0x80)
  }

  /** Decodes UTF-8; `None` for a truncated sequence, a bad continuation byte or
      a value that is not a scalar value. */
  function Utf8Decode(b: seq<Byte>): Option<string>
    decreases |b|
  {
    if b == [] then Some([])
    else
      var n := SequenceLength(b[0]);
      if n == 0 || |b| < n then None
      else if !(forall k :: 1 <= k < n ==> IsContinuation(b[k])) then None
      else
        var v := CodePoint(b, n);
        if !IsScalar(v) then None
        else match Utf8Decode(b[n..])
          case None => None
          case Some(rest) => Some([v as char] + rest)
  }

  lemma Utf8CharRoundTrip(c: char, tail: seq<Byte>)
    ensures var e := Utf8EncodeChar(c) + tail;
      var n := SequenceLength(e[0]);
      && n == |Utf8EncodeChar(c)|
      && (forall k :: 1 <= k < n ==> IsContinuation(e[k]))
      && CodePoint(e, n) == c as int
  {
    var v := c as int;
    var e := Utf8EncodeChar(c) + tail;
    if v < 0x80 {
    } else if v < 0x800 {
      Utf8Two(v, e);
    } else if v < 0x1_0000 {
      Utf8Three(v, e);
    } else {
      Utf8Four(v, e);
    }
  }

  lemma Utf8Two(v: int, e: seq<Byte>)
    requires 0x80 <= v < 0x800 && |e| >= 2
    requires e[0] == 0xC0 + v / 64 && e[1] == 0x80 + v % 64
    ensures SequenceLength(e[0]) == 2 && IsContinuation(e[1]) && CodePoint(e, 2) == v
  {
  }

  lemma Utf8Three(v: int, e: seq<Byte>)
    requires 0x800 <= v < 0x1_0000 && |e| >= 3
    requires e[0] == 0xE0 + v / 4096 && e[1] == 0x80 + (v / 64) % 64 && e[2] == 0x80 + v % 64
    ensures SequenceLength(e[0]) == 3 && IsContinuation(e[1]) && IsContinuation(e[2])
    ensures CodePoint(e, 3) == v
  {
    assert v == (v / 4096) * 4096 + ((v / 64) % 64) * 64 + v % 64;
  }

  lemma Utf8Four(v: int, e: seq<Byte>)
    requires 0x1_0000 <= v < 0x11_0000 && |e| >= 4
    requires e[0] == 0xF0 + v / 262144 && e[1] == 0x80 + (v / 4096) % 64
    requires e[2] == 0x80 + (v / 64) % 64 && e[3] == 0x80 + v % 64
    ensures SequenceLength(e[0]) == 4
    ensures IsContinuation(e[1]) && IsContinuation(e[2]) && IsContinuation(e[3])
    ensures CodePoint(e, 4) == v
  {
    assert v == (v / 262144) * 262144 + ((v / 4096) % 64) * 4096 + ((v / 64) % 64) * 64 + v % 64;
  }

  /** Decoding the UTF-8 bytes of a string gives the string back. */
  lemma {:induction false} Utf8RoundTrip(s: string)
    ensures Utf8Decode(Utf8Encode(s)) == Some(s)
  {
    if s != [] {
      var e := Utf8Encode(s);
      var head := Utf8EncodeChar(s[0]);
      Utf8CharRoundTrip(s[0], Utf8Encode(s[1..]));
      assert e[|head|..] == Utf8Encode(s[1..]);
      Utf8RoundTrip(s[1..]);
      assert [s[0]] + s[1..] == s;
    }
  }

  /** Table 1 of RFC 4648: values 0-25 are `A`-`Z`, 26-51 `a`-`z`, 52-61
      `0`-`9`, 62 is `+` and 63 is `/`. */
  function Sextet(k: nat): (c: char)
    requires k < 64
    ensures c != '='
  {
    if k < 26 then ('A' as int + k) as char
    else if k < 52 then ('a' as int + (k - 26)) as char
    else if k < 62 then ('0' as int + (k - 52)) as char
    else if k == 62 then '+'
    else '/'
  }

  /** The inverse of `Sextet` on the alphabet; `None` off it. */
  function SextetValue(c: char): (r: Option<nat>)
    ensures r.Some? ==> r.value < 64
  {
    if 'A' as int <= c as int <= 'Z' as int then Some(c as int - 'A' as int)
    else if 'a' as int <= c as int <= 'z' as int then Some(c as int - 'a' as int + 26)
    else if '0' as int <= c as int <= '9' as int then Some(c as int - '0' as int + 52)
    else if c == '+' then Some(62)
    else if c == '/' then Some(63)
    else None
  }

  lemma SextetRoundTrip(k: nat)
    requires k < 64
    ensures SextetValue(Sextet(k)) == Some(k)
  {
  }

  /** The four 6-bit values that three bytes are cut into, most significant
      bits first. */
  function Split0(b0: Byte): (k: nat) ensures k < 64 { b0 / 4 }
  function Split1(b0: Byte, b1: Byte): (k: nat) ensures k < 64 { (b0 % 4) * 16 + b1 / 16 }
  function Split2(b1: Byte, b2: Byte): (k: nat) ensures k < 64 { (b1 % 16) * 4 + b2 / 64 }
  function Split3(b2: Byte): (k: nat) ensures k < 64 { b2 % 64 }

  /** The three bytes that four 6-bit values are glued back into. */
  function Glue0(v0: nat, v1: nat): Byte requires v0 < 64 && v1 < 64 { v0 * 4 + v1 / 16 }
  function Glue1(v1: nat, v2: nat): Byte requires v1 < 64 && v2 < 64 { (v1 % 16) * 16 + v2 / 4 }
  function Glue2(v2: nat, v3: nat): Byte requires v2 < 64 && v3 < 64 { (v2 % 4) * 64 + v3 }

  lemma GlueSplit(b0: Byte, b1: Byte, b2: Byte)
    ensures Glue0(Split0(b0), Split1(b0, b1)) == b0
    ensures Glue1(Split1(b0, b1), Split2(b1, b2)) == b1
    ensures Glue2(Split2(b1, b2), Split3(b2)) == b2
  {
  }

  /** Section 4 of RFC 4648: each group of three bytes becomes four characters,
      and a final group of one or two bytes is padded with `=`. */
  function Encode(b: seq<Byte>): (r: string)
    ensures |r| == 4 * ((|b| + 2) / 3)
    decreases |b|
  {
    if |b| == 0 then []
    else if |b| == 1 then
      [Sextet(Split0(b[0])), Sextet(Split1(b[0], 0)), '=', '=']
    else if |b| == 2 then
      [Sextet(Split0(b[0])), Sextet(Split1(b[0], b[1])), Sextet(Split2(b[1], 0)), '=']
    else
      [Sextet(Split0(b[0])), Sextet(Split1(b[0], b[1])),
       Sextet(Split2(b[1], b[2])), Sextet(Split3(b[2]))] + Encode(b[3..])
  }

  /** Decodes padded base 64; `None` for a length that is not a multiple of
      four, a character off the alphabet or padding before the last group. */
  function Decode(s: string): Option<seq<Byte>>
    decreases |s|
  {
    if |s| == 0 then Some([])
    else if |s| < 4 then None
    else
      var v0, v1 := SextetValue(s[0]), SextetValue(s[1]);
      if v0.None? || v1.None? then None
      else if |s| == 4 && s[2] == '=' && s[3] == '=' then
        Some([Glue0(v0.value, v1.value)])
      else
        var v2 := SextetValue(s[2]);
        if v2.None? then None
        else if |s| == 4 && s[3] == '=' then
          Some([Glue0(v0.value, v1.value), Glue1(v1.value, v2.value)])
        else
          var v3 := SextetValue(s[3]);
          if v3.None? then None
          else match Decode(s[4..])
            case None => None
            case Some(rest) =>
              Some([Glue0(v0.value, v1.value), Glue1(v1.value, v2.value),
                    Glue2(v2.value, v3.value)] + rest)
  }

  lemma DecodeLastOne(s: string, v0: nat, v1: nat)
    requires |s| == 4 && v0 < 64 && v1 < 64
    requires SextetValue(s[0]) == Some(v0) && SextetValue(s[1]) == Some(v1)
    requires s[2] == '=' && s[3] == '='
    ensures Decode(s) == Some([Glue0(v0, v1)])
  {
  }

  lemma DecodeLastTwo(s: string, v0: nat, v1: nat, v2: nat)
    requires |s| == 4 && v0 < 64 && v1 < 64 && v2 < 64
    requires SextetValue(s[0]) == Some(v0) && SextetValue(s[1]) == Some(v1)
    requires SextetValue(s[2]) == Some(v2) && s[2] != '=' && s[3] == '='
    ensures Decode(s) == Some([Glue0(v0, v1), Glue1(v1, v2)])
  {
  }

  lemma DecodeGroup(s: string, v0: nat, v1: nat, v2: nat, v3: nat)
    requires |s| >= 4 && v0 < 64 && v1 < 64 && v2 < 64 && v3 < 64
    requires SextetValue(s[0]) == Some(v0) && SextetValue(s[1]) == Some(v1)
    requires SextetValue(s[2]) == Some(v2) && SextetValue(s[3]) == Some(v3)
    requires s[2] != '=' && s[3] != '=' && Decode(s[4..]).Some?
    ensures Decode(s) == Some([Glue0(v0, v1), Glue1(v1, v2), Glue2(v2, v3)] + Decode(s[4..]).value)
  {
  }

  lemma DecodeSextetsOne(k0: nat, k1: nat)
    requires k0 < 64 && k1 < 64
    ensures Decode([Sextet(k0), Sextet(k1), '=', '=']) == Some([Glue0(k0, k1)])
  {
    SextetRoundTrip(k0);
    SextetRoundTrip(k1);
    DecodeLastOne([Sextet(k0), Sextet(k1), '=', '='], k0, k1);
  }

  lemma DecodeSextetsTwo(k0: nat, k1: nat, k2: nat)
    requires k0 < 64 && k1 < 64 && k2 < 64
    ensures Decode([Sextet(k0), Sextet(k1), Sextet(k2), '=']) == Some([Glue0(k0, k1), Glue1(k1, k2)])
  {
    SextetRoundTrip(k0);
    SextetRoundTrip(k1);
    SextetRoundTrip(k2);
    DecodeLastTwo([Sextet(k0), Sextet(k1), Sextet(k2), '='], k0, k1, k2);
  }

  lemma DecodeSextetsGroup(k0: nat, k1: nat, k2: nat, k3: nat, rest: string)
    requires k0 < 64 && k1 < 64 && k2 < 64 && k3 < 64 && Decode(rest).Some?
    ensures var s := [Sextet(k0), Sextet(k1), Sextet(k2), Sextet(k3)] + rest;
      Decode(s) == Some([Glue0(k0, k1), Glue1(k1, k2), Glue2(k2, k3)] + Decode(rest).value)
  {
    var s := [Sextet(k0), Sextet(k1), Sextet(k2), Sextet(k3)] + rest;
    SextetRoundTrip(k0);
    SextetRoundTrip(k1);
    SextetRoundTrip(k2);
    SextetRoundTrip(k3);
    assert s[4..] == rest;
    DecodeGroup(s, k0, k1, k2, k3);
  }

  lemma RoundTripOne(b0: Byte)
    ensures Decode(Encode([b0])) == Some([b0])
  {
    DecodeSextetsOne(Split0(b0), Split1(b0, 0));
    GlueSplit(b0, 0, 0);
  }

  lemma RoundTripTwo(b0: Byte, b1: Byte)
    ensures Decode(Encode([b0, b1])) == Some([b0, b1])
  {
    DecodeSextetsTwo(Split0(b0), Split1(b0, b1), Split2(b1, 0));
    GlueSplit(b0, b1, 0);
  }

  lemma EncodeUnfoldGroup(b: seq<Byte>)
    requires |b| >= 3
    ensures Encode(b) == [Sextet(Split0(b[0])), Sextet(Split1(b[0], b[1])),
                          Sextet(Split2(b[1], b[2])), Sextet(Split3(b[2]))] + Encode(b[3..])
  {
  }

  lemma GlueGroup(b: seq<Byte>)
    requires |b| >= 3
    ensures var k0, k1, k2, k3 := Split0(b[0]), Split1(b[0], b[1]), Split2(b[1], b[2]), Split3(b[2]);
      [Glue0(k0, k1), Glue1(k1, k2), Glue2(k2, k3)] + b[3..] == b
  {
    GlueSplit(b[0], b[1], b[2]);
    assert b == b[..3] + b[3..];
  }

  lemma RoundTripGroup(b: seq<Byte>)
    requires |b| >= 3 && Decode(Encode(b[3..])) == Some(b[3..])
    ensures Decode(Encode(b)) == Some(b)
  {
    EncodeUnfoldGroup(b);
    DecodeSextetsGroup(Split0(b[0]), Split1(b[0], b[1]), Split2(b[1], b[2]), Split3(b[2]), Encode(b[3..]));
    GlueGroup(b);
  }

  /** Decoding an encoding gives the bytes back. */
  lemma {:induction false} RoundTrip(b: seq<Byte>)
    ensures Decode(Encode(b)) == Some(b)
    decreases |b|
  {
    if |b| == 1 {
      RoundTripOne(b[0]);
      assert b == [b[0]];
    } else if |b| == 2 {
      RoundTripTwo(b[0], b[1]);
      assert b == [b[0], b[1]];
    } else if |b| >= 3 {
      RoundTrip(b[3..]);
      RoundTripGroup(b);
    }
  }

  /** Foundation's `Data(s.utf8).base64EncodedString()`. */
  function StringToBase64(s: string): (r: string)
    ensures Decode(r).Some? && Utf8Decode(Decode(r).value) == Some(s)
  {
    var bytes := Utf8Encode(s);
    RoundTrip(bytes);
    Utf8RoundTrip(s);
    Encode(bytes)
  }
}
