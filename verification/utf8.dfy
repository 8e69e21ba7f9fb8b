/** UTF-8 as defined in sections 3 and 4 of RFC 3629: the byte form of a
    string that Rust's `String::len` counts and that the browser's
    `TextEncoder` produces. The decoder accepts exactly the encodings. */
module Utf8 {
  import opened Basics

  /** A code point that a `char` can hold: a Unicode scalar value. */
  predicate IsScalar(v: int)
  {
    (0 <= v < 0xD800) || (0xE000 <= v < 0x11_0000)
  }

  predicate IsContinuation(b: byte)
  {
    0x80 <= b < 0xC0
  }

  /** Number of bytes UTF-8 spends on one scalar value. */
  function Width(c: char): (n: nat)
    ensures 1 <= n <= 4
    ensures n == 1 <==> (c as int) < 0x80
  {
    var v := c as int;
    if v < 0x80 then 1 else if v < 0x800 then 2 else if v < 0x1_0000 then 3 else 4
  }

  function EncodeChar(c: char): (r: seq<byte>)
    ensures |r| == Width(c)
    ensures Width(c) == 1 ==> r[0] as int == c as int
    ensures forall i :: 1 <= i < |r| ==> IsContinuation(r[i])
  {
    var v := c as int;
    if v < 0x80 then
      [v as byte]
    else if v < 0x800 then
      [(0xC0 + v / 0x40) as byte, (0x80 + v % 0x40) as byte]
    else if v < 0x1_0000 then
      [(0xE0 + v / 0x1000) as byte, (0x80 + (v / 0x40) % 0x40) as byte, (0x80 + v % 0x40) as byte]
    else
      [(0xF0 + v / 0x4_0000) as byte, (0x80 + (v / 0x1000) % 0x40) as byte,
       (0x80 + (v / 0x40) % 0x40) as byte, (0x80 + v % 0x40) as byte]
  }

  /** The UTF-8 encoding of a whole string. An ASCII string encodes to its own
      code points, one byte each. */
  function Encode(s: string): (r: seq<byte>)
    ensures |r| >= |s|
    ensures (forall i :: 0 <= i < |s| ==> (s[i] as int) < 0x80) ==>
              |r| == |s| && forall i :: 0 <= i < |s| ==> r[i] as int == s[i] as int
  {
    if |s| == 0 then [] else EncodeChar(s[0]) + Encode(s[1..])
  }

  /** Decodes the scalar value at the head of `b`, with the number of bytes it
      took; `None` when the head is not a well-formed sequence. Overlong forms,
      surrogates and values past U+10FFFF are refused, as RFC 3629 requires. */
  function DecodeChar(b: seq<byte>): (r: Option<(char, nat)>)
    requires |b| > 0
    ensures r.Some? ==> 1 <= r.value.1 <= |b|
  {
    var b0 := b[0] as int;
    if b0 < 0x80 then
      Some((b0 as char, 1))
    else if 0xC0 <= b0 < 0xE0 && |b| >= 2 && IsContinuation(b[1]) then
      var v := (b0 - 0xC0) * 0x40 + (b[1] as int - 0x80);
      if IsScalar(v) && v >= 0x80 then Some((v as char, 2)) else None
    else if 0xE0 <= b0 < 0xF0 && |b| >= 3 && IsContinuation(b[1]) && IsContinuation(b[2]) then
      var v := (b0 - 0xE0) * 0x1000 + (b[1] as int - 0x80) * 0x40 + (b[2] as int - 0x80);
      if IsScalar(v) && v >= 0x800 then Some((v as char, 3)) else None
    else if 0xF0 <= b0 < 0xF8 && |b| >= 4 && IsContinuation(b[1]) && IsContinuation(b[2])
            && IsContinuation(b[3]) then
      var v := (b0 - 0xF0) * 0x4_0000 + (b[1] as int - 0x80) * 0x1000
               + (b[2] as int - 0x80) * 0x40 + (b[3] as int - 0x80);
      if IsScalar(v) && v >= 0x1_0000 then Some((v as char, 4)) else None
    else
      None
  }

  function Decode(b: seq<byte>): (r: Option<string>)
    decreases |b|
  {
    if |b| == 0 then Some([])
    else
      match DecodeChar(b)
      case None => None
      case Some((c, n)) =>
        match Decode(b[n..])
        case None => None
        case Some(rest) => Some([c] + rest)
  }

  lemma DecodeEncodedChar(c: char, rest: seq<byte>)
    ensures DecodeChar(EncodeChar(c) + rest) == Some((c, Width(c)))
  {
    var v := c as int;
    if v < 0x80 {
    } else if v < 0x800 {
      var b := EncodeChar(c) + rest;
      assert b[0] as int == 0xC0 + v / 0x40 && b[1] as int == 0x80 + v % 0x40;
      assert (v / 0x40) * 0x40 + v % 0x40 == v;
    } else if v < 0x1_0000 {
      DecodeEncodedChar3(c, rest);
    } else {
      DecodeEncodedChar4(c, rest);
    }
  }

  lemma DecodeEncodedChar3(c: char, rest: seq<byte>)
    requires 0x800 <= c as int < 0x1_0000
    ensures DecodeChar(EncodeChar(c) + rest) == Some((c, 3))
  {
    var v := c as int;
    var b := EncodeChar(c) + rest;
    assert b[0] as int == 0xE0 + v / 0x1000;
    assert b[1] as int == 0x80 + (v / 0x40) % 0x40;
    assert b[2] as int == 0x80 + v % 0x40;
    assert (v / 0x1000) * 0x1000 + ((v / 0x40) % 0x40) * 0x40 + v % 0x40 == v by {
      DivModSplit(v, 0x40, 0x40);
    }
  }

  lemma DecodeEncodedChar4(c: char, rest: seq<byte>)
    requires 0x1_0000 <= c as int
    ensures DecodeChar(EncodeChar(c) + rest) == Some((c, 4))
  {
    var v := c as int;
    var b := EncodeChar(c) + rest;
    assert b[0] as int == 0xF0 + v / 0x4_0000;
    assert b[1] as int == 0x80 + (v / 0x1000) % 0x40;
    assert b[2] as int == 0x80 + (v / 0x40) % 0x40;
    assert b[3] as int == 0x80 + v % 0x40;
    assert (v / 0x4_0000) * 0x4_0000 + ((v / 0x1000) % 0x40) * 0x1000
           + ((v / 0x40) % 0x40) * 0x40 + v % 0x40 == v by {
      DivModSplit(v, 0x40, 0x40);
      DivModSplit(v, 0x1000, 0x40);
    }
  }

  /** v = (v / (a*b)) * (a*b) + ((v / a) % b) * a + v % a, for the two
      splittings the encoder uses. */
  lemma DivModSplit(v: nat, a: nat, b: nat)
    requires (a == 0x40 || a == 0x1000) && b == 0x40
    ensures (v / (a * b)) * (a * b) + ((v / a) % b) * a + v % a == v
  {
    var q := v / a;
    assert v == q * a + v % a;
    assert q == (q / b) * b + q % b;
    assert q / b == v / (a * b);
  }

  /** Decoding undoes encoding: the bytes `TextEncoder` produces determine the
      string they came from. */
  lemma {:induction false} DecodeEncode(s: string)
    ensures Decode(Encode(s)) == Some(s)
  {
    if |s| > 0 {
      var rest := Encode(s[1..]);
      var b := EncodeChar(s[0]) + rest;
      assert Encode(s) == b;
      DecodeEncodedChar(s[0], rest);
      assert b[Width(s[0])..] == rest;
      DecodeEncode(s[1..]);
      assert [s[0]] + s[1..] == s;
    }
  }

  /** x = q * m + r with 0 <= r < m splits x as division by m does, for the
      three place values of the encoding. */
  lemma DivModUnique(x: int, q: int, r: int, m: int)
    requires m == 0x40 || m == 0x1000 || m == 0x4_0000
    requires 0 <= r < m && x == q * m + r
    ensures x / m == q && x % m == r
  {
    if m == 0x40 {
      assert x == q * 0x40 + r;
    } else if m == 0x1000 {
      assert x == q * 0x1000 + r;
    } else {
      assert x == q * 0x4_0000 + r;
    }
  }

  /** Decoding is canonical: the bytes a decoded character took are exactly
      that character's encoding. */
  lemma DecodedCharIsEncoding(b: seq<byte>)
    requires |b| > 0 && DecodeChar(b).Some?
    ensures var (c, n) := DecodeChar(b).value; n == Width(c) && b[..n] == EncodeChar(c)
  {
    var (c, n) := DecodeChar(b).value;
    var v := c as int;
    var b0 := b[0] as int;
    if b0 < 0x80 {
    } else if n == 2 {
      var d1 := b[1] as int - 0x80;
      DivModUnique(v, b0 - 0xC0, d1, 0x40);
      assert b[..2] == [b[0], b[1]];
    } else if n == 3 {
      var d1 := b[1] as int - 0x80;
      var d2 := b[2] as int - 0x80;
      DivModUnique(v, (b0 - 0xE0) * 0x40 + d1, d2, 0x40);
      DivModUnique(v / 0x40, b0 - 0xE0, d1, 0x40);
      DivModUnique(v, b0 - 0xE0, d1 * 0x40 + d2, 0x1000);
      assert b[..3] == [b[0], b[1], b[2]];
    } else {
      var d1 := b[1] as int - 0x80;
      var d2 := b[2] as int - 0x80;
      var d3 := b[3] as int - 0x80;
      DivModUnique(v, ((b0 - 0xF0) * 0x40 + d1) * 0x40 + d2, d3, 0x40);
      DivModUnique(v / 0x40, (b0 - 0xF0) * 0x40 + d1, d2, 0x40);
      DivModUnique(v, (b0 - 0xF0) * 0x40 + d1, d2 * 0x40 + d3, 0x1000);
      DivModUnique(v / 0x1000, b0 - 0xF0, d1, 0x40);
      DivModUnique(v, b0 - 0xF0, (d1 * 0x40 + d2) * 0x40 + d3, 0x4_0000);
      assert b[..4] == [b[0], b[1], b[2], b[3]];
    }
  }

  /** Encoding undoes decoding: whatever the decoder accepts is the encoding of
      the string it returns, so it accepts nothing but well-formed UTF-8. */
  lemma {:induction false} EncodeDecode(b: seq<byte>)
    requires Decode(b).Some?
    ensures Encode(Decode(b).value) == b
    decreases |b|
  {
    if |b| > 0 {
      var (c, n) := DecodeChar(b).value;
      DecodedCharIsEncoding(b);
      EncodeDecode(b[n..]);
      var s := Decode(b).value;
      assert s == [c] + Decode(b[n..]).value;
      assert s[0] == c && s[1..] == Decode(b[n..]).value;
      assert b == b[..n] + b[n..];
    }
  }

  /** Two strings with the same UTF-8 encoding are the same string. */
  lemma EncodeInjective(s: string, t: string)
    requires Encode(s) == Encode(t)
    ensures s == t
  {
    DecodeEncode(s);
    DecodeEncode(t);
  }
}
