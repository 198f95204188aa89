/** The UTF-8 encoding of strings, which Kotlin's `toByteArray(Charsets.UTF_8)`
    performs wherever the library turns text into bytes (text bodies and the
    multipart framing). Dafny characters are Unicode scalar values, so the
    model covers well-formed text only: an unpaired surrogate, which a Kotlin
    string may hold and which the JDK encodes as `?`, has no counterpart. */
module Utf8 {
  import opened Base

  /** The one to four bytes of one scalar value (RFC 3629, section 3). */
  function EncodeChar(c: char): (r: Bytes)
    ensures 1 <= |r| <= 4
    ensures |r| == SequenceLength(r[0])
    ensures r[0] < 0x80 <==> (c as int) < 0x80
    ensures (c as int) < 0x80 ==> r == [c as int]
    ensures forall i :: 1 <= i < |r| ==> IsContinuation(r[i])
  {
    var n := c as int;
    // n in base 64: n == ((q3 * 64 + r3) * 64 + r2) * 64 + r1
    var q1, r1 := n / 64, n % 64;
    var q2, r2 := q1 / 64, q1 % 64;
    var q3, r3 := q2 / 64, q2 % 64;
    if n < 0x80 then [n]
    else if n < 0x800 then [0xC0 + q1, 0x80 + r1]
    else if n < 0x10000 then [0xE0 + q2, 0x80 + r2, 0x80 + r1]
    else [0xF0 + q3, 0x80 + r3, 0x80 + r2, 0x80 + r1]
  }

  predicate IsContinuation(b: byte) {
    0x80 <= b < 0xC0
  }

  /** How many bytes a sequence starting with `lead` has; 0 if `lead` cannot start one. */
  function SequenceLength(lead: byte): nat {
    if lead < 0x80 then 1
    else if lead < 0xC0 then 0
    else if lead < 0xE0 then 2
    else if lead < 0xF0 then 3
    else if lead < 0xF8 then 4
    else 0
  }

  /** `s.toByteArray(Charsets.UTF_8)`. */
  function Encode(s: string): Bytes {
    if s == [] then [] else EncodeChar(s[0]) + Encode(s[1..])
  }

  lemma {:induction false} EncodeConcat(a: string, b: string)
    ensures Encode(a + b) == Encode(a) + Encode(b)
  {
    if a == [] {
      assert a + b == b;
    } else {
      var t := a[1..] + b;
      assert (a + b)[0] == a[0] && (a + b)[1..] == t;
      EncodeConcat(a[1..], b);
      assert Encode(a + b) == EncodeChar(a[0]) + Encode(t);
      assert Encode(a) == EncodeChar(a[0]) + Encode(a[1..]);
    }
  }

  predicate IsAscii(s: string) {
    forall i :: 0 <= i < |s| ==> (s[i] as int) < 0x80
  }

  /** An ASCII string encodes to its own character codes, one byte each. */
  lemma {:induction false} EncodeAscii(s: string)
    requires IsAscii(s)
    ensures |Encode(s)| == |s|
    ensures forall i :: 0 <= i < |s| ==> Encode(s)[i] == s[i] as int
  {
    if s != [] {
      assert IsAscii(s[1..]) by {
        forall i | 0 <= i < |s[1..]| ensures (s[1..][i] as int) < 0x80 {
          assert s[1..][i] == s[i + 1];
        }
      }
      EncodeAscii(s[1..]);
    }
  }

  /** The smallest scalar value that needs `len` bytes; anything below it
      in that many bytes is an overlong form. */
  function Minimum(len: nat): int {
    if len <= 1 then 0 else if len == 2 then 0x80 else if len == 3 then 0x800 else 0x10000
  }

  /** The value the payload bits of `u` spell out. */
  function UnitValue(u: Bytes): int
    requires 1 <= |u| <= 4
  {
    var b := seq(|u|, i requires 0 <= i < |u| => u[i] as int);
    if |u| == 1 then b[0]
    else if |u| == 2 then (b[0] - 0xC0) * 64 + (b[1] - 0x80)
    else if |u| == 3 then (b[0] - 0xE0) * 4096 + (b[1] - 0x80) * 64 + (b[2] - 0x80)
    else (b[0] - 0xF0) * 0x40000 + (b[1] - 0x80) * 4096 + (b[2] - 0x80) * 64 + (b[3] - 0x80)
  }

  /** The scalar value of one well-formed sequence (RFC 3629, section 3),
      or None: the lead byte must announce the length, every later byte must
      be a continuation byte, the value must not be overlong, and it must be
      a scalar value (no surrogate, nothing above U+10FFFF). */
  function DecodeUnit(u: Bytes): Option<char>
    requires 1 <= |u| <= 4
  {
    var n := UnitValue(u);
    if SequenceLength(u[0]) == |u| && (forall i :: 1 <= i < |u| ==> IsContinuation(u[i])) &&
       Minimum(|u|) <= n && (0 <= n < 0xD800 || 0xE000 <= n < 0x11_0000)
    then Some(n as char) else None
  }

  /** Strict UTF-8 decoding: None on any byte sequence that is not an encoding. */
  function Decode(b: Bytes): Option<string>
    decreases |b|
  {
    if b == [] then Some([])
    else
      var k := SequenceLength(b[0]);
      if k == 0 || |b| < k then None
      else match DecodeUnit(b[..k])
        case None => None
        case Some(c) =>
          match Decode(b[k..])
          case None => None
          case Some(rest) => Some([c] + rest)
  }

  lemma EncodeCharDecodes(c: char)
    ensures DecodeUnit(EncodeChar(c)) == Some(c)
  {
    var n := c as int;
    var q1, r1 := n / 64, n % 64;
    var q2, r2 := q1 / 64, q1 % 64;
    var q3, r3 := q2 / 64, q2 % 64;
    assert n == q1 * 64 + r1 && q1 == q2 * 64 + r2 && q2 == q3 * 64 + r3;
    if n >= 0x800 && n < 0x10000 {
      assert q2 * 4096 + r2 * 64 + r1 == n;
    } else if n >= 0x10000 {
      assert q3 * 0x40000 + r3 * 4096 + r2 * 64 + r1 == n;
    }
  }

  /** Decoding undoes encoding: no two strings share an encoding. */
  lemma {:induction false} DecodeEncode(s: string)
    ensures Decode(Encode(s)) == Some(s)
  {
    if s != [] {
      var e := EncodeChar(s[0]);
      var b := Encode(s);
      assert b == e + Encode(s[1..]);
      assert b[..|e|] == e;
      assert b[|e|..] == Encode(s[1..]);
      EncodeCharDecodes(s[0]);
      DecodeEncode(s[1..]);
      assert [s[0]] + s[1..] == s;
    }
  }

  lemma DivMod64(a: int, r: int)
    requires a >= 0 && 0 <= r < 64
    ensures (a * 64 + r) / 64 == a && (a * 64 + r) % 64 == r
  {
  }

  lemma TwoBytesEncode(u: Bytes)
    requires |u| == 2 && DecodeUnit(u).Some?
    ensures EncodeChar(DecodeUnit(u).value) == u
  {
    assert IsContinuation(u[1]);
    DivMod64(u[0] as int - 0xC0, u[1] as int - 0x80);
  }

  lemma ThreeBytesEncode(u: Bytes)
    requires |u| == 3 && DecodeUnit(u).Some?
    ensures EncodeChar(DecodeUnit(u).value) == u
  {
    assert IsContinuation(u[1]) && IsContinuation(u[2]);
    var q1 := (u[0] as int - 0xE0) * 64 + (u[1] as int - 0x80);
    assert UnitValue(u) == q1 * 64 + (u[2] as int - 0x80);
    DivMod64(q1, u[2] as int - 0x80);
    DivMod64(u[0] as int - 0xE0, u[1] as int - 0x80);
  }

  lemma FourBytesEncode(u: Bytes)
    requires |u| == 4 && DecodeUnit(u).Some?
    ensures EncodeChar(DecodeUnit(u).value) == u
  {
    assert IsContinuation(u[1]) && IsContinuation(u[2]) && IsContinuation(u[3]);
    var q2 := (u[0] as int - 0xF0) * 64 + (u[1] as int - 0x80);
    var q1 := q2 * 64 + (u[2] as int - 0x80);
    assert UnitValue(u) == q1 * 64 + (u[3] as int - 0x80);
    DivMod64(q1, u[3] as int - 0x80);
    DivMod64(q2, u[2] as int - 0x80);
    DivMod64(u[0] as int - 0xF0, u[1] as int - 0x80);
  }

  /** A sequence that decodes is the encoding of what it decodes to. */
  lemma DecodeUnitEncodes(u: Bytes)
    requires 1 <= |u| <= 4 && DecodeUnit(u).Some?
    ensures EncodeChar(DecodeUnit(u).value) == u
  {
    if |u| == 2 {
      TwoBytesEncode(u);
    } else if |u| == 3 {
      ThreeBytesEncode(u);
    } else if |u| == 4 {
      FourBytesEncode(u);
    }
  }

  /** The decoder accepts exactly the encodings: whatever it decodes
      encodes back to the same bytes, so malformed, overlong and surrogate
      sequences are all refused. */
  lemma {:induction false} EncodeDecode(b: Bytes)
    requires Decode(b).Some?
    ensures Encode(Decode(b).value) == b
    decreases |b|
  {
    if b != [] {
      var k := SequenceLength(b[0]);
      var c := DecodeUnit(b[..k]).value;
      var rest := Decode(b[k..]).value;
      DecodeUnitEncodes(b[..k]);
      EncodeDecode(b[k..]);
      var s := [c] + rest;
      assert s[0] == c && s[1..] == rest;
      assert b == b[..k] + b[k..];
    }
  }

  /** An overlong NUL, a stray non-continuation byte, an encoded surrogate
      and a value above U+10FFFF are all refused. */
  lemma MalformedRefused()
    ensures Decode([0xC0, 0x80]).None?
    ensures Decode([0xC2, 0x00]).None?
    ensures Decode([0xED, 0xA0, 0x80]).None?
    ensures Decode([0xF4, 0x90, 0x80, 0x80]).None?
  {
    assert [0xC0, 0x80][..2] == [0xC0, 0x80];
    assert [0xC2, 0x00][..2] == [0xC2, 0x00];
    assert [0xED, 0xA0, 0x80][..3] == [0xED, 0xA0, 0x80];
    assert [0xF4, 0x90, 0x80, 0x80][..4] == [0xF4, 0x90, 0x80, 0x80];
  }

  lemma EncodeInjective(s: string, t: string)
    requires Encode(s) == Encode(t)
    ensures s == t
  {
    DecodeEncode(s);
    DecodeEncode(t);
  }
}
