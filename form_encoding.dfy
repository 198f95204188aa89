/** `java.net.URLEncoder.encode(s, UTF_8)`, the application/x-www-form-urlencoded
    encoding used for query parameter names and values. Letters, digits and
    `. - * _` stay as they are, a space becomes `+`, and every other character is
    written as `%XY` (upper-case hexadecimal) for each byte of its UTF-8 form.
    Every kept character is ASCII and every non-ASCII character has only bytes
    of 0x80 and above, so the rule can be stated byte by byte. */
module FormEncoding {
  import opened Base
  import Utf8

  predicate IsUnreserved(c: char) {
    ('a' <= c <= 'z') || ('A' <= c <= 'Z') || ('0' <= c <= '9') ||
    c == '.' || c == '-' || c == '*' || c == '_'
  }

  /** What an encoded component is made of. */
  predicate IsEncodedChar(c: char) {
    IsUnreserved(c) || c == '+' || c == '%'
  }

  const HexDigits: string := "0123456789ABCDEF"

  function EncodeByte(b: byte): (r: string)
    ensures 1 <= |r| && forall i :: 0 <= i < |r| ==> IsEncodedChar(r[i])
  {
    if b < 0x80 && IsUnreserved(b as char) then [b as char]
    else if b == 0x20 then "+"
    else ['%', HexDigits[b / 16], HexDigits[b % 16]]
  }

  function EncodeBytes(bs: Bytes): (r: string)
    ensures forall i :: 0 <= i < |r| ==> IsEncodedChar(r[i])
  {
    if bs == [] then "" else EncodeByte(bs[0]) + EncodeBytes(bs[1..])
  }

  /** `URLEncoder.encode(s, Charsets.UTF_8)`. Its result never contains the
      characters that structure a URL query (`&`, `=`, `?`, `#`). */
  function Encode(s: string): (r: string)
    ensures forall i :: 0 <= i < |r| ==> IsEncodedChar(r[i])
    ensures !Contains(r, '&') && !Contains(r, '=') && !Contains(r, '?') && !Contains(r, '#')
  {
    EncodeBytes(Utf8.Encode(s))
  }

  function HexValue(c: char): (v: Option<nat>)
    ensures v.Some? ==> v.value < 16
  {
    if '0' <= c <= '9' then Some(c as int - '0' as int)
    else if 'A' <= c <= 'F' then Some(c as int - 'A' as int + 10)
    else if 'a' <= c <= 'f' then Some(c as int - 'a' as int + 10)
    else None
  }

  /** Reference decoder for an encoded component: the bytes it stands for. */
  function DecodeBytes(t: string): Option<Bytes>
    decreases |t|
  {
    if t == [] then Some([])
    else if t[0] == '+' then
      match DecodeBytes(t[1..]) case None => None case Some(rest) => Some([0x20] + rest)
    else if t[0] == '%' then
      if |t| < 3 || HexValue(t[1]).None? || HexValue(t[2]).None? then None
      else
        match DecodeBytes(t[3..])
        case None => None
        case Some(rest) => Some([HexValue(t[1]).value * 16 + HexValue(t[2]).value] + rest)
    else if IsUnreserved(t[0]) then
      match DecodeBytes(t[1..]) case None => None case Some(rest) => Some([t[0] as int] + rest)
    else None
  }

  /** Every upper-case hexadecimal digit reads back as its own value. */
  lemma HexDigitValue(d: nat)
    requires d < 16
    ensures HexValue(HexDigits[d]) == Some(d)
  {
    if d < 10 {
      assert HexDigits[d] as int == '0' as int + d;
    } else {
      assert HexDigits[d] as int == 'A' as int + d - 10;
    }
  }

  lemma DecodeEncodedByte(b: byte, rest: string, bs: Bytes)
    requires DecodeBytes(rest) == Some(bs)
    ensures DecodeBytes(EncodeByte(b) + rest) == Some([b] + bs)
  {
    var t := EncodeByte(b) + rest;
    if b < 0x80 && IsUnreserved(b as char) {
      assert t[0] == b as char && t[1..] == rest;
    } else if b == 0x20 {
      assert t[0] == '+' && t[1..] == rest;
    } else {
      var hi, lo := b / 16, b % 16;
      HexDigitValue(hi);
      HexDigitValue(lo);
      assert t[..3] == ['%', HexDigits[hi], HexDigits[lo]] && t[3..] == rest;
      assert hi * 16 + lo == b;
    }
  }

  lemma {:induction false} DecodeEncodeBytes(bs: Bytes)
    ensures DecodeBytes(EncodeBytes(bs)) == Some(bs)
  {
    if bs != [] {
      DecodeEncodeBytes(bs[1..]);
      DecodeEncodedByte(bs[0], EncodeBytes(bs[1..]), bs[1..]);
      assert [bs[0]] + bs[1..] == bs;
    }
  }

  /** Decoding an encoded component gives back the UTF-8 bytes of the original
      text, which determine the text (Utf8.DecodeEncode): nothing is lost. */
  lemma DecodeEncode(s: string)
    ensures DecodeBytes(Encode(s)) == Some(Utf8.Encode(s))
  {
    DecodeEncodeBytes(Utf8.Encode(s));
  }

  /** URLEncoder.encode is injective. */
  lemma EncodeInjective(s: string, t: string)
    requires Encode(s) == Encode(t)
    ensures s == t
  {
    DecodeEncode(s);
    DecodeEncode(t);
    Utf8.EncodeInjective(s, t);
  }

  lemma EncodeSpace()
    ensures Encode("b c") == "b+c"
  {
    assert Utf8.Encode("b c") == [0x62, 0x20, 0x63];
  }
}
