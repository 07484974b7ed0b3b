/**
 * `encodeURIComponent` and `decodeURIComponent` of ECMA-262 (section 19.2.6), over Unicode
 * scalar values. Every character outside ALPHA / DIGIT / `- _ . ! ~ * ' ( )` is written as
 * the `%XX` escapes of its UTF-8 bytes, with upper-case hexadecimal digits; this is the
 * percent-encoding of section 2.1 of RFC 3986 except that `! ' ( ) *` stay unescaped.
 */
module UriComponent {
  import opened Wrappers
  import opened JsText

  /** An octet of the UTF-8 encoding. */
  type Byte = b: nat | b < 256

  /** An upper-case hexadecimal digit. */
  function HexChar(d: nat): (c: char)
    requires d < 16
    ensures IsUnescaped(c)
  {
    if d < 10 then ('0' as int + d) as char else ('A' as int + d - 10) as char
  }

  /** The characters `encodeURIComponent` copies unchanged. */
  predicate IsUnescaped(c: char) {
    ('a' <= c <= 'z') || ('A' <= c <= 'Z') || IsDigit(c)
    || c == '-' || c == '_' || c == '.' || c == '!' || c == '~' || c == '*' || c == '\''
    || c == '(' || c == ')'
  }

  /** The UTF-8 encoding of one scalar value. */
  function Utf8(c: char): (bytes: seq<Byte>)
    ensures 1 <= |bytes| <= 4
  {
    var cp := c as int;
    if cp < 0x80 then [cp]
    else if cp < 0x800 then [0xC0 + cp / 64, 0x80 + cp % 64]
    else if cp < 0x1_0000 then [0xE0 + cp / 4096, 0x80 + (cp / 64) % 64, 0x80 + cp % 64]
    else [0xF0 + cp / 262144, 0x80 + (cp / 4096) % 64, 0x80 + (cp / 64) % 64, 0x80 + cp % 64]
  }

  function PercentBytes(bytes: seq<Byte>): (r: string)
    ensures |r| == 3 * |bytes|
  {
    if bytes == [] then []
    else Escape(bytes[0]) + PercentBytes(bytes[1..])
  }

  function EncodeChar(c: char): string {
    if IsUnescaped(c) then [c] else PercentBytes(Utf8(c))
  }

  /** `encodeURIComponent(s)`. The result holds only unescaped characters and `%`. */
  function Encode(s: string): (r: string)
    ensures forall i :: 0 <= i < |r| ==> IsUnescaped(r[i]) || r[i] == '%'
  {
    if s == [] then []
    else
      var head := EncodeChar(s[0]);
      assert forall i :: 0 <= i < |head| ==> IsUnescaped(head[i]) || head[i] == '%' by {
        if !IsUnescaped(s[0]) { PercentBytesAlphabet(Utf8(s[0])); }
      }
      head + Encode(s[1..])
  }

  lemma {:induction false} PercentBytesAlphabet(bytes: seq<Byte>)
    ensures forall i :: 0 <= i < |PercentBytes(bytes)| ==>
      IsUnescaped(PercentBytes(bytes)[i]) || PercentBytes(bytes)[i] == '%'
  {
    if bytes != [] {
      PercentBytesAlphabet(bytes[1..]);
    }
  }

  // ---------------------------------------------------------------------------
  // Decoding

  /** The byte written as `%XX` at index `i` of `t`, if there is one. */
  function ByteAt(t: string, i: nat): (r: Option<nat>)
    ensures r.Some? ==> r.value < 256 && i + 3 <= |t|
  {
    if i + 3 <= |t| && t[i] == '%' && IsHexDigit(t[i + 1]) && IsHexDigit(t[i + 2])
    then Some(HexValue(t[i + 1]) * 16 + HexValue(t[i + 2]))
    else None
  }

  /** The payload (0..63) of a UTF-8 continuation byte written as `%XX` at index `i`. */
  function ContinuationAt(t: string, i: nat): (r: Option<nat>)
    ensures r.Some? ==> r.value < 64 && i + 3 <= |t|
  {
    var b := ByteAt(t, i);
    if b.Some? && 0x80 <= b.value < 0xC0 then Some(b.value - 0x80) else None
  }

  predicate IsScalar(cp: int) {
    (0 <= cp < 0xD800) || (0xE000 <= cp < 0x11_0000)
  }

  /**
   * One decoded character at the start of `t` and the number of characters it used.
   * A malformed escape or an invalid UTF-8 sequence gives None (a URIError).
   */
  function DecodeStep(t: string): (r: Option<(char, nat)>)
    requires t != []
    ensures r.Some? ==> 1 <= r.value.1 <= |t|
  {
    if t[0] != '%' then Some((t[0], 1))
    else
      match ByteAt(t, 0)
      case None => None
      case Some(b0) =>
        if b0 < 0x80 then Some((b0 as char, 3))
        else if 0xC0 <= b0 < 0xE0 then
          match ContinuationAt(t, 3)
          case None => None
          case Some(c1) =>
            var cp := (b0 - 0xC0) * 64 + c1;
            if 0x80 <= cp then Some((cp as char, 6)) else None
        else if 0xE0 <= b0 < 0xF0 then
          match (ContinuationAt(t, 3), ContinuationAt(t, 6))
          case (Some(c1), Some(c2)) =>
            var cp := (b0 - 0xE0) * 4096 + c1 * 64 + c2;
            if 0x800 <= cp && IsScalar(cp) then Some((cp as char, 9)) else None
          case _ => None
        else if 0xF0 <= b0 < 0xF8 then
          match (ContinuationAt(t, 3), ContinuationAt(t, 6), ContinuationAt(t, 9))
          case (Some(c1), Some(c2), Some(c3)) =>
            var cp := (b0 - 0xF0) * 262144 + c1 * 4096 + c2 * 64 + c3;
            if 0x1_0000 <= cp < 0x11_0000 then Some((cp as char, 12)) else None
          case _ => None
        else None
  }

  /** `decodeURIComponent(t)`: None when it would throw a URIError. */
  function Decode(t: string): Option<string>
    decreases |t|
  {
    if t == [] then Some([])
    else
      match DecodeStep(t)
      case None => None
      case Some((c, n)) =>
        match Decode(t[n..])
        case None => None
        case Some(rest) => Some([c] + rest)
  }

  // ---------------------------------------------------------------------------
  // Round trip

  lemma {:induction false} HexDigitRoundTrip(d: nat)
    requires d < 16
    ensures IsHexDigit(HexChar(d)) && HexValue(HexChar(d)) == d
  {
  }

  function Escape(b: Byte): (r: string)
    ensures |r| == 3
  {
    ['%', HexChar(b / 16), HexChar(b % 16)]
  }

  lemma {:induction false} PercentBytesSplit(bytes: seq<Byte>, k: nat)
    requires k < |bytes|
    ensures PercentBytes(bytes) == PercentBytes(bytes[..k]) + Escape(bytes[k]) + PercentBytes(bytes[k + 1..])
  {
    if k > 0 {
      var tail := bytes[1..];
      PercentBytesSplit(tail, k - 1);
      assert tail[..k - 1] == bytes[1..k] == bytes[..k][1..];
      assert tail[k - 1 + 1..] == bytes[k + 1..];
      assert tail[k - 1] == bytes[k];
      var e, m, x, r := Escape(bytes[0]), PercentBytes(bytes[1..k]), Escape(bytes[k]), PercentBytes(bytes[k + 1..]);
      assert PercentBytes(bytes) == e + (m + x + r);
      assert PercentBytes(bytes[..k]) == e + m;
      assert e + (m + x + r) == (e + m) + x + r;
    }
  }

  /** The escape of one byte reads back as that byte, wherever it stands. */
  lemma {:induction false} EscapeRoundTrip(before: string, b: Byte, after: string)
    ensures ByteAt(before + Escape(b) + after, |before|) == Some(b)
  {
    var t := before + Escape(b) + after;
    var i := |before|;
    assert t[i] == '%' && t[i + 1] == HexChar(b / 16) && t[i + 2] == HexChar(b % 16);
    HexDigitRoundTrip(b / 16);
    HexDigitRoundTrip(b % 16);
  }

  lemma {:induction false} ByteRoundTrip(bytes: seq<Byte>, rest: string, k: nat)
    requires k < |bytes|
    ensures ByteAt(PercentBytes(bytes) + rest, 3 * k) == Some(bytes[k])
  {
    PercentBytesSplit(bytes, k);
    var before := PercentBytes(bytes[..k]);
    var after := PercentBytes(bytes[k + 1..]) + rest;
    assert PercentBytes(bytes) + rest == before + Escape(bytes[k]) + after;
    EscapeRoundTrip(before, bytes[k], after);
  }

  lemma {:induction false} TwoByteArithmetic(cp: int)
    requires 0x80 <= cp < 0x800
    ensures 2 <= cp / 64 < 32
    ensures (cp / 64) * 64 + cp % 64 == cp
  {
  }

  lemma {:induction false} ThreeByteArithmetic(cp: int)
    requires 0x800 <= cp < 0x1_0000
    ensures cp / 4096 < 16
    ensures (cp / 4096) * 4096 + ((cp / 64) % 64) * 64 + cp % 64 == cp
  {
    assert cp / 64 == (cp / 4096) * 64 + (cp / 64) % 64;
  }

  lemma {:induction false} FourByteArithmetic(cp: int)
    requires 0x1_0000 <= cp < 0x11_0000
    ensures cp / 262144 < 8
    ensures (cp / 262144) * 262144 + ((cp / 4096) % 64) * 4096 + ((cp / 64) % 64) * 64 + cp % 64
            == cp
  {
    assert cp / 64 == (cp / 4096) * 64 + (cp / 64) % 64;
    assert cp / 4096 == (cp / 262144) * 64 + (cp / 4096) % 64;
  }

  lemma {:induction false} DecodeOneByte(c: char, rest: string)
    requires !IsUnescaped(c) && (c as int) < 0x80
    ensures DecodeStep(EncodeChar(c) + rest) == Some((c, 3))
  {
    ByteRoundTrip(Utf8(c), rest, 0);
  }

  lemma {:induction false} DecodeTwoBytes(c: char, rest: string)
    requires 0x80 <= (c as int) < 0x800
    ensures DecodeStep(EncodeChar(c) + rest) == Some((c, 6))
  {
    var bytes := Utf8(c);
    ByteRoundTrip(bytes, rest, 0);
    ByteRoundTrip(bytes, rest, 1);
    TwoByteArithmetic(c as int);
  }

  lemma {:induction false} DecodeThreeBytes(c: char, rest: string)
    requires 0x800 <= (c as int) < 0x1_0000
    ensures DecodeStep(EncodeChar(c) + rest) == Some((c, 9))
  {
    var cp := c as int;
    var t := EncodeChar(c) + rest;
    ThreeBytesRead(c, rest);
    ThreeByteArithmetic(cp);
    assert (cp / 4096) * 4096 + ((cp / 64) % 64) * 64 + cp % 64 == cp;
  }

  /** The three escapes of a three-byte character read back as its lead byte and payloads. */
  lemma {:induction false} ThreeBytesRead(c: char, rest: string)
    requires 0x800 <= (c as int) < 0x1_0000
    ensures var t := EncodeChar(c) + rest;
      var cp := c as int;
      t != [] && t[0] == '%' && ByteAt(t, 0) == Some(0xE0 + cp / 4096) &&
      ContinuationAt(t, 3) == Some((cp / 64) % 64) && ContinuationAt(t, 6) == Some(cp % 64)
  {
    var bytes := Utf8(c);
    assert EncodeChar(c) == PercentBytes(bytes);
    ByteRoundTrip(bytes, rest, 0);
    ByteRoundTrip(bytes, rest, 1);
    ByteRoundTrip(bytes, rest, 2);
  }

  lemma {:induction false} DecodeFourBytes(c: char, rest: string)
    requires 0x1_0000 <= (c as int)
    ensures DecodeStep(EncodeChar(c) + rest) == Some((c, 12))
  {
    var cp := c as int;
    var t := EncodeChar(c) + rest;
    FourBytesRead(c, rest);
    FourByteArithmetic(cp);
  }

  /** The four escapes of a four-byte character read back as its lead byte and payloads. */
  lemma {:induction false} FourBytesRead(c: char, rest: string)
    requires 0x1_0000 <= (c as int)
    ensures var t := EncodeChar(c) + rest;
      var cp := c as int;
      t != [] && t[0] == '%' && ByteAt(t, 0) == Some(0xF0 + cp / 262144) &&
      ContinuationAt(t, 3) == Some((cp / 4096) % 64) && ContinuationAt(t, 6) == Some((cp / 64) % 64) &&
      ContinuationAt(t, 9) == Some(cp % 64)
  {
    var bytes := Utf8(c);
    assert EncodeChar(c) == PercentBytes(bytes);
    ByteRoundTrip(bytes, rest, 0);
    ByteRoundTrip(bytes, rest, 1);
    ByteRoundTrip(bytes, rest, 2);
    ByteRoundTrip(bytes, rest, 3);
  }

  /** Decoding the escapes of one character gives that character back. */
  lemma {:induction false} DecodeStepEncodeChar(c: char, rest: string)
    ensures DecodeStep(EncodeChar(c) + rest) == Some((c, |EncodeChar(c)|))
  {
    var cp := c as int;
    if IsUnescaped(c) {
    } else if cp < 0x80 {
      DecodeOneByte(c, rest);
    } else if cp < 0x800 {
      DecodeTwoBytes(c, rest);
    } else if cp < 0x1_0000 {
      DecodeThreeBytes(c, rest);
    } else {
      DecodeFourBytes(c, rest);
    }
  }

  /** `decodeURIComponent(encodeURIComponent(s)) === s` for every string. */
  lemma {:induction false} DecodeEncode(s: string)
    ensures Decode(Encode(s)) == Some(s)
  {
    if s != [] {
      var head := EncodeChar(s[0]);
      var t := Encode(s);
      assert t == head + Encode(s[1..]);
      DecodeStepEncodeChar(s[0], Encode(s[1..]));
      assert t[|head|..] == Encode(s[1..]);
      assert DecodeStep(t) == Some((s[0], |head|));
      DecodeEncode(s[1..]);
      assert Decode(t) == Some([s[0]] + s[1..]);
      assert [s[0]] + s[1..] == s;
    }
  }

  /** The encoding never contains a space: every space becomes `%20`. */
  lemma {:induction false} EncodeHasNoSpace(s: string)
    ensures ' ' !in Encode(s)
  {
    var r := Encode(s);
    assert forall i :: 0 <= i < |r| ==> r[i] != ' ';
  }
}
