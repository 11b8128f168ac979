/**
 * java.net.URLEncoder.encode and URLDecoder.decode with the "UTF-8" charset:
 * the application/x-www-form-urlencoded encoding of section 17.13.4.1 of the
 * HTML 4.01 specification. Letters, digits and `. - * _` are kept, a space
 * becomes `+`, and every other character becomes the `%XY` escapes of its
 * UTF-8 bytes, with upper-case hexadecimal digits.
 */
module FormCodec {
  import opened Wrappers

  predicate IsUnreserved(c: char)
  {
    ('a' <= c <= 'z') || ('A' <= c <= 'Z') || ('0' <= c <= '9') || c == '.' || c == '-' || c == '*' || c == '_'
  }

  function HexDigit(n: int): char
    requires 0 <= n < 16
  {
    "0123456789ABCDEF"[n]
  }

  /** Character.digit(c, 16) over ASCII: the value of a hexadecimal digit of either case. */
  function HexValue(c: char): Option<int>
  {
    if '0' <= c <= '9' then Some(c as int - '0' as int)
    else if 'a' <= c <= 'f' then Some(c as int - 'a' as int + 10)
    else if 'A' <= c <= 'F' then Some(c as int - 'A' as int + 10)
    else None
  }

  lemma HexRoundTrip(n: int)
    requires 0 <= n < 16
    ensures HexValue(HexDigit(n)) == Some(n)
  {
  }

  predicate IsByte(b: int) { 0 <= b < 256 }

  /** The UTF-8 bytes of a Unicode scalar value. */
  function Utf8(c: char): (bytes: seq<int>)
    ensures 1 <= |bytes| <= 4
    ensures forall k :: 0 <= k < |bytes| ==> IsByte(bytes[k])
  {
    var n := c as int;
    if n < 0x80 then [n]
    else if n < 0x800 then [0xC0 + n / 64, 0x80 + n % 64]
    else if n < 0x1_0000 then [0xE0 + n / 4096, 0x80 + (n / 64) % 64, 0x80 + n % 64]
    else [0xF0 + n / 262144, 0x80 + (n / 4096) % 64, 0x80 + (n / 64) % 64, 0x80 + n % 64]
  }

  /** `%XY` for one byte. */
  function Escape(b: int): string
    requires IsByte(b)
  {
    ['%', HexDigit(b / 16), HexDigit(b % 16)]
  }

  function EscapeAll(bytes: seq<int>): (s: string)
    requires forall k :: 0 <= k < |bytes| ==> IsByte(bytes[k])
    ensures |s| == 3 * |bytes|
  {
    if bytes == [] then [] else Escape(bytes[0]) + EscapeAll(bytes[1..])
  }

  predicate IsHexDigitUpper(c: char) { ('0' <= c <= '9') || ('A' <= c <= 'F') }

  /** What one character encodes to. */
  function EncodeChar(c: char): string
  {
    if IsUnreserved(c) then [c]
    else if c == ' ' then "+"
    else EscapeAll(Utf8(c))
  }

  /** URLEncoder.encode(s, "UTF-8"): every character encodes to at least one character. */
  function Encode(s: string): (e: string)
    ensures |e| >= |s|
  {
    if s == [] then [] else EncodeChar(s[0]) + Encode(s[1..])
  }

  /** Every character of an encoding is kept text, `+`, `%` or an upper-case hex digit. */
  predicate EncodedAlphabet(s: string)
  {
    forall k :: 0 <= k < |s| ==> IsUnreserved(s[k]) || s[k] == '+' || s[k] == '%' || IsHexDigitUpper(s[k])
  }

  lemma {:induction false} EscapeAllAlphabet(bytes: seq<int>)
    requires forall k :: 0 <= k < |bytes| ==> IsByte(bytes[k])
    ensures EncodedAlphabet(EscapeAll(bytes))
  {
    if bytes != [] {
      EscapeAllAlphabet(bytes[1..]);
      var e := Escape(bytes[0]);
      assert EncodedAlphabet(e);
      var rest := EscapeAll(bytes[1..]);
      forall k | 0 <= k < |e + rest|
        ensures IsUnreserved((e + rest)[k]) || (e + rest)[k] == '+' || (e + rest)[k] == '%' || IsHexDigitUpper((e + rest)[k])
      {
        if k >= |e| { assert (e + rest)[k] == rest[k - |e|]; }
      }
    }
  }

  lemma {:induction false} EncodeAlphabet(s: string)
    ensures EncodedAlphabet(Encode(s))
  {
    if s != [] {
      EncodeAlphabet(s[1..]);
      var e := EncodeChar(s[0]);
      if !IsUnreserved(s[0]) && s[0] != ' ' {
        EscapeAllAlphabet(Utf8(s[0]));
      }
      var rest := Encode(s[1..]);
      forall k | 0 <= k < |e + rest|
        ensures IsUnreserved((e + rest)[k]) || (e + rest)[k] == '+' || (e + rest)[k] == '%' || IsHexDigitUpper((e + rest)[k])
      {
        if k >= |e| { assert (e + rest)[k] == rest[k - |e|]; }
      }
    }
  }

  /** An encoded name never contains the path separator `/`. */
  lemma EncodeHasNoSlash(s: string)
    ensures '/' !in Encode(s)
  {
    EncodeAlphabet(s);
    var e := Encode(s);
    forall k | 0 <= k < |e| ensures e[k] != '/' {
      assert IsUnreserved(e[k]) || e[k] == '+' || e[k] == '%' || IsHexDigitUpper(e[k]);
    }
  }

  /** The byte written as `%XY` at index i, if there is one. */
  function EscapedByte(s: string, i: nat): (r: Option<int>)
    ensures r.Some? ==> IsByte(r.value)
  {
    if i + 3 <= |s| && s[i] == '%' then
      match (HexValue(s[i + 1]), HexValue(s[i + 2]))
      case (Some(hi), Some(lo)) => Some(hi * 16 + lo)
      case _ => None
    else None
  }

  /** The six payload bits of a UTF-8 continuation byte escaped at index i. */
  function Continuation(s: string, i: nat): Option<int>
  {
    match EscapedByte(s, i)
    case Some(b) => if 0x80 <= b < 0xC0 then Some(b - 0x80) else None
    case None => None
  }

  /**
   * Decodes one character written as the escapes of its UTF-8 bytes at the
   * start of s, giving the character and the number of characters consumed.
   * Overlong forms, surrogates and values above U+10FFFF are refused.
   */
  function DecodeEscapedChar(s: string): (r: Option<(char, nat)>)
    ensures r.Some? ==> 3 <= r.value.1 <= |s|
  {
    match EscapedByte(s, 0)
    case None => None
    case Some(b0) =>
      if b0 < 0x80 then Some((b0 as char, 3))
      else if 0xC0 <= b0 < 0xE0 then
        match Continuation(s, 3)
        case None => None
        case Some(b1) =>
          var cp := (b0 - 0xC0) * 64 + b1;
          if 0x80 <= cp then Some((cp as char, 6)) else None
      else if 0xE0 <= b0 < 0xF0 then
        match (Continuation(s, 3), Continuation(s, 6))
        case (Some(b1), Some(b2)) =>
          var cp := (b0 - 0xE0) * 4096 + b1 * 64 + b2;
          if 0x800 <= cp && !(0xD800 <= cp < 0xE000) then Some((cp as char, 9)) else None
        case _ => None
      else if 0xF0 <= b0 < 0xF8 then
        match (Continuation(s, 3), Continuation(s, 6), Continuation(s, 9))
        case (Some(b1), Some(b2), Some(b3)) =>
          var cp := (b0 - 0xF0) * 262144 + b1 * 4096 + b2 * 64 + b3;
          if 0x1_0000 <= cp <= 0x10_FFFF then Some((cp as char, 12)) else None
        case _ => None
      else None
  }

  function Prepend(c: char, rest: Option<string>): Option<string>
  {
    if rest.Some? then Some([c] + rest.value) else None
  }

  /**
   * URLDecoder.decode(s, "UTF-8"): `+` becomes a space, escapes become the
   * characters their bytes encode, any other character stands for itself.
   * None where the decoder throws IllegalArgumentException.
   */
  function Decode(s: string): (r: Option<string>)
    ensures r.Some? ==> |r.value| <= |s|
    decreases |s|
  {
    if s == [] then Some([])
    else if s[0] == '+' then Prepend(' ', Decode(s[1..]))
    else if s[0] == '%' then
      match DecodeEscapedChar(s)
      case None => None
      case Some((c, n)) => Prepend(c, Decode(s[n..]))
    else Prepend(s[0], Decode(s[1..]))
  }

  /** An escape read after a prefix is the escape read in the remainder. */
  lemma EscapedByteShift(c: string, t: string, i: nat)
    ensures EscapedByte(c + t, |c| + i) == EscapedByte(t, i)
  {
    var s := c + t;
    if i + 3 <= |t| {
      assert s[|c| + i] == t[i] && s[|c| + i + 1] == t[i + 1] && s[|c| + i + 2] == t[i + 2];
    }
  }

  /** The escape of a byte, read back at the start. */
  lemma EscapeFirst(b: int, t: string)
    requires IsByte(b)
    ensures EscapedByte(Escape(b) + t, 0) == Some(b)
  {
    var s := Escape(b) + t;
    assert s[0] == '%' && s[1] == HexDigit(b / 16) && s[2] == HexDigit(b % 16);
    HexRoundTrip(b / 16);
    HexRoundTrip(b % 16);
  }

  lemma {:induction false} EscapeAllAt(bytes: seq<int>, rest: string, k: nat)
    requires forall j :: 0 <= j < |bytes| ==> IsByte(bytes[j])
    requires k < |bytes|
    ensures EscapedByte(EscapeAll(bytes) + rest, 3 * k) == Some(bytes[k])
  {
    var t := EscapeAll(bytes[1..]) + rest;
    var s := EscapeAll(bytes) + rest;
    assert s == Escape(bytes[0]) + t;
    if k == 0 {
      EscapeFirst(bytes[0], t);
    } else {
      var e := Escape(bytes[0]);
      EscapeAllAt(bytes[1..], rest, k - 1);
      EscapedByteShift(e, t, 3 * (k - 1));
      assert 3 * k == |e| + 3 * (k - 1);
    }
  }

  lemma DecodeTwo(s: string, b0: int, b1: int)
    requires EscapedByte(s, 0) == Some(b0) && EscapedByte(s, 3) == Some(b1)
    requires 0xC0 <= b0 < 0xE0 && 0x80 <= b1 < 0xC0
    requires 0x80 <= (b0 - 0xC0) * 64 + (b1 - 0x80)
    ensures DecodeEscapedChar(s) == Some((((b0 - 0xC0) * 64 + (b1 - 0x80)) as char, 6))
  {
    assert Continuation(s, 3) == Some(b1 - 0x80);
  }

  lemma DecodeThree(s: string, b0: int, b1: int, b2: int)
    requires EscapedByte(s, 0) == Some(b0) && EscapedByte(s, 3) == Some(b1) && EscapedByte(s, 6) == Some(b2)
    requires 0xE0 <= b0 < 0xF0 && 0x80 <= b1 < 0xC0 && 0x80 <= b2 < 0xC0
    requires var cp := (b0 - 0xE0) * 4096 + (b1 - 0x80) * 64 + (b2 - 0x80); 0x800 <= cp && !(0xD800 <= cp < 0xE000)
    ensures DecodeEscapedChar(s) == Some((((b0 - 0xE0) * 4096 + (b1 - 0x80) * 64 + (b2 - 0x80)) as char, 9))
  {
    assert Continuation(s, 3) == Some(b1 - 0x80);
    assert Continuation(s, 6) == Some(b2 - 0x80);
  }

  lemma DecodeFour(s: string, b0: int, b1: int, b2: int, b3: int)
    requires EscapedByte(s, 0) == Some(b0) && EscapedByte(s, 3) == Some(b1)
    requires EscapedByte(s, 6) == Some(b2) && EscapedByte(s, 9) == Some(b3)
    requires 0xF0 <= b0 < 0xF8 && 0x80 <= b1 < 0xC0 && 0x80 <= b2 < 0xC0 && 0x80 <= b3 < 0xC0
    requires var cp := (b0 - 0xF0) * 262144 + (b1 - 0x80) * 4096 + (b2 - 0x80) * 64 + (b3 - 0x80); 0x1_0000 <= cp <= 0x10_FFFF
    ensures DecodeEscapedChar(s) ==
      Some((((b0 - 0xF0) * 262144 + (b1 - 0x80) * 4096 + (b2 - 0x80) * 64 + (b3 - 0x80)) as char, 12))
  {
    assert Continuation(s, 3) == Some(b1 - 0x80);
    assert Continuation(s, 6) == Some(b2 - 0x80);
    assert Continuation(s, 9) == Some(b3 - 0x80);
  }

  /** The three 6-bit groups of a three-byte character put it back together. */
  lemma Utf8Arith3(n: int)
    requires 0x800 <= n < 0x1_0000
    ensures (n / 4096) * 4096 + ((n / 64) % 64) * 64 + n % 64 == n
    ensures 0 <= n / 4096 < 16
  {
    var q := n / 64;
    assert n == q * 64 + n % 64;
    assert q / 64 == n / 4096;
    assert q == (q / 64) * 64 + q % 64;
  }

  /** The four groups of a four-byte character put it back together. */
  lemma Utf8Arith4(n: int)
    requires 0x1_0000 <= n < 0x11_0000
    ensures (n / 262144) * 262144 + ((n / 4096) % 64) * 4096 + ((n / 64) % 64) * 64 + n % 64 == n
    ensures 0 <= n / 262144 < 8
  {
    var q := n / 64;
    var r := q / 64;
    assert n == q * 64 + n % 64;
    assert r == n / 4096;
    assert r / 64 == n / 262144;
    assert q == r * 64 + q % 64;
    assert r == (r / 64) * 64 + r % 64;
  }

  lemma DecodeEscaped2(c: char, rest: string)
    requires 0x80 <= c as int < 0x800
    ensures DecodeEscapedChar(EscapeAll(Utf8(c)) + rest) == Some((c, 6))
  {
    var n := c as int;
    var bytes := Utf8(c);
    var b0, b1 := 0xC0 + n / 64, 0x80 + n % 64;
    assert bytes == [b0, b1];
    EscapeAllAt(bytes, rest, 0);
    EscapeAllAt(bytes, rest, 1);
    assert (b0 - 0xC0) * 64 + (b1 - 0x80) == n;
    DecodeTwo(EscapeAll(bytes) + rest, b0, b1);
  }

  lemma DecodeEscaped3(c: char, rest: string)
    requires 0x800 <= c as int < 0x1_0000
    ensures DecodeEscapedChar(EscapeAll(Utf8(c)) + rest) == Some((c, 9))
  {
    var n := c as int;
    var bytes := Utf8(c);
    var b0, b1, b2 := 0xE0 + n / 4096, 0x80 + (n / 64) % 64, 0x80 + n % 64;
    assert bytes == [b0, b1, b2];
    EscapeAllAt(bytes, rest, 0);
    EscapeAllAt(bytes, rest, 1);
    EscapeAllAt(bytes, rest, 2);
    Utf8Arith3(n);
    assert (b0 - 0xE0) * 4096 + (b1 - 0x80) * 64 + (b2 - 0x80) == n;
    DecodeThree(EscapeAll(bytes) + rest, b0, b1, b2);
  }

  lemma DecodeEscaped4(c: char, rest: string)
    requires 0x1_0000 <= c as int
    ensures DecodeEscapedChar(EscapeAll(Utf8(c)) + rest) == Some((c, 12))
  {
    var n := c as int;
    var bytes := Utf8(c);
    var b0, b1, b2, b3 := 0xF0 + n / 262144, 0x80 + (n / 4096) % 64, 0x80 + (n / 64) % 64, 0x80 + n % 64;
    assert bytes == [b0, b1, b2, b3];
    EscapeAllAt(bytes, rest, 0);
    EscapeAllAt(bytes, rest, 1);
    EscapeAllAt(bytes, rest, 2);
    EscapeAllAt(bytes, rest, 3);
    Utf8Arith4(n);
    assert (b0 - 0xF0) * 262144 + (b1 - 0x80) * 4096 + (b2 - 0x80) * 64 + (b3 - 0x80) == n;
    DecodeFour(EscapeAll(bytes) + rest, b0, b1, b2, b3);
  }

  /** The escapes of a character's UTF-8 bytes decode to that character. */
  lemma DecodeEscapedUtf8(c: char, rest: string)
    ensures DecodeEscapedChar(EscapeAll(Utf8(c)) + rest) == Some((c, 3 * |Utf8(c)|))
  {
    var n := c as int;
    if n < 0x80 {
      EscapeAllAt(Utf8(c), rest, 0);
      assert EscapedByte(EscapeAll(Utf8(c)) + rest, 0) == Some(n);
    } else if n < 0x800 {
      DecodeEscaped2(c, rest);
    } else if n < 0x1_0000 {
      DecodeEscaped3(c, rest);
    } else {
      DecodeEscaped4(c, rest);
    }
  }

  lemma DecodeEncodedChar(c: char, rest: string)
    ensures Decode(EncodeChar(c) + rest) == Prepend(c, Decode(rest))
  {
    var s := EncodeChar(c) + rest;
    if IsUnreserved(c) {
      assert s[1..] == rest;
    } else if c == ' ' {
      assert s[1..] == rest;
    } else {
      var bytes := Utf8(c);
      DecodeEscapedUtf8(c, rest);
      EscapeAllAt(bytes, rest, 0);
      assert s[0] == '%';
      assert s[3 * |bytes|..] == rest;
    }
  }

  /**
   * Decoding undoes encoding: URLDecoder.decode(URLEncoder.encode(s)) == s for
   * every string of Unicode scalar values (a Java string holding a lone
   * surrogate is outside this model).
   */
  lemma {:induction false} DecodeEncode(s: string)
    ensures Decode(Encode(s)) == Some(s)
  {
    if s != [] {
      DecodeEncode(s[1..]);
      DecodeEncodedChar(s[0], Encode(s[1..]));
      assert s == [s[0]] + s[1..];
    }
  }

  /** Distinct names of Unicode scalar values have distinct encodings. */
  lemma EncodeInjective(a: string, b: string)
    requires Encode(a) == Encode(b)
    ensures a == b
  {
    DecodeEncode(a);
    DecodeEncode(b);
  }
}
