/**
 * `encodeURIComponent` and `decodeURIComponent` (ECMA-262 5.1, sections
 * 15.1.3.4 and 15.1.3.2) on strings of Unicode scalar values, which is what a
 * well-formed JavaScript string denotes.
 *
 * Encoding keeps the unreserved characters (uriAlpha, DecimalDigit and
 * uriMark of section 15.1.3, the unreserved set of RFC 2396 section 2.3) and
 * replaces every other character by the UTF-8 octets of its code point, each
 * written `%XY` with upper-case hexadecimal digits. Decoding reverses this and
 * fails (a URIError in JavaScript) on a malformed escape or on octets that are
 * not the UTF-8 encoding of one code point.
 */
module UriComponent {
  import opened Wrappers

  /** uriMark of section 15.1.3. */
  predicate IsMark(c: char) {
    c == '-' || c == '_' || c == '.' || c == '!' || c == '~' || c == '*' || c == '\'' || c == '(' || c == ')'
  }

  /** uriUnreserved: uriAlpha, DecimalDigit and uriMark. */
  predicate Unreserved(c: char) {
    ('A' <= c <= 'Z') || ('a' <= c <= 'z') || ('0' <= c <= '9') || IsMark(c)
  }

  function HexDigit(n: int): (c: char)
    requires 0 <= n < 16
    ensures ('0' <= c <= '9') || ('A' <= c <= 'F')
  {
    if n < 10 then (48 + n) as char else (55 + n) as char
  }

  /** The value of a hexadecimal digit of either case. */
  function HexValue(c: char): (r: Option<int>)
    ensures r.Some? ==> 0 <= r.value < 16
  {
    if '0' <= c <= '9' then Some(c as int - 48)
    else if 'A' <= c <= 'F' then Some(c as int - 55)
    else if 'a' <= c <= 'f' then Some(c as int - 87)
    else None
  }

  /** A byte written `%XY`. */
  function Escape(b: int): string
    requires 0 <= b < 256
  {
    ['%', HexDigit(b / 16), HexDigit(b % 16)]
  }

  /** The UTF-8 octets of a code point (RFC 3629). */
  function Utf8(c: char): (bytes: seq<int>)
    ensures 1 <= |bytes| <= 4
    ensures forall k :: 0 <= k < |bytes| ==> 0 <= bytes[k] < 256
  {
    var v := c as int;
    if v < 0x80 then [v]
    else if v < 0x800 then [0xC0 + v / 64, 0x80 + v % 64]
    else if v < 0x10000 then [0xE0 + v / 4096, 0x80 + (v / 64) % 64, 0x80 + v % 64]
    else [0xF0 + v / 262144, 0x80 + (v / 4096) % 64, 0x80 + (v / 64) % 64, 0x80 + v % 64]
  }

  function EscapeAll(bytes: seq<int>): (r: string)
    requires forall k :: 0 <= k < |bytes| ==> 0 <= bytes[k] < 256
    ensures |r| == 3 * |bytes|
  {
    if bytes == [] then [] else Escape(bytes[0]) + EscapeAll(bytes[1..])
  }

  function EncodeChar(c: char): string {
    if Unreserved(c) then [c] else EscapeAll(Utf8(c))
  }

  /** `encodeURIComponent(s)`. */
  function Encode(s: string): string {
    if s == [] then [] else EncodeChar(s[0]) + Encode(s[1..])
  }

  // ----- decodeURIComponent -----

  /** The byte written as `%XY` at position `k` of `s`, if there is one. */
  function ReadByte(s: string, k: nat): (r: Option<int>)
    ensures r.Some? ==> k + 3 <= |s| && 0 <= r.value < 256
  {
    if k + 3 <= |s| && s[k] == '%' && HexValue(s[k + 1]).Some? && HexValue(s[k + 2]).Some? then
      Some(16 * HexValue(s[k + 1]).value + HexValue(s[k + 2]).value)
    else None
  }

  /** The low six bits of the continuation byte at escape `k`, if it is one. */
  function Continuation(s: string, k: nat): (r: Option<int>)
    ensures r.Some? ==> 3 * k + 3 <= |s| && 0 <= r.value < 64
  {
    match ReadByte(s, 3 * k)
    case Some(b) => if 0x80 <= b < 0xC0 then Some(b - 0x80) else None
    case None => None
  }

  /** A code point when `v` is one and not a surrogate. */
  function ScalarValue(v: int): Option<char> {
    if 0 <= v < 0xD800 || 0xE000 <= v <= 0x10FFFF then Some(v as char) else None
  }

  /** The character of code point `v` when it lies in `[lo, U+10FFFF]` and is no surrogate. */
  function Checked(v: int, lo: int, n: nat): Option<(char, nat)> {
    if v < lo then None
    else match ScalarValue(v)
      case None => None
      case Some(c) => Some((c, n))
  }

  /**
   * The character encoded by the escapes at the start of `s`, and how many
   * characters of `s` they take; none for a bad escape, a bad lead or
   * continuation byte, an overlong form, a surrogate or a value past U+10FFFF.
   */
  function DecodeEscapes(s: string): (r: Option<(char, nat)>)
    ensures r.Some? ==> 3 <= r.value.1 <= |s|
  {
    match ReadByte(s, 0)
    case None => None
    case Some(b0) =>
      if b0 < 0x80 then Some((b0 as char, 3))
      else if 0xC0 <= b0 < 0xE0 then
        if Continuation(s, 1).None? then None
        else Checked((b0 - 0xC0) * 64 + Continuation(s, 1).value, 0x80, 6)
      else if 0xE0 <= b0 < 0xF0 then
        if Continuation(s, 1).None? || Continuation(s, 2).None? then None
        else Checked((b0 - 0xE0) * 4096 + Continuation(s, 1).value * 64 + Continuation(s, 2).value, 0x800, 9)
      else if 0xF0 <= b0 < 0xF8 then
        if Continuation(s, 1).None? || Continuation(s, 2).None? || Continuation(s, 3).None? then None
        else Checked((b0 - 0xF0) * 262144 + Continuation(s, 1).value * 4096
                     + Continuation(s, 2).value * 64 + Continuation(s, 3).value, 0x10000, 12)
      else None
  }

  /** `decodeURIComponent(s)`; none where JavaScript throws a URIError. */
  function Decode(s: string): Option<string>
    decreases |s|
  {
    if s == [] then Some([])
    else if s[0] != '%' then
      match Decode(s[1..])
      case Some(r) => Some([s[0]] + r)
      case None => None
    else
      match DecodeEscapes(s)
      case None => None
      case Some((c, n)) =>
        match Decode(s[n..])
        case Some(r) => Some([c] + r)
        case None => None
  }

  // ----- Properties -----

  /** What may appear in an encoded component: unreserved characters, `%` and upper-case hex digits. */
  predicate EncodedChar(c: char) {
    Unreserved(c) || c == '%' || ('A' <= c <= 'F')
  }

  lemma {:induction false} EscapeAllChars(bytes: seq<int>)
    requires forall k :: 0 <= k < |bytes| ==> 0 <= bytes[k] < 256
    ensures forall i :: 0 <= i < |EscapeAll(bytes)| ==> EncodedChar(EscapeAll(bytes)[i])
  {
    if bytes != [] {
      EscapeAllChars(bytes[1..]);
    }
  }

  /**
   * An encoded component consists of unreserved characters and `%XY` escapes
   * only, so in particular it holds no `&`, `=`, `?`, `#`, `/` or space.
   */
  lemma {:induction false} EncodeChars(s: string)
    ensures forall i :: 0 <= i < |Encode(s)| ==> EncodedChar(Encode(s)[i])
  {
    if s != [] {
      EncodeChars(s[1..]);
      if !Unreserved(s[0]) {
        EscapeAllChars(Utf8(s[0]));
      }
    }
  }

  /** Encoding changes a string exactly when it holds a character outside the unreserved set. */
  lemma {:induction false} EncodeIdentity(s: string)
    ensures Encode(s) == s <==> forall i :: 0 <= i < |s| ==> Unreserved(s[i])
  {
    EncodeLength(s);
    if s != [] {
      EncodeIdentity(s[1..]);
      EncodeLength(s[1..]);
      assert forall i :: 1 <= i < |s| ==> s[1..][i - 1] == s[i];
      if !Unreserved(s[0]) {
        assert |Encode(s)| >= 3 + |s[1..]|;
      } else if Encode(s) == s {
        assert Encode(s[1..]) == Encode(s)[1..];
      }
    }
  }

  /** Encoding works character by character: it distributes over concatenation. */
  lemma {:induction false} EncodeAppend(a: string, b: string)
    ensures Encode(a + b) == Encode(a) + Encode(b)
  {
    if a == [] {
      assert a + b == b;
    } else {
      assert (a + b)[0] == a[0] && (a + b)[1..] == a[1..] + b;
      EncodeAppend(a[1..], b);
      assert Encode(a + b) == EncodeChar(a[0]) + (Encode(a[1..]) + Encode(b));
    }
  }

  lemma {:induction false} EncodeLength(s: string)
    ensures |Encode(s)| >= |s|
  {
    if s != [] {
      EncodeLength(s[1..]);
    }
  }

  lemma HexRoundTrip(n: int)
    requires 0 <= n < 16
    ensures HexValue(HexDigit(n)) == Some(n)
  {
  }

  /** An escape at the front reads back as its byte. */
  lemma ReadFirstEscape(b: int, t: string)
    requires 0 <= b < 256
    ensures ReadByte(Escape(b) + t, 0) == Some(b)
  {
    HexRoundTrip(b / 16);
    HexRoundTrip(b % 16);
    var s := Escape(b) + t;
    assert s[0] == '%' && s[1] == HexDigit(b / 16) && s[2] == HexDigit(b % 16);
  }

  /** Reading past a three-character prefix reads the rest. */
  lemma ReadPastEscape(p: string, t: string, k: nat)
    requires |p| == 3
    ensures ReadByte(p + t, 3 + k) == ReadByte(t, k)
  {
    var s := p + t;
    if k + 3 <= |t| {
      assert s[3 + k] == t[k] && s[4 + k] == t[k + 1] && s[5 + k] == t[k + 2];
    }
  }

  /** Each escape of an encoded byte sequence reads back as that byte. */
  lemma {:induction false} ReadEscaped(bytes: seq<int>, rest: string, k: nat)
    requires forall j :: 0 <= j < |bytes| ==> 0 <= bytes[j] < 256
    requires k < |bytes|
    ensures ReadByte(EscapeAll(bytes) + rest, 3 * k) == Some(bytes[k])
  {
    var t := EscapeAll(bytes[1..]) + rest;
    assert EscapeAll(bytes) + rest == Escape(bytes[0]) + t;
    if k == 0 {
      ReadFirstEscape(bytes[0], t);
    } else {
      ReadEscaped(bytes[1..], rest, k - 1);
      ReadPastEscape(Escape(bytes[0]), t, 3 * (k - 1));
    }
  }

  lemma Split2(v: int)
    requires 0x80 <= v < 0x800
    ensures 0xC0 <= 0xC0 + v / 64 < 0xE0 && (v / 64) * 64 + v % 64 == v
  {
  }

  lemma Split3(v: int)
    requires 0x800 <= v < 0x10000
    ensures 0xE0 <= 0xE0 + v / 4096 < 0xF0
    ensures (v / 4096) * 4096 + ((v / 64) % 64) * 64 + v % 64 == v
  {
    assert v / 64 == (v / 4096) * 64 + (v / 64) % 64;
  }

  lemma Split4(v: int)
    requires 0x10000 <= v <= 0x10FFFF
    ensures 0xF0 <= 0xF0 + v / 262144 < 0xF8
    ensures (v / 262144) * 262144 + ((v / 4096) % 64) * 4096 + ((v / 64) % 64) * 64 + v % 64 == v
  {
    assert v / 64 == (v / 4096) * 64 + (v / 64) % 64;
    assert v / 4096 == (v / 262144) * 64 + (v / 4096) % 64;
  }

  /** The escapes of a character's UTF-8 octets decode back to the character. */
  lemma DecodeEncodedChar(c: char, rest: string)
    requires !Unreserved(c)
    ensures DecodeEscapes(EncodeChar(c) + rest) == Some((c, |EncodeChar(c)|))
  {
    var v := c as int;
    if v < 0x80 {
      ReadEscaped(Utf8(c), rest, 0);
    } else if v < 0x800 {
      DecodeTwo(c, rest);
    } else if v < 0x10000 {
      DecodeThree(c, rest);
    } else {
      DecodeFour(c, rest);
    }
  }

  lemma DecodeTwo(c: char, rest: string)
    requires 0x80 <= c as int < 0x800
    ensures DecodeEscapes(EscapeAll(Utf8(c)) + rest) == Some((c, 6))
  {
    var bytes, v := Utf8(c), c as int;
    var s := EscapeAll(bytes) + rest;
    ReadEscaped(bytes, rest, 0);
    ReadEscaped(bytes, rest, 1);
    Split2(v);
    assert Continuation(s, 1) == Some(v % 64);
  }

  lemma DecodeThree(c: char, rest: string)
    requires 0x800 <= c as int < 0x10000
    ensures DecodeEscapes(EscapeAll(Utf8(c)) + rest) == Some((c, 9))
  {
    var bytes, v := Utf8(c), c as int;
    var s := EscapeAll(bytes) + rest;
    ReadEscaped(bytes, rest, 0);
    ReadEscaped(bytes, rest, 1);
    ReadEscaped(bytes, rest, 2);
    Split3(v);
    assert Continuation(s, 1) == Some((v / 64) % 64);
    assert Continuation(s, 2) == Some(v % 64);
  }

  lemma DecodeFour(c: char, rest: string)
    requires 0x10000 <= c as int
    ensures DecodeEscapes(EscapeAll(Utf8(c)) + rest) == Some((c, 12))
  {
    var bytes, v := Utf8(c), c as int;
    var s := EscapeAll(bytes) + rest;
    ReadEscaped(bytes, rest, 0);
    ReadEscaped(bytes, rest, 1);
    ReadEscaped(bytes, rest, 2);
    ReadEscaped(bytes, rest, 3);
    var c1, c2, c3 := (v / 4096) % 64, (v / 64) % 64, v % 64;
    assert Continuation(s, 1) == Some(c1);
    assert Continuation(s, 2) == Some(c2);
    assert Continuation(s, 3) == Some(c3);
    Combine4(v, bytes[0]);
    assert ScalarValue(v) == Some(c);
  }

  lemma Combine4(v: int, b0: int)
    requires 0x10000 <= v <= 0x10FFFF && b0 == 0xF0 + v / 262144
    ensures 0xF0 <= b0 < 0xF8
    ensures (b0 - 0xF0) * 262144 + ((v / 4096) % 64) * 4096 + ((v / 64) % 64) * 64 + v % 64 == v
  {
    Split4(v);
    assert b0 - 0xF0 == v / 262144;
  }

  /** An unreserved character is read back as itself. */
  lemma DecodePlainFront(c: char, rest: string, r: string)
    requires Unreserved(c) && Decode(rest) == Some(r)
    ensures Decode([c] + rest) == Some([c] + r)
  {
    var t := [c] + rest;
    assert t[0] == c && t[1..] == rest;
  }

  /** The escapes of any other character are read back as that character. */
  lemma DecodeEscapedFront(c: char, rest: string, r: string)
    requires !Unreserved(c) && Decode(rest) == Some(r)
    ensures Decode(EncodeChar(c) + rest) == Some([c] + r)
  {
    var e := EncodeChar(c);
    var t := e + rest;
    DecodeEncodedChar(c, rest);
    assert t[0] == '%' by {
      assert t[..3] == Escape(Utf8(c)[0]);
    }
    assert t[|e|..] == rest;
  }

  /** Decoding an encoded component gives back the original string. */
  lemma {:induction false} DecodeEncode(s: string)
    ensures Decode(Encode(s)) == Some(s)
  {
    if s != [] {
      DecodeEncode(s[1..]);
      if Unreserved(s[0]) {
        DecodePlainFront(s[0], Encode(s[1..]), s[1..]);
      } else {
        DecodeEscapedFront(s[0], Encode(s[1..]), s[1..]);
      }
      assert s == [s[0]] + s[1..];
    }
  }
}
