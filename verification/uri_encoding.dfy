/**
  `encodeURIComponent` (section 19.2.6.4 of ECMA-262) over texts of Unicode scalar
  values, with the decoder that undoes it: percent-encoding (section 2.1 of RFC 3986)
  of UTF-8 bytes (section 3 of RFC 3629).
 */
module UriEncoding {
  import opened Prelude

  predicate Unreserved(c: char) {
    || 'A' <= c <= 'Z' || 'a' <= c <= 'z' || '0' <= c <= '9'
    || c == '-' || c == '_' || c == '.' || c == '!' || c == '~' || c == '*' || c == '\'' || c == '(' || c == ')'
  }

  /** The bytes of one character. */
  function Utf8(c: char): (bytes: seq<int>)
    ensures 1 <= |bytes| <= 4 && forall i :: 0 <= i < |bytes| ==> 0 <= bytes[i] < 256
  {
    var n := c as int;
    if n < 0x80 then [n]
    else if n < 0x800 then [0xC0 + n / 0x40, 0x80 + n % 0x40]
    else if n < 0x1_0000 then [0xE0 + n / 0x1000, 0x80 + n / 0x40 % 0x40, 0x80 + n % 0x40]
    else [0xF0 + n / 0x4_0000, 0x80 + n / 0x1000 % 0x40, 0x80 + n / 0x40 % 0x40, 0x80 + n % 0x40]
  }

  function HexDigit(n: int): (c: char)
    requires 0 <= n < 16
    ensures '0' <= c <= '9' || 'A' <= c <= 'F'
  {
    if n < 10 then '0' + n as char else 'A' + (n - 10) as char
  }

  function PercentByte(b: int): string
    requires 0 <= b < 256
  {
    ['%', HexDigit(b / 16), HexDigit(b % 16)]
  }

  function PercentBytes(bytes: seq<int>): string
    requires forall i :: 0 <= i < |bytes| ==> 0 <= bytes[i] < 256
  {
    if bytes == [] then "" else PercentByte(bytes[0]) + PercentBytes(bytes[1..])
  }

  function EncodeChar(c: char): string {
    if Unreserved(c) then [c] else PercentBytes(Utf8(c))
  }

  function EncodeComponent(s: string): string {
    if s == "" then "" else EncodeChar(s[0]) + EncodeComponent(s[1..])
  }

  // ---------------------------------------------------------------- the decoder

  function HexValue(c: char): Option<int> {
    if '0' <= c <= '9' then Some(c as int - '0' as int)
    else if 'A' <= c <= 'F' then Some(c as int - 'A' as int + 10)
    else None
  }

  function ByteAt(s: string): Option<int> {
    if |s| >= 3 && s[0] == '%' && HexValue(s[1]).Some? && HexValue(s[2]).Some?
    then Some(HexValue(s[1]).value * 16 + HexValue(s[2]).value) else None
  }

  /** As many percent-encoded bytes as asked for. */
  function TakeBytes(s: string, count: nat): Option<seq<int>> {
    if count == 0 then Some([])
    else if ByteAt(s).None? then None
    else
      var rest := TakeBytes(s[3..], count - 1);
      if rest.None? then None else Some([ByteAt(s).value] + rest.value)
  }

  function Width(lead: int): nat {
    if lead < 0x80 then 1 else if lead < 0xE0 then 2 else if lead < 0xF0 then 3 else 4
  }

  function CodePoint(bytes: seq<int>): int
    requires 1 <= |bytes| <= 4
  {
    match |bytes|
    case 1 => bytes[0]
    case 2 => (bytes[0] - 0xC0) * 0x40 + bytes[1] - 0x80
    case 3 => (bytes[0] - 0xE0) * 0x1000 + (bytes[1] - 0x80) * 0x40 + bytes[2] - 0x80
    case _ => (bytes[0] - 0xF0) * 0x4_0000 + (bytes[1] - 0x80) * 0x1000 + (bytes[2] - 0x80) * 0x40 + bytes[3] - 0x80
  }

  predicate Scalar(n: int) { 0 <= n < 0xD800 || 0xE000 <= n < 0x11_0000 }

  /** The first character and how much of the text it took. */
  function DecodeFirst(s: string): Option<(char, nat)>
    requires s != ""
  {
    if s[0] != '%' then Some((s[0], 1))
    else if ByteAt(s).None? then None
    else
      var width := Width(ByteAt(s).value);
      var bytes := TakeBytes(s, width);
      if bytes.None? || !(1 <= |bytes.value| <= 4) || !Scalar(CodePoint(bytes.value)) then None
      else Some((CodePoint(bytes.value) as char, 3 * width))
  }

  function DecodeComponent(s: string): Option<string> {
    if s == "" then Some("")
    else
      match DecodeFirst(s)
      case None => None
      case Some((c, taken)) =>
        if !(1 <= taken <= |s|) then None
        else
          var rest := DecodeComponent(s[taken..]);
          if rest.None? then None else Some([c] + rest.value)
  }

  // ---------------------------------------------------------------- round trip

  /** The bytes of a character give it back, and the first one says how many there are. */
  lemma Utf8RoundTrip(c: char)
    ensures CodePoint(Utf8(c)) == c as int && Width(Utf8(c)[0]) == |Utf8(c)|
  {
    var n := c as int;
    var high, middle := n / 0x1000, n / 0x40;
    assert middle == high * 0x40 + middle % 0x40 && n == middle * 0x40 + n % 0x40;
    assert high == n / 0x4_0000 * 0x40 + high % 0x40;
  }

  lemma ByteRoundTrip(b: int, rest: string)
    requires 0 <= b < 256
    ensures ByteAt(PercentByte(b) + rest) == Some(b)
  {
    var s := PercentByte(b) + rest;
    assert s[0] == '%' && s[1] == HexDigit(b / 16) && s[2] == HexDigit(b % 16);
  }

  lemma {:induction false} BytesRoundTrip(bytes: seq<int>, rest: string)
    requires forall i :: 0 <= i < |bytes| ==> 0 <= bytes[i] < 256
    ensures TakeBytes(PercentBytes(bytes) + rest, |bytes|) == Some(bytes)
    ensures |PercentBytes(bytes)| == 3 * |bytes|
  {
    if bytes != [] {
      var tail := PercentBytes(bytes[1..]) + rest;
      assert PercentBytes(bytes) + rest == PercentByte(bytes[0]) + tail;
      ByteRoundTrip(bytes[0], tail);
      assert (PercentByte(bytes[0]) + tail)[3..] == tail;
      BytesRoundTrip(bytes[1..], rest);
      assert [bytes[0]] + bytes[1..] == bytes;
    }
  }

  lemma EscapeRoundTrip(c: char, rest: string)
    ensures var s := PercentBytes(Utf8(c)) + rest;
            && s != "" && s[0] == '%' && ByteAt(s) == Some(Utf8(c)[0])
            && TakeBytes(s, |Utf8(c)|) == Some(Utf8(c)) && |PercentBytes(Utf8(c))| == 3 * |Utf8(c)|
  {
    var bytes := Utf8(c);
    var tail := PercentBytes(bytes[1..]) + rest;
    assert PercentBytes(bytes) + rest == PercentByte(bytes[0]) + tail;
    ByteRoundTrip(bytes[0], tail);
    BytesRoundTrip(bytes, rest);
  }

  lemma CharRoundTrip(c: char, rest: string)
    ensures EncodeChar(c) != ""
    ensures DecodeFirst(EncodeChar(c) + rest) == Some((c, |EncodeChar(c)|))
  {
    if !Unreserved(c) {
      Utf8RoundTrip(c);
      EscapeRoundTrip(c, rest);
    }
  }

  /** Decoding gives back every text that was encoded. */
  lemma {:induction false} ComponentRoundTrip(s: string)
    ensures DecodeComponent(EncodeComponent(s)) == Some(s)
  {
    if s != "" {
      var rest := EncodeComponent(s[1..]);
      CharRoundTrip(s[0], rest);
      assert (EncodeChar(s[0]) + rest)[|EncodeChar(s[0])|..] == rest;
      ComponentRoundTrip(s[1..]);
      assert [s[0]] + s[1..] == s;
    }
  }

  /** So different texts have different encodings. */
  lemma EncodingIsInjective(a: string, b: string)
    requires EncodeComponent(a) == EncodeComponent(b)
    ensures a == b
  {
    ComponentRoundTrip(a);
    ComponentRoundTrip(b);
  }

  /** What an encoding is made of. */
  predicate Plain(c: char) { Unreserved(c) || c == '%' }

  lemma {:induction false} PercentBytesArePlain(bytes: seq<int>)
    requires forall i :: 0 <= i < |bytes| ==> 0 <= bytes[i] < 256
    ensures forall i :: 0 <= i < |PercentBytes(bytes)| ==> Plain(PercentBytes(bytes)[i])
  {
    if bytes != [] {
      PercentBytesArePlain(bytes[1..]);
    }
  }

  /** An encoding holds no colon, so a colon can separate encoded fields. */
  lemma {:induction false} EncodingIsPlain(s: string)
    ensures forall i :: 0 <= i < |EncodeComponent(s)| ==> Plain(EncodeComponent(s)[i])
    ensures ':' !in EncodeComponent(s)
  {
    if s != "" {
      EncodingIsPlain(s[1..]);
      PercentBytesArePlain(Utf8(s[0]));
    }
  }
}
