/** Percent-encoding as the two encoders the application calls do it:
    `encodeURIComponent` (used for the redirect URI and the scope of the
    authorisation URL) and the `application/x-www-form-urlencoded` serialiser
    behind `URLSearchParams.toString()` (used by the browser client). Both work
    on the UTF-8 bytes of each character. */
module Url {
  import opened Text

  /** The UTF-8 encoding of one Unicode scalar value. */
  function Utf8(c: char): (bytes: seq<nat>)
    ensures 1 <= |bytes| <= 4
    ensures forall k :: 0 <= k < |bytes| ==> bytes[k] < 256
    ensures (|bytes| == 1) == (c as int < 0x80)
    ensures |bytes| == 1 ==> bytes[0] == c as int
  {
    var n := c as int;
    if n < 0x80 then [n]
    else if n < 0x800 then [0xC0 + n / 0x40, 0x80 + n % 0x40]
    else if n < 0x10000 then [0xE0 + n / 0x1000, 0x80 + (n / 0x40) % 0x40, 0x80 + n % 0x40]
    else [0xF0 + n / 0x40000, 0x80 + (n / 0x1000) % 0x40, 0x80 + (n / 0x40) % 0x40, 0x80 + n % 0x40]
  }

  const HexDigits: string := "0123456789ABCDEF"

  function HexDigit(d: nat): char
    requires d < 16
  {
    HexDigits[d]
  }

  /** `%XY` for one byte, with upper-case hexadecimal digits. */
  function PercentByte(b: nat): string
    requires b < 256
  {
    ['%', HexDigit(b / 16), HexDigit(b % 16)]
  }

  function PercentBytes(bytes: seq<nat>): string
    requires forall k :: 0 <= k < |bytes| ==> bytes[k] < 256
  {
    if bytes == [] then [] else PercentByte(bytes[0]) + PercentBytes(bytes[1..])
  }

  predicate IsAsciiAlphanumeric(c: char) {
    '0' <= c <= '9' || 'A' <= c <= 'Z' || 'a' <= c <= 'z'
  }

  /** The characters `encodeURIComponent` leaves alone. */
  predicate IsUriUnreserved(c: char) {
    IsAsciiAlphanumeric(c) || c in "-_.!~*'()"
  }

  /** The characters the form serialiser leaves alone. */
  predicate IsFormSafe(c: char) {
    IsAsciiAlphanumeric(c) || c in "*-._"
  }

  function EncodeUriComponent(s: string): string {
    if s == [] then []
    else (if IsUriUnreserved(s[0]) then [s[0]] else PercentBytes(Utf8(s[0]))) + EncodeUriComponent(s[1..])
  }

  /** Form-encoding of one string: a space becomes `+`. */
  function FormEncode(s: string): string {
    if s == [] then []
    else
      (if IsFormSafe(s[0]) then [s[0]] else if s[0] == ' ' then "+" else PercentBytes(Utf8(s[0])))
      + FormEncode(s[1..])
  }

  /** `URLSearchParams.toString()`: the pairs in insertion order, `key=value`,
      joined by `&`. */
  function SerializeParams(params: seq<(string, string)>): string {
    Join(EncodedPairs(params), '&')
  }

  function EncodedPairs(params: seq<(string, string)>): (r: seq<string>)
    ensures |r| == |params|
  {
    if params == [] then [] else [FormEncode(params[0].0) + "=" + FormEncode(params[0].1)] + EncodedPairs(params[1..])
  }

  // ---------------------------------------------------------------------------
  // What the encoders produce

  lemma {:induction false} PercentBytesChars(bytes: seq<nat>)
    requires forall k :: 0 <= k < |bytes| ==> bytes[k] < 256
    ensures forall i :: 0 <= i < |PercentBytes(bytes)| ==>
      PercentBytes(bytes)[i] == '%' || PercentBytes(bytes)[i] in HexDigits
  {
    if bytes != [] {
      PercentBytesChars(bytes[1..]);
    }
  }

  /** Every character `encodeURIComponent` emits is unreserved or `%`: none of
      `& = ? # / :` can appear, so an encoded value cannot break the structure
      of the URL it is placed in. */
  lemma {:induction false} EncodeUriComponentSafe(s: string)
    ensures forall i :: 0 <= i < |EncodeUriComponent(s)| ==>
      IsUriUnreserved(EncodeUriComponent(s)[i]) || EncodeUriComponent(s)[i] == '%'
  {
    if s != [] {
      EncodeUriComponentSafe(s[1..]);
      if !IsUriUnreserved(s[0]) {
        PercentBytesChars(Utf8(s[0]));
      }
    }
  }

  /** Every character the form serialiser emits is form-safe, `+` or `%`. */
  lemma {:induction false} FormEncodeSafe(s: string)
    ensures forall i :: 0 <= i < |FormEncode(s)| ==>
      IsFormSafe(FormEncode(s)[i]) || FormEncode(s)[i] in "+%"
  {
    if s != [] {
      FormEncodeSafe(s[1..]);
      if !IsFormSafe(s[0]) && s[0] != ' ' {
        PercentBytesChars(Utf8(s[0]));
      }
    }
  }

  lemma FormEncodeHasNo(s: string, c: char)
    requires c == '&' || c == '='
    ensures c !in FormEncode(s)
  {
    FormEncodeSafe(s);
  }

  // ---------------------------------------------------------------------------
  // Decoding, the partner of the form serialiser

  predicate IsHexDigit(c: char) {
    0 <= HexValue(c) < 16
  }

  /** Form-decoding: `+` is a space and `%XY` is the byte XY, read here as the
      character with that code, which is exact for ASCII. */
  function FormDecode(s: string): string {
    if s == [] then []
    else if s[0] == '+' then " " + FormDecode(s[1..])
    else if s[0] == '%' && |s| >= 3 && IsHexDigit(s[1]) && IsHexDigit(s[2]) then
      [(16 * HexValue(s[1]) + HexValue(s[2])) as char] + FormDecode(s[3..])
    else [s[0]] + FormDecode(s[1..])
  }

  /** A query string as the pairs it holds, each split at its first `=`. */
  function ParseQuery(q: string): seq<(string, string)> {
    if q == [] then [] else ParsePairs(Split(q, '&'))
  }

  function ParsePairs(parts: seq<string>): (r: seq<(string, string)>)
    ensures |r| == |parts|
  {
    if parts == [] then []
    else
      var kv := Split(parts[0], '=');
      [(FormDecode(kv[0]), FormDecode(Join(kv[1..], '=')))] + ParsePairs(parts[1..])
  }

  predicate IsAscii(s: string) {
    forall i :: 0 <= i < |s| ==> s[i] as int < 0x80
  }

  lemma HexDigitValue(d: nat)
    requires d < 16
    ensures IsHexDigit(HexDigit(d)) && HexValue(HexDigit(d)) == d
  {
  }

  lemma DecodeOneChar(c: char, rest: string)
    requires c as int < 0x80
    ensures var e := if IsFormSafe(c) then [c] else if c == ' ' then "+" else PercentBytes(Utf8(c));
      FormDecode(e + rest) == [c] + FormDecode(rest)
  {
    if !IsFormSafe(c) && c != ' ' {
      PercentDecoded(c, rest);
    } else if c == ' ' {
      assert ("+" + rest)[1..] == rest;
    } else {
      PlainDecoded(c, rest);
    }
  }

  /** An ASCII character written as `%XY` decodes back to itself. */
  lemma PercentDecoded(c: char, rest: string)
    requires c as int < 0x80
    ensures FormDecode(PercentBytes(Utf8(c)) + rest) == [c] + FormDecode(rest)
  {
    var b := c as int;
    HexDigitValue(b / 16);
    HexDigitValue(b % 16);
    assert PercentBytes(Utf8(c)) == PercentByte(b);
    var e := PercentByte(b);
    assert (e + rest)[3..] == rest;
  }

  /** A character other than `+` and `%` decodes as itself. */
  lemma PlainDecoded(c: char, rest: string)
    requires c != '+' && c != '%'
    ensures FormDecode([c] + rest) == [c] + FormDecode(rest)
  {
    assert ([c] + rest)[1..] == rest;
  }

  /** For ASCII text, form-decoding undoes form-encoding. */
  lemma {:induction false} FormDecodeEncode(s: string)
    requires IsAscii(s)
    ensures FormDecode(FormEncode(s)) == s
  {
    if s != [] {
      FormDecodeEncode(s[1..]);
      DecodeOneChar(s[0], FormEncode(s[1..]));
      assert s == [s[0]] + s[1..];
    }
  }

  /** Every key and value is ASCII. */
  predicate AsciiPairs(params: seq<(string, string)>) {
    forall k :: 0 <= k < |params| ==> IsAscii(params[k].0) && IsAscii(params[k].1)
  }

  lemma {:induction false} ParseEncodedPairs(params: seq<(string, string)>)
    requires AsciiPairs(params)
    ensures ParsePairs(EncodedPairs(params)) == params
  {
    if params != [] {
      ParseEncodedPairs(params[1..]);
      ParseOnePair(params[0].0, params[0].1);
      var parts := EncodedPairs(params);
      assert parts[1..] == EncodedPairs(params[1..]);
      assert ParsePairs(parts) == [ParsePairs(parts)[0]] + ParsePairs(parts[1..]);
    }
  }

  lemma ParseOnePair(key: string, value: string)
    requires IsAscii(key) && IsAscii(value)
    ensures var kv := Split(FormEncode(key) + "=" + FormEncode(value), '=');
      FormDecode(kv[0]) == key && FormDecode(Join(kv[1..], '=')) == value
  {
    var k, v := FormEncode(key), FormEncode(value);
    FormEncodeHasNo(key, '=');
    FormEncodeHasNo(value, '=');
    assert k + "=" + v == k + ['='] + v;
    SplitPrefix(k, v, '=');
    SplitFree(v, '=');
    var kv := Split(k + "=" + v, '=');
    assert kv == [k, v];
    assert kv[1..] == [v];
    FormDecodeEncode(key);
    FormDecodeEncode(value);
  }

  /** The pairs a `URLSearchParams` was filled with are recovered, in order,
      from its serialisation when keys and values are ASCII. */
  lemma SerializeParamsRoundTrip(params: seq<(string, string)>)
    requires AsciiPairs(params)
    ensures ParseQuery(SerializeParams(params)) == params
  {
    var parts := EncodedPairs(params);
    if params != [] {
      forall k | 0 <= k < |parts| ensures '&' !in parts[k] {
        EncodedPairNoAmp(params, k);
      }
      SplitJoin(parts, '&');
      assert |parts[0]| > 0 by { EncodedPairAt(params, 0); }
      assert SerializeParams(params) != [] by { JoinNonEmpty(parts, '&'); }
      ParseEncodedPairs(params);
    }
  }

  lemma {:induction false} EncodedPairAt(params: seq<(string, string)>, k: nat)
    requires k < |params|
    ensures EncodedPairs(params)[k] == FormEncode(params[k].0) + "=" + FormEncode(params[k].1)
  {
    if k > 0 {
      EncodedPairAt(params[1..], k - 1);
    }
  }

  lemma EncodedPairNoAmp(params: seq<(string, string)>, k: nat)
    requires k < |params|
    ensures '&' !in EncodedPairs(params)[k]
  {
    EncodedPairAt(params, k);
    FormEncodeHasNo(params[k].0, '&');
    FormEncodeHasNo(params[k].1, '&');
  }

  lemma JoinNonEmpty(parts: seq<string>, sep: char)
    requires |parts| >= 1 && |parts[0]| > 0
    ensures |Join(parts, sep)| > 0
  {
  }
}
