/**
 * `encodeURIComponent` as ECMA-262 (6th edition) section 18.2.6.5 defines it,
 * over strings of Unicode scalar values: a character of the unreserved set is
 * kept, every other character is written as the UTF-8 octets of its code point
 * (RFC 3629), each octet as `%XY` with upper-case hexadecimal digits (the
 * percent-encoding of section 2.1 of RFC 3986).
 *
 * Its partner is `decodeURIComponent` (section 18.2.6.3), which is proved to
 * undo it.
 */
module UriComponent {
  import opened Wrappers
  import opened Sequences

  type Byte = b: int | 0 <= b < 256

  /** The characters encodeURIComponent leaves alone: letters, digits and `-_.!~*'()`. */
  predicate Unreserved(c: char) {
    ('A' <= c <= 'Z') || ('a' <= c <= 'z') || ('0' <= c <= '9')
    || c == '-' || c == '_' || c == '.' || c == '!' || c == '~' || c == '*'
    || c == '\'' || c == '(' || c == ')'
  }

  /** The upper-case hexadecimal digit for `d`. */
  function HexDigit(d: int): (c: char)
    requires 0 <= d < 16
    ensures Unreserved(c)
  {
    if d < 10 then ('0' as int + d) as char else ('A' as int + d - 10) as char
  }

  /** The value of a hexadecimal digit of either case. */
  function HexValue(c: char): Option<int> {
    if '0' <= c <= '9' then Some(c as int - '0' as int)
    else if 'A' <= c <= 'F' then Some(c as int - 'A' as int + 10)
    else if 'a' <= c <= 'f' then Some(c as int - 'a' as int + 10)
    else None
  }

  lemma HexValueOfDigit(d: int)
    requires 0 <= d < 16
    ensures HexValue(HexDigit(d)) == Some(d)
  {
  }

  /** `%XY` for one octet. */
  function PercentByte(b: Byte): string {
    ['%', HexDigit(b / 16), HexDigit(b % 16)]
  }

  /** The octets `b0, b1, ...` written as `%XY%XY...`. */
  function Percent(bytes: seq<Byte>): (r: string)
    ensures |r| == 3 * |bytes|
    ensures forall i :: 0 <= i < |r| ==> Unreserved(r[i]) || r[i] == '%'
  {
    if bytes == [] then [] else PercentByte(bytes[0]) + Percent(bytes[1..])
  }

  /** The UTF-8 octets of a code point (RFC 3629, section 3). */
  function Utf8(c: char): (bytes: seq<Byte>)
    ensures 1 <= |bytes| <= 4
  {
    var n := c as int;
    if n < 0x80 then [n]
    else if n < 0x800 then [0xC0 + n / 0x40, 0x80 + n % 0x40]
    else if n < 0x1_0000 then [0xE0 + n / 0x1000, 0x80 + (n / 0x40) % 0x40, 0x80 + n % 0x40]
    else [0xF0 + n / 0x4_0000, 0x80 + (n / 0x1000) % 0x40, 0x80 + (n / 0x40) % 0x40, 0x80 + n % 0x40]
  }

  /** One character of encodeURIComponent's output. */
  function EncodeChar(c: char): (r: string)
    ensures 1 <= |r|
    ensures forall i :: 0 <= i < |r| ==> Unreserved(r[i]) || r[i] == '%'
    ensures Unreserved(c) <==> r == [c]
  {
    if Unreserved(c) then [c] else Percent(Utf8(c))
  }

  /**
   * `encodeURIComponent(s)`. What comes out is made of unreserved characters and
   * `%` only, so it can never carry a `&`, `=`, `?`, `#` or space into a URL.
   */
  function EncodeURIComponent(s: string): (r: string)
    ensures |r| >= |s|
    ensures forall i :: 0 <= i < |r| ==> Unreserved(r[i]) || r[i] == '%'
  {
    if s == [] then [] else EncodeChar(s[0]) + EncodeURIComponent(s[1..])
  }

  /** A string of unreserved characters is its own encoding. */
  lemma {:induction false} EncodeUnreservedIdentity(s: string)
    requires forall i :: 0 <= i < |s| ==> Unreserved(s[i])
    ensures EncodeURIComponent(s) == s
  {
    if s != [] {
      EncodeUnreservedIdentity(s[1..]);
      assert [s[0]] + s[1..] == s;
    }
  }

  /** The octet written as `%XY` at position `k` of `s`, if there is one. */
  function OctetAt(s: string, k: nat): Option<Byte> {
    if k + 3 <= |s| && s[k] == '%' && HexValue(s[k + 1]).Some? && HexValue(s[k + 2]).Some?
    then Some(16 * HexValue(s[k + 1]).value + HexValue(s[k + 2]).value)
    else None
  }

  /** The six payload bits of a UTF-8 continuation octet at position `k`. */
  function ContinuationAt(s: string, k: nat): (r: Option<int>)
    ensures r.Some? ==> 0 <= r.value < 0x40
  {
    var b :- OctetAt(s, k);
    if 0x80 <= b < 0xC0 then Some(b - 0x80) else None
  }

  /**
   * The code point `n`, if it is a Unicode scalar value of at least `least`
   * (a smaller one would be an overlong form), paired with the escape length.
   */
  function ScalarValue(n: int, least: int, length: nat): (r: Option<(char, nat)>)
    ensures r.Some? ==> r.value.1 == length && r.value.0 as int == n
  {
    if least <= n && (0 <= n < 0xD800 || 0xE000 <= n < 0x11_0000) then Some((n as char, length)) else None
  }

  /**
   * The character that the escape sequence at the start of `s` (which starts
   * with `%`) stands for, and how many characters of `s` the sequence takes.
   * None is decodeURIComponent's URIError: a malformed escape, an octet that
   * cannot start a UTF-8 sequence, a bad continuation octet, an overlong form,
   * a surrogate or a code point past U+10FFFF.
   */
  function DecodeEscape(s: string): (r: Option<(char, nat)>)
    ensures r.Some? ==> 3 <= r.value.1 <= |s|
  {
    var b0 :- OctetAt(s, 0);
    if b0 < 0x80 then Some((b0 as char, 3))
    else if b0 < 0xC0 then None
    else if b0 < 0xE0 then
      var c1 :- ContinuationAt(s, 3);
      ScalarValue((b0 - 0xC0) * 0x40 + c1, 0x80, 6)
    else if b0 < 0xF0 then
      var c1 :- ContinuationAt(s, 3);
      var c2 :- ContinuationAt(s, 6);
      ScalarValue((b0 - 0xE0) * 0x1000 + c1 * 0x40 + c2, 0x800, 9)
    else if b0 < 0xF8 then
      var c1 :- ContinuationAt(s, 3);
      var c2 :- ContinuationAt(s, 6);
      var c3 :- ContinuationAt(s, 9);
      ScalarValue((b0 - 0xF0) * 0x4_0000 + c1 * 0x1000 + c2 * 0x40 + c3, 0x1_0000, 12)
    else None
  }

  /** `decodeURIComponent(s)`; None where it throws URIError. */
  function DecodeURIComponent(s: string): Option<string>
    decreases |s|
  {
    if s == [] then Some([])
    else if s[0] != '%' then
      var rest :- DecodeURIComponent(s[1..]);
      Some([s[0]] + rest)
    else
      var (c, length) :- DecodeEscape(s);
      var rest :- DecodeURIComponent(s[length..]);
      Some([c] + rest)
  }

  lemma OctetAtPercentByte(b: Byte, k: nat, s: string)
    requires k + 3 <= |s| && s[k..k + 3] == PercentByte(b)
    ensures OctetAt(s, k) == Some(b)
  {
    assert s[k] == '%' && s[k + 1] == HexDigit(b / 16) && s[k + 2] == HexDigit(b % 16);
    HexValueOfDigit(b / 16);
    HexValueOfDigit(b % 16);
  }

  /** The escape for one encoded character decodes back to that character. */
  lemma DecodeEscapeOfEncoded(c: char, rest: string)
    requires !Unreserved(c)
    ensures DecodeEscape(Percent(Utf8(c)) + rest) == Some((c, |Percent(Utf8(c))|))
  {
    var bytes := Utf8(c);
    var s := Percent(bytes) + rest;
    var n := c as int;
    OctetOfPercent(bytes, 0, rest);
    if n < 0x80 {
    } else if n < 0x800 {
      OctetOfPercent(bytes, 1, rest);
      DecodeTwo(c, s);
    } else if n < 0x1_0000 {
      OctetOfPercent(bytes, 1, rest);
      OctetOfPercent(bytes, 2, rest);
      DecodeThree(c, s);
    } else {
      OctetOfPercent(bytes, 1, rest);
      OctetOfPercent(bytes, 2, rest);
      OctetOfPercent(bytes, 3, rest);
      DecodeFour(c, s);
    }
  }

  /** The `j`-th octet of a percent-encoded run, read back from where it was written. */
  lemma OctetOfPercent(bytes: seq<Byte>, j: nat, rest: string)
    requires j < |bytes|
    ensures OctetAt(Percent(bytes) + rest, 3 * j) == Some(bytes[j])
  {
    PercentAt(bytes, j, rest);
    OctetAtPercentByte(bytes[j], 3 * j, Percent(bytes) + rest);
  }

  lemma DecodeTwo(c: char, s: string)
    requires 0x80 <= c as int < 0x800
    requires OctetAt(s, 0) == Some(Utf8(c)[0]) && OctetAt(s, 3) == Some(Utf8(c)[1])
    ensures DecodeEscape(s) == Some((c, 6))
  {
    var n := c as int;
    assert ContinuationAt(s, 3) == Some(n % 0x40);
  }

  lemma DecodeThree(c: char, s: string)
    requires 0x800 <= c as int < 0x1_0000
    requires OctetAt(s, 0) == Some(Utf8(c)[0]) && OctetAt(s, 3) == Some(Utf8(c)[1])
    requires OctetAt(s, 6) == Some(Utf8(c)[2])
    ensures DecodeEscape(s) == Some((c, 9))
  {
    var n := c as int;
    assert ContinuationAt(s, 3) == Some((n / 0x40) % 0x40);
    assert ContinuationAt(s, 6) == Some(n % 0x40);
    DivModSplit(n);
  }

  lemma DecodeFour(c: char, s: string)
    requires 0x1_0000 <= c as int
    requires OctetAt(s, 0) == Some(Utf8(c)[0]) && OctetAt(s, 3) == Some(Utf8(c)[1])
    requires OctetAt(s, 6) == Some(Utf8(c)[2]) && OctetAt(s, 9) == Some(Utf8(c)[3])
    ensures DecodeEscape(s) == Some((c, 12))
  {
    var n := c as int;
    assert ContinuationAt(s, 3) == Some((n / 0x1000) % 0x40);
    assert ContinuationAt(s, 6) == Some((n / 0x40) % 0x40);
    assert ContinuationAt(s, 9) == Some(n % 0x40);
    DivModSplit(n);
  }

  /** `n` rebuilt from its low six bits and the rest, one level further up. */
  lemma DivModSplit(n: nat)
    ensures (n / 0x1000) * 0x40 + (n / 0x40) % 0x40 == n / 0x40
    ensures (n / 0x4_0000) * 0x40 + (n / 0x1000) % 0x40 == n / 0x1000
  {
  }

  lemma PercentAt(bytes: seq<Byte>, j: nat, rest: string)
    requires j < |bytes|
    ensures 3 * j + 3 <= |Percent(bytes) + rest|
    ensures (Percent(bytes) + rest)[3 * j..3 * j + 3] == PercentByte(bytes[j])
  {
    var head := PercentByte(bytes[0]);
    var tail := Percent(bytes[1..]) + rest;
    ConcatAssoc(head, Percent(bytes[1..]), rest);
    if j > 0 {
      PercentAt(bytes[1..], j - 1, rest);
      SliceAfter(head, tail, 3 * j);
    } else {
      assert (head + tail)[..3] == head;
    }
  }

  lemma SliceAfter(x: string, y: string, k: nat)
    requires |x| <= k && k + 3 <= |x + y|
    ensures (x + y)[k..k + 3] == y[k - |x|..k - |x| + 3]
  {
  }

  /** Decoding the encoding of one character, followed by anything, yields the character first. */
  lemma DecodeEncodeChar(c: char, rest: string)
    ensures DecodeURIComponent(EncodeChar(c) + rest)
         == (match DecodeURIComponent(rest) case None => None case Some(r) => Some([c] + r))
  {
    var s := EncodeChar(c) + rest;
    if Unreserved(c) {
      assert s[0] == c && s[1..] == rest;
    } else {
      DecodeEscapeOfEncoded(c, rest);
      assert s[0] == '%';
      assert s[|EncodeChar(c)|..] == rest;
    }
  }

  /** decodeURIComponent undoes encodeURIComponent: the encoding loses nothing. */
  lemma {:induction false} DecodeEncode(s: string)
    ensures DecodeURIComponent(EncodeURIComponent(s)) == Some(s)
  {
    if s != [] {
      DecodeEncodeChar(s[0], EncodeURIComponent(s[1..]));
      DecodeEncode(s[1..]);
      assert [s[0]] + s[1..] == s;
    }
  }

  /** Hence two terms with the same encoding are the same term. */
  lemma EncodeInjective(s: string, t: string)
    requires EncodeURIComponent(s) == EncodeURIComponent(t)
    ensures s == t
  {
    DecodeEncode(s);
    DecodeEncode(t);
  }
}
