/** encodeURIComponent and decodeURIComponent (section 19.2.6 of ECMA-262) on strings of Unicode
    scalar values: percent-encoding (section 2.1 of RFC 3986) of UTF-8 (section 3 of RFC 3629). */
module PercentEncoding {
  import opened Seqs
  import opened Wrappers

  type byte = b: int | 0 <= b < 0x100

  // UTF-8

  predicate Scalar(n: int) {
    0 <= n < 0xD800 || 0xE000 <= n < 0x11_0000
  }

  function Utf8(c: char): (octets: seq<byte>)
    ensures 1 <= |octets| <= 4
  {
    var n := c as int;
    if n < 0x80 then [n]
    else if n < 0x800 then [0xC0 + n / 0x40, 0x80 + n % 0x40]
    else if n < 0x1_0000 then [0xE0 + n / 0x40 / 0x40, 0x80 + n / 0x40 % 0x40, 0x80 + n % 0x40]
    else [0xF0 + n / 0x40 / 0x40 / 0x40, 0x80 + n / 0x40 / 0x40 % 0x40, 0x80 + n / 0x40 % 0x40, 0x80 + n % 0x40]
  }

  predicate Continuation(b: int) {
    0x80 <= b < 0xC0
  }

  /** The number of octets a first octet announces; 0 when no character starts with it. */
  function OctetCount(first: byte): nat {
    if first < 0x80 then 1
    else if first < 0xC0 then 0
    else if first < 0xE0 then 2
    else if first < 0xF0 then 3
    else if first < 0xF8 then 4
    else 0
  }

  /** The number a full octet sequence spells, or -1 if it is malformed or overlong. */
  function CodePoint(octets: seq<byte>): (n: int)
    requires octets != [] && |octets| == OctetCount(octets[0])
  {
    var o: seq<int> := octets;
    if |o| == 1 then o[0]
    else if !Continuation(o[1]) then -1
    else if |o| == 2 then
      var n: int := (o[0] - 0xC0) * 0x40 + (o[1] - 0x80);
      if n < 0x80 then -1 else n
    else if !Continuation(o[2]) then -1
    else if |o| == 3 then
      var n: int := ((o[0] - 0xE0) * 0x40 + (o[1] - 0x80)) * 0x40 + (o[2] - 0x80);
      if n < 0x800 then -1 else n
    else if !Continuation(o[3]) then -1
    else
      var n: int := (((o[0] - 0xF0) * 0x40 + (o[1] - 0x80)) * 0x40 + (o[2] - 0x80)) * 0x40 + (o[3] - 0x80);
      if n < 0x1_0000 then -1 else n
  }

  /** The character a full octet sequence stands for; surrogates and values past the last code
      point are refused too. */
  function FromUtf8(octets: seq<byte>): Option<char>
    requires octets != [] && |octets| == OctetCount(octets[0])
  {
    var n := CodePoint(octets);
    if Scalar(n) then Some(n as char) else None
  }

  /** Every character is recovered from its octets ... */
  lemma Utf8RoundTrip(c: char)
    ensures |Utf8(c)| == OctetCount(Utf8(c)[0])
    ensures FromUtf8(Utf8(c)) == Some(c)
  {
  }

  /** ... and from no others. */
  lemma Utf8Canonical(octets: seq<byte>)
    requires octets != [] && |octets| == OctetCount(octets[0])
    requires FromUtf8(octets).Some?
    ensures Utf8(FromUtf8(octets).value) == octets
  {
    if |octets| == 3 {
      ThreeAreCanonical(octets);
    } else if |octets| == 4 {
      FourAreCanonical(octets);
    }
  }

  lemma ThreeAreCanonical(octets: seq<byte>)
    requires |octets| == 3 == OctetCount(octets[0]) && FromUtf8(octets).Some?
    ensures Utf8(FromUtf8(octets).value) == octets
  {
    var n, o: seq<int> := CodePoint(octets), octets;
    assert n / 0x40 == (o[0] - 0xE0) * 0x40 + (o[1] - 0x80);
  }

  lemma FourAreCanonical(octets: seq<byte>)
    requires |octets| == 4 == OctetCount(octets[0]) && FromUtf8(octets).Some?
    ensures Utf8(FromUtf8(octets).value) == octets
  {
    var n, o: seq<int> := CodePoint(octets), octets;
    assert n / 0x40 == ((o[0] - 0xF0) * 0x40 + (o[1] - 0x80)) * 0x40 + (o[2] - 0x80);
    assert n / 0x40 / 0x40 == (o[0] - 0xF0) * 0x40 + (o[1] - 0x80);
  }

  // Hexadecimal escapes

  function HexDigit(n: int): (c: char)
    requires 0 <= n < 16
    ensures HexValue(c) == n && c != '/'
  {
    if n < 10 then ('0' as int + n) as char else ('A' as int + n - 10) as char
  }

  /** -1 for a character that is no hexadecimal digit. */
  function HexValue(c: char): (n: int)
    ensures -1 <= n < 16
  {
    if '0' <= c <= '9' then c as int - '0' as int
    else if 'A' <= c <= 'F' then c as int - 'A' as int + 10
    else if 'a' <= c <= 'f' then c as int - 'a' as int + 10
    else -1
  }

  function Escape(b: byte): (s: string)
    ensures |s| == 3
  {
    ['%', HexDigit(b / 16), HexDigit(b % 16)]
  }

  function Escapes(octets: seq<byte>): (s: string)
    ensures |s| == 3 * |octets|
  {
    if octets == [] then [] else Escape(octets[0]) + Escapes(octets[1..])
  }

  /** The octets of the first n escapes of a string, if it starts with that many. */
  function Unescape(s: string, n: nat): (octets: Option<seq<byte>>)
    ensures octets.Some? ==> |octets.value| == n && 3 * n <= |s|
  {
    if n == 0 then Some([])
    else if |s| < 3 || s[0] != '%' || HexValue(s[1]) < 0 || HexValue(s[2]) < 0 then None
    else
      var rest := Unescape(s[3..], n - 1);
      if rest.None? then None else Some([HexValue(s[1]) * 16 + HexValue(s[2])] + rest.value)
  }

  lemma {:induction false} UnescapeInvertsEscapes(octets: seq<byte>, rest: string, n: nat)
    requires n <= |octets|
    ensures Unescape(Escapes(octets) + rest, n) == Some(octets[..n])
    decreases n
  {
    if n > 0 {
      var s, tail := Escapes(octets) + rest, Escapes(octets[1..]) + rest;
      Assoc(Escape(octets[0]), Escapes(octets[1..]), rest);
      TakeDrop(Escape(octets[0]), tail);
      UnescapeInvertsEscapes(octets[1..], rest, n - 1);
      TakeCons(octets, n - 1);
    }
  }

  // Whole strings

  /** The characters encodeURIComponent leaves alone. */
  predicate Unescaped(c: char) {
    'A' <= c <= 'Z' || 'a' <= c <= 'z' || '0' <= c <= '9'
    || c == '-' || c == '_' || c == '.' || c == '!' || c == '~' || c == '*' || c == '\'' || c == '(' || c == ')'
  }

  function EncodeChar(c: char): string {
    if Unescaped(c) then [c] else Escapes(Utf8(c))
  }

  function Encode(s: string): string {
    if s == [] then [] else EncodeChar(s[0]) + Encode(s[1..])
  }

  /** None stands for the URIError decodeURIComponent throws. */
  function Decode(s: string): Option<string> {
    if s == [] then Some([])
    else if s[0] != '%' then Prepend(s[0], Decode(s[1..]))
    else
      var first := Unescape(s, 1);
      if first.None? then None
      else
        var count := OctetCount(first.value[0]);
        var octets := Unescape(s, count);
        if count == 0 || octets.None? then None
        else
          UnescapeHead(s, count);
          var c := FromUtf8(octets.value);
          if c.None? then None else Prepend(c.value, Decode(s[3 * count..]))
  }

  function Prepend(c: char, rest: Option<string>): Option<string> {
    if rest.None? then None else Some([c] + rest.value)
  }

  /** Which characters stay as they are, by code point: letters, digits and the marks of the standard. */
  ghost predicate KeptByCode(n: int) {
    || 0x41 <= n <= 0x5A || 0x61 <= n <= 0x7A || 0x30 <= n <= 0x39
    || n == 0x21 || 0x27 <= n <= 0x2A || n == 0x2D || n == 0x2E || n == 0x5F || n == 0x7E
  }

  /** Any other character is spelled with one escape, in capital hexadecimal digits, for each of its octets. */
  lemma EncodeCharMeaning(c: char)
    ensures EncodeChar(c) == [c] <==> KeptByCode(c as int)
    ensures !KeptByCode(c as int) ==> |EncodeChar(c)| == 3 * |Utf8(c)|
    ensures !KeptByCode(c as int) ==> forall i :: 0 <= i < |Utf8(c)| ==>
              EncodeChar(c)[3 * i..3 * i + 3] == ['%', CAPITALS[Utf8(c)[i] / 16], CAPITALS[Utf8(c)[i] % 16]]
  {
    assert Unescaped(c) <==> KeptByCode(c as int);
    if !Unescaped(c) {
      forall i | 0 <= i < |Utf8(c)|
        ensures EncodeChar(c)[3 * i..3 * i + 3] == ['%', CAPITALS[Utf8(c)[i] / 16], CAPITALS[Utf8(c)[i] % 16]]
      {
        EscapesAt(Utf8(c), i);
      }
    }
  }

  const CAPITALS := "0123456789ABCDEF"

  lemma {:induction false} EscapesAt(octets: seq<byte>, i: nat)
    requires i < |octets|
    ensures Escapes(octets)[3 * i..3 * i + 3] == ['%', CAPITALS[octets[i] / 16], CAPITALS[octets[i] % 16]]
  {
    if i == 0 {
      HexDigitIsCapital(octets[0] / 16);
      HexDigitIsCapital(octets[0] % 16);
    } else {
      EscapesAt(octets[1..], i - 1);
      var s, tail := Escapes(octets), Escapes(octets[1..]);
      assert s[3 * i..3 * i + 3] == tail[3 * (i - 1)..3 * (i - 1) + 3];
    }
  }

  lemma HexDigitIsCapital(n: int)
    requires 0 <= n < 16
    ensures HexDigit(n) == CAPITALS[n]
  {
  }

  lemma UnescapeHead(s: string, n: nat)
    requires n > 0 && Unescape(s, n).Some?
    ensures Unescape(s, 1).Some? && Unescape(s, n).value[0] == Unescape(s, 1).value[0]
  {
    assert Unescape(s[3..], 0).Some?;
  }

  lemma DecodeEncodedChar(c: char, rest: string)
    ensures Decode(EncodeChar(c) + rest) == Prepend(c, Decode(rest))
  {
    var s := EncodeChar(c) + rest;
    if Unescaped(c) {
      TakeDrop([c], rest);
    } else {
      var octets := Utf8(c);
      Utf8RoundTrip(c);
      assert s[0] == Escape(octets[0])[0] == '%';
      UnescapeInvertsEscapes(octets, rest, 1);
      UnescapeInvertsEscapes(octets, rest, |octets|);
      assert octets[..|octets|] == octets;
      TakeDrop(Escapes(octets), rest);
    }
  }

  /** Decoding inverts encoding, for every string. */
  lemma {:induction false} DecodeInvertsEncode(s: string)
    ensures Decode(Encode(s)) == Some(s)
  {
    if s != [] {
      DecodeEncodedChar(s[0], Encode(s[1..]));
      DecodeInvertsEncode(s[1..]);
      assert [s[0]] + s[1..] == s;
    }
  }

  lemma {:induction false} EscapesHaveNoSlash(octets: seq<byte>)
    ensures '/' !in Escapes(octets)
  {
    if octets != [] {
      EscapesHaveNoSlash(octets[1..]);
    }
  }

  /** An encoded string can be joined with slashes. */
  lemma {:induction false} EncodedHasNoSlash(s: string)
    ensures '/' !in Encode(s)
  {
    if s != [] {
      EscapesHaveNoSlash(Utf8(s[0]));
      assert '/' !in EncodeChar(s[0]);
      EncodedHasNoSlash(s[1..]);
    }
  }

  // Everything that can be decoded

  /** A hexadecimal digit, in capitals or not. */
  ghost predicate IsDigit(c: char, n: int) {
    0 <= n < 16 && (c == CAPITALS[n] || c == "0123456789abcdef"[n])
  }

  ghost predicate SpellsOctets(s: string, octets: seq<byte>) {
    if octets == [] then s == []
    else
      && |s| >= 3 && s[0] == '%' && IsDigit(s[1], octets[0] / 16) && IsDigit(s[2], octets[0] % 16)
      && SpellsOctets(s[3..], octets[1..])
  }

  /** A character is spelled by itself, unless it is the percent sign, or by escapes for its octets. */
  ghost predicate SpellsChar(s: string, c: char) {
    (s == [c] && c != '%') || SpellsOctets(s, Utf8(c))
  }

  ghost predicate Spells(s: string, t: string) {
    if t == [] then s == []
    else exists k :: 0 < k <= |s| && SpellsChar(s[..k], t[0]) && Spells(s[k..], t[1..])
  }

  lemma DigitValue(c: char, n: int)
    requires 0 <= n < 16
    ensures IsDigit(c, n) <==> HexValue(c) == n
  {
  }

  lemma {:induction false} UnescapeSpelled(s: string, octets: seq<byte>, rest: string, n: nat)
    requires SpellsOctets(s, octets) && n <= |octets|
    ensures |s| == 3 * |octets| && Unescape(s + rest, n) == Some(octets[..n])
    decreases |octets|
  {
    if octets != [] {
      DigitValue(s[1], octets[0] / 16);
      DigitValue(s[2], octets[0] % 16);
      UnescapeSpelled(s[3..], octets[1..], rest, if n == 0 then 0 else n - 1);
      assert (s + rest)[3..] == s[3..] + rest;
      if n > 0 {
        TakeCons(octets, n - 1);
      }
    }
  }

  lemma {:induction false} UnescapedSpells(s: string, n: nat)
    requires Unescape(s, n).Some?
    ensures SpellsOctets(s[..3 * n], Unescape(s, n).value)
  {
    if n > 0 {
      var octets := Unescape(s, n).value;
      UnescapedSpells(s[3..], n - 1);
      assert s[3..][..3 * (n - 1)] == s[..3 * n][3..];
      DigitValue(s[1], octets[0] / 16);
      DigitValue(s[2], octets[0] % 16);
    }
  }

  lemma DecodeSpelled(s: string, c: char, rest: string)
    requires SpellsChar(s, c)
    ensures s != [] && Decode(s + rest) == Prepend(c, Decode(rest))
  {
    TakeDrop(s, rest);
    if s == [c] && c != '%' {
      assert (s + rest)[0] == c;
    } else {
      var octets := Utf8(c);
      Utf8RoundTrip(c);
      UnescapeSpelled(s, octets, rest, 1);
      UnescapeSpelled(s, octets, rest, |octets|);
      assert octets[..|octets|] == octets;
      assert (s + rest)[0] == s[0] == '%';
    }
  }

  /** A string decodes to exactly what it spells; one that spells nothing does not decode. */
  lemma DecodeMeaning(s: string, t: string)
    ensures Decode(s) == Some(t) <==> Spells(s, t)
  {
    if Spells(s, t) {
      SpelledDecodes(s, t);
    }
    if Decode(s) == Some(t) && s != [] {
      DecodedSpells(s, t);
    }
  }

  lemma {:induction false} SpelledDecodes(s: string, t: string)
    requires Spells(s, t)
    ensures Decode(s) == Some(t)
    decreases |s|
  {
    hide SpellsChar;
    if t != [] {
      var k :| 0 < k <= |s| && SpellsChar(s[..k], t[0]) && Spells(s[k..], t[1..]);
      DecodeSpelled(s[..k], t[0], s[k..]);
      SpelledDecodes(s[k..], t[1..]);
      assert s[..k] + s[k..] == s && [t[0]] + t[1..] == t;
    }
  }

  lemma {:induction false} DecodedSpells(s: string, t: string)
    requires Decode(s) == Some(t) && s != []
    ensures Spells(s, t)
    decreases |s|
  {
    var k := 1;
    if s[0] != '%' {
      assert s[..1] == [s[0]];
    } else {
      var count := OctetCount(Unescape(s, 1).value[0]);
      k := 3 * count;
      UnescapeHead(s, count);
      UnescapedSpells(s, count);
      Utf8Canonical(Unescape(s, count).value);
    }
    assert SpellsChar(s[..k], t[0]);
    assert Decode(s[k..]) == Some(t[1..]);
    if s[k..] != [] {
      DecodedSpells(s[k..], t[1..]);
    }
    assert Spells(s[k..], t[1..]);
  }
}
