/** `encodeURIComponent` and its inverse `decodeURIComponent` (ECMAScript
    2015, sections 18.2.6.1 and 18.2.6.5, with the percent-encoding of
    section 2.1 of RFC 3986): characters of the unreserved set stand for
    themselves, every other character becomes the UTF-8 bytes of its code
    point, each written "%XY" in upper-case hexadecimal.

    Dafny's `char` is a Unicode scalar value, so the lone surrogates for
    which `encodeURIComponent` throws cannot occur. */
module Uri {
  import opened Wrappers

  newtype byte = b: int | 0 <= b < 256

  /** The characters `encodeURIComponent` leaves alone: ASCII letters and
      digits and `- _ . ! ~ * ' ( )`. */
  predicate Unreserved(c: char) {
    || ('A' <= c <= 'Z') || ('a' <= c <= 'z') || ('0' <= c <= '9')
    || c == '-' || c == '_' || c == '.' || c == '!' || c == '~' || c == '*' || c == '\'' || c == '(' || c == ')'
  }

  // ---------------------------------------------------------------------
  // UTF-8

  /** The UTF-8 encoding of one code point: 1 to 4 bytes. */
  function Utf8(c: char): (r: seq<byte>)
    ensures 1 <= |r| <= 4
    ensures |r| == 1 <==> (c as int) < 0x80
  {
    var n := c as int;
    if n < 0x80 then [n as byte]
    else if n < 0x800 then [(0xC0 + n / 64) as byte, (0x80 + n % 64) as byte]
    else if n < 0x10000 then [(0xE0 + n / 4096) as byte, (0x80 + (n / 64) % 64) as byte, (0x80 + n % 64) as byte]
    else [(0xF0 + n / 262144) as byte, (0x80 + (n / 4096) % 64) as byte, (0x80 + (n / 64) % 64) as byte,
          (0x80 + n % 64) as byte]
  }

  /** How many bytes a sequence starting with lead byte `b` has (0: not a
      lead byte). */
  function LeadLength(b: byte): nat {
    if b < 0x80 then 1
    else if 0xC0 <= b < 0xE0 then 2
    else if 0xE0 <= b < 0xF0 then 3
    else if 0xF0 <= b < 0xF8 then 4
    else 0
  }

  predicate Continuation(b: byte) {
    0x80 <= b < 0xC0
  }

  /** Decodes a complete multi-byte sequence, rejecting what is not the
      shortest encoding of a scalar value (overlong forms, surrogates, values
      above U+10FFFF). */
  function Utf8Decode(bs: seq<byte>): Option<char> {
    if |bs| == 2 && LeadLength(bs[0]) == 2 && Continuation(bs[1]) then
      var v := (bs[0] as int - 0xC0) * 64 + (bs[1] as int - 0x80);
      if v >= 0x80 then Some(v as char) else None
    else if |bs| == 3 && LeadLength(bs[0]) == 3 && Continuation(bs[1]) && Continuation(bs[2]) then
      var v := (bs[0] as int - 0xE0) * 4096 + (bs[1] as int - 0x80) * 64 + (bs[2] as int - 0x80);
      if v >= 0x800 && !(0xD800 <= v < 0xE000) then Some(v as char) else None
    else if |bs| == 4 && LeadLength(bs[0]) == 4 && Continuation(bs[1]) && Continuation(bs[2]) && Continuation(bs[3]) then
      var v := (bs[0] as int - 0xF0) * 262144 + (bs[1] as int - 0x80) * 4096 + (bs[2] as int - 0x80) * 64
               + (bs[3] as int - 0x80);
      if 0x10000 <= v < 0x110000 then Some(v as char) else None
    else None
  }

  lemma Utf8RoundTrip2(n: int)
    requires 0x80 <= n < 0x800
    ensures var bs := [(0xC0 + n / 64) as byte, (0x80 + n % 64) as byte];
      LeadLength(bs[0]) == 2 && Continuation(bs[1]) && (bs[0] as int - 0xC0) * 64 + (bs[1] as int - 0x80) == n
  {
    assert n == (n / 64) * 64 + n % 64;
  }

  lemma Utf8RoundTrip3(n: int)
    requires 0x800 <= n < 0x10000
    ensures var bs := [(0xE0 + n / 4096) as byte, (0x80 + (n / 64) % 64) as byte, (0x80 + n % 64) as byte];
      && LeadLength(bs[0]) == 3 && Continuation(bs[1]) && Continuation(bs[2])
      && (bs[0] as int - 0xE0) * 4096 + (bs[1] as int - 0x80) * 64 + (bs[2] as int - 0x80) == n
  {
    assert n / 64 == (n / 4096) * 64 + (n / 64) % 64;
    assert n == (n / 64) * 64 + n % 64;
  }

  lemma Utf8RoundTrip4(n: int)
    requires 0x10000 <= n < 0x110000
    ensures var bs := [(0xF0 + n / 262144) as byte, (0x80 + (n / 4096) % 64) as byte, (0x80 + (n / 64) % 64) as byte,
                       (0x80 + n % 64) as byte];
      && LeadLength(bs[0]) == 4 && Continuation(bs[1]) && Continuation(bs[2]) && Continuation(bs[3])
      && (bs[0] as int - 0xF0) * 262144 + (bs[1] as int - 0x80) * 4096 + (bs[2] as int - 0x80) * 64
         + (bs[3] as int - 0x80) == n
  {
    assert n / 4096 == (n / 262144) * 64 + (n / 4096) % 64;
    assert n / 64 == (n / 4096) * 64 + (n / 64) % 64;
    assert n == (n / 64) * 64 + n % 64;
  }

  /** A multi-byte encoding decodes back to its code point. */
  lemma Utf8RoundTrip(c: char)
    requires (c as int) >= 0x80
    ensures LeadLength(Utf8(c)[0]) == |Utf8(c)|
    ensures Utf8Decode(Utf8(c)) == Some(c)
  {
    var n := c as int;
    if n < 0x800 {
      Utf8RoundTrip2(n);
    } else if n < 0x10000 {
      Utf8RoundTrip3(n);
    } else {
      Utf8RoundTrip4(n);
    }
  }

  // ---------------------------------------------------------------------
  // Percent-encoding

  /** An upper-case hexadecimal digit. */
  function HexDigit(d: nat): char
    requires d < 16
  {
    if d < 10 then ('0' as int + d) as char else ('A' as int + d - 10) as char
  }

  function HexValue(c: char): Option<nat> {
    if '0' <= c <= '9' then Some(c as int - '0' as int)
    else if 'A' <= c <= 'F' then Some(c as int - 'A' as int + 10)
    else if 'a' <= c <= 'f' then Some(c as int - 'a' as int + 10)
    else None
  }

  /** "%XY" for one byte. */
  function Escape(b: byte): (r: string)
    ensures |r| == 3 && r[0] == '%'
  {
    ['%', HexDigit((b / 16) as nat), HexDigit((b % 16) as nat)]
  }

  function EscapeAll(bs: seq<byte>): (r: string)
    ensures |r| == 3 * |bs|
  {
    if bs == [] then [] else Escape(bs[0]) + EscapeAll(bs[1..])
  }

  /** The byte of the "%XY" group at the start of `s`, if there is one. */
  function PercentByte(s: string): Option<byte> {
    if |s| >= 3 && s[0] == '%' && HexValue(s[1]).Some? && HexValue(s[2]).Some?
    then Some((HexValue(s[1]).value * 16 + HexValue(s[2]).value) as byte)
    else None
  }

  /** The bytes of `n` consecutive "%XY" groups at the start of `s`. */
  function PercentBytes(s: string, n: nat): Option<seq<byte>>
    decreases n
  {
    if n == 0 then Some([])
    else if |s| < 3 then None
    else
      match PercentByte(s)
      case None => None
      case Some(b) =>
        match PercentBytes(s[3..], n - 1)
        case None => None
        case Some(rest) => Some([b] + rest)
  }

  lemma HexRoundTrip(d: nat)
    requires d < 16
    ensures HexValue(HexDigit(d)) == Some(d)
  {
  }

  lemma EscapeRoundTrip(b: byte, rest: string)
    ensures PercentByte(Escape(b) + rest) == Some(b)
  {
    var s := Escape(b) + rest;
    var hi, lo := (b / 16) as nat, (b % 16) as nat;
    assert s[1] == HexDigit(hi) && s[2] == HexDigit(lo);
    HexRoundTrip(hi);
    HexRoundTrip(lo);
    assert hi * 16 + lo == b as int;
  }

  lemma {:induction false} EscapeAllRoundTrip(bs: seq<byte>, rest: string)
    ensures PercentBytes(EscapeAll(bs) + rest, |bs|) == Some(bs)
    decreases |bs|
  {
    if bs != [] {
      var tail := EscapeAll(bs[1..]) + rest;
      var s := EscapeAll(bs) + rest;
      assert s == Escape(bs[0]) + tail;
      EscapeRoundTrip(bs[0], tail);
      assert PercentByte(s) == Some(bs[0]);
      assert s[3..] == tail;
      EscapeAllRoundTrip(bs[1..], rest);
      assert PercentBytes(tail, |bs| - 1) == Some(bs[1..]);
      assert [bs[0]] + bs[1..] == bs;
    }
  }

  // ---------------------------------------------------------------------
  // encodeURIComponent / decodeURIComponent

  function EncodeChar(c: char): (r: string)
    ensures 1 <= |r|
    ensures |r| == 1 <==> Unreserved(c)
  {
    if Unreserved(c) then [c] else EscapeAll(Utf8(c))
  }

  /** `encodeURIComponent(s)` */
  function Encode(s: string): (r: string)
    ensures |r| >= |s|
  {
    if s == [] then [] else EncodeChar(s[0]) + Encode(s[1..])
  }

  /** Decodes the "%XY" groups of one code point at the start of `s`: the
      character and how many characters of `s` it took. */
  function DecodeGroup(s: string): (r: Option<(char, nat)>)
    ensures r.Some? ==> 3 <= r.value.1 <= |s|
  {
    match PercentByte(s)
    case None => None
    case Some(b0) =>
      var n := LeadLength(b0);
      if n == 0 || |s| < 3 * n then None
      else if n == 1 then Some((b0 as int as char, 3))
      else
        match PercentBytes(s, n)
        case None => None
        case Some(bs) =>
          match Utf8Decode(bs)
          case None => None
          case Some(ch) => Some((ch, 3 * n))
  }

  /** `decodeURIComponent(s)`; None where it throws URIError (a malformed
      "%" group or a byte sequence that is not UTF-8). */
  function Decode(s: string): Option<string>
    decreases |s|
  {
    if s == [] then Some([])
    else
      var step: Option<(char, nat)> := if s[0] != '%' then Some((s[0], 1)) else DecodeGroup(s);
      match step
      case None => None
      case Some((ch, k)) =>
        match Decode(s[k..])
        case None => None
        case Some(t) => Some([ch] + t)
  }

  /** The escaped form of a reserved character decodes back to it. */
  lemma DecodeGroupEscaped(c: char, rest: string)
    requires !Unreserved(c)
    ensures DecodeGroup(EncodeChar(c) + rest) == Some((c, |EncodeChar(c)|))
  {
    var bs := Utf8(c);
    var e := EncodeChar(c) + rest;
    var tail := EscapeAll(bs[1..]) + rest;
    assert e == Escape(bs[0]) + tail;
    EscapeRoundTrip(bs[0], tail);
    assert PercentByte(e) == Some(bs[0]);
    if (c as int) < 0x80 {
      assert LeadLength(bs[0]) == 1 && bs[0] as int as char == c;
    } else {
      Utf8RoundTrip(c);
      EscapeAllRoundTrip(bs, rest);
      assert PercentBytes(e, |bs|) == Some(bs);
    }
  }

  /** Decoding undoes encoding, for every string. */
  lemma {:induction false} DecodeEncode(s: string)
    ensures Decode(Encode(s)) == Some(s)
    decreases |s|
  {
    if s != [] {
      var c := s[0];
      var rest := Encode(s[1..]);
      var e := EncodeChar(c) + rest;
      assert Encode(s) == e;
      DecodeEncode(s[1..]);
      if Unreserved(c) {
        assert e[0] == c && e[1..] == rest;
      } else {
        DecodeGroupEscaped(c, rest);
        assert e[0] == '%';
        assert e[|EncodeChar(c)|..] == rest;
      }
      assert [c] + s[1..] == s;
    }
  }

  /** The encoding only uses unreserved characters and '%'; in particular it
      never contains the query-string separators '&' and '='. */
  lemma {:induction false} EncodeAlphabet(s: string)
    ensures forall i :: 0 <= i < |Encode(s)| ==> Unreserved(Encode(s)[i]) || Encode(s)[i] == '%'
    decreases |s|
  {
    if s != [] {
      EncodeAlphabet(s[1..]);
      var c := s[0];
      if !Unreserved(c) {
        EscapeAllAlphabet(Utf8(c));
      }
    }
  }

  lemma {:induction false} EscapeAllAlphabet(bs: seq<byte>)
    ensures forall i :: 0 <= i < |EscapeAll(bs)| ==> Unreserved(EscapeAll(bs)[i]) || EscapeAll(bs)[i] == '%'
    decreases |bs|
  {
    if bs != [] {
      EscapeAllAlphabet(bs[1..]);
      var e := Escape(bs[0]);
      assert Unreserved(e[1]) && Unreserved(e[2]);
    }
  }

  /** A string is its own encoding exactly when it is all unreserved
      characters; otherwise the encoding is longer. */
  lemma {:induction false} EncodeIdentity(s: string)
    ensures Encode(s) == s <==> forall i :: 0 <= i < |s| ==> Unreserved(s[i])
    ensures Encode(s) != s ==> |Encode(s)| > |s|
    decreases |s|
  {
    if s != [] {
      EncodeIdentity(s[1..]);
      if !Unreserved(s[0]) {
        assert |Encode(s)| > |s|;
      } else if Encode(s[1..]) == s[1..] {
        assert Encode(s) == s;
        forall i | 0 <= i < |s| ensures Unreserved(s[i]) {
          if i > 0 { assert s[i] == s[1..][i - 1]; }
        }
      } else {
        assert s[1..][0] == s[1];
        var i :| 0 <= i < |s[1..]| && !Unreserved(s[1..][i]);
        assert !Unreserved(s[i + 1]);
      }
    }
  }

  lemma EncodeExamples()
    ensures Encode("a b") == "a%20b"
  {
    assert Encode("b") == "b";
    assert Encode(" b") == "%20b";
  }

  lemma EncodeNonAscii()
    ensures Encode("é") == "%C3%A9"
  {
    assert Utf8('é') == [0xC3, 0xA9];
  }

  lemma EncodeSeparators()
    ensures Encode("a&b=c") == "a%26b%3Dc"
  {
    assert Encode("c") == "c";
    assert Encode("=c") == "%3Dc";
    assert Encode("b=c") == "b%3Dc";
    assert Encode("&b=c") == "%26b%3Dc";
  }
}
