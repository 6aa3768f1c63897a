/**
 * Text to bytes to text, as the launch-template user data is produced:
 * Python's `str.encode()` (UTF-8) followed by `base64.b64encode` (the
 * standard alphabet with `=` padding of section 4 of RFC 4648).
 * The decoder is the independent partner the encoder is checked against.
 */
module Base64 {
  import opened Wrappers

  type byte = x: int | 0 <= x < 256

  /** UTF-8 encoding of one Unicode scalar value. */
  function Utf8Char(c: char): (bs: seq<byte>)
    ensures 1 <= |bs| <= 4
    ensures c as int < 0x80 ==> bs == [c as int]
  {
    var n := c as int;
    if n < 0x80 then [n]
    else if n < 0x800 then [0xC0 + n / 0x40, 0x80 + n % 0x40]
    else if n < 0x1_0000 then [0xE0 + n / 0x1000, 0x80 + (n / 0x40) % 0x40, 0x80 + n % 0x40]
    else [0xF0 + n / 0x4_0000, 0x80 + (n / 0x1000) % 0x40, 0x80 + (n / 0x40) % 0x40, 0x80 + n % 0x40]
  }

  /** Python's `s.encode()`: the UTF-8 bytes of a string. */
  function Utf8Encode(s: string): (bs: seq<byte>)
    ensures |s| <= |bs| <= 4 * |s|
  {
    if s == [] then [] else Utf8Char(s[0]) + Utf8Encode(s[1..])
  }

  predicate IsAscii(s: string) {
    forall i :: 0 <= i < |s| ==> s[i] as int < 0x80
  }

  /** ASCII text encodes to its character codes, one byte per character. */
  lemma {:induction false} Utf8EncodeAscii(s: string)
    requires IsAscii(s)
    ensures |Utf8Encode(s)| == |s|
    ensures forall i :: 0 <= i < |s| ==> Utf8Encode(s)[i] == s[i] as int
  {
    if s != [] {
      Utf8EncodeAscii(s[1..]);
    }
  }

  /**
   * An output symbol: a 6-bit value, or 64 for the padding character `=`.
   * Encoding works on symbols; the alphabet is applied at the end.
   */
  type symbol = x: int | 0 <= x <= 64

  /** The base64 alphabet (section 4 of RFC 4648), with `=` for padding. */
  function SymbolChar(v: symbol): char {
    if v < 26 then ('A' as int + v) as char
    else if v < 52 then ('a' as int + (v - 26)) as char
    else if v < 62 then ('0' as int + (v - 52)) as char
    else if v == 62 then '+'
    else if v == 63 then '/'
    else '='
  }

  /** The inverse of the alphabet; `None` for a character outside it. */
  function CharSymbol(c: char): (r: Option<symbol>)
    ensures r.Some? ==> SymbolChar(r.value) == c
  {
    if 'A' <= c <= 'Z' then Some(c as int - 'A' as int)
    else if 'a' <= c <= 'z' then Some(c as int - 'a' as int + 26)
    else if '0' <= c <= '9' then Some(c as int - '0' as int + 52)
    else if c == '+' then Some(62)
    else if c == '/' then Some(63)
    else if c == '=' then Some(64)
    else None
  }

  lemma SymbolCharRoundTrip(v: symbol)
    ensures CharSymbol(SymbolChar(v)) == Some(v)
  {
  }

  function Chars(vs: seq<symbol>): (s: string)
    ensures |s| == |vs|
  {
    if vs == [] then [] else [SymbolChar(vs[0])] + Chars(vs[1..])
  }

  function Symbols(s: string): (r: Option<seq<symbol>>)
    ensures r.Some? ==> |r.value| == |s|
  {
    if s == [] then Some([])
    else match (CharSymbol(s[0]), Symbols(s[1..]))
      case (Some(v), Some(vs)) => Some([v] + vs)
      case _ => None
  }

  lemma {:induction false} SymbolsOfChars(vs: seq<symbol>)
    ensures Symbols(Chars(vs)) == Some(vs)
  {
    if vs != [] {
      SymbolCharRoundTrip(vs[0]);
      SymbolsOfChars(vs[1..]);
      assert Chars(vs)[1..] == Chars(vs[1..]);
      assert [vs[0]] + vs[1..] == vs;
    }
  }

  /** Three bytes as four 6-bit symbols. */
  function Enc3(b0: byte, b1: byte, b2: byte): seq<symbol> {
    [b0 / 4, (b0 % 4) * 16 + b1 / 16, (b1 % 16) * 4 + b2 / 64, b2 % 64]
  }

  /** A last group of two bytes: three symbols and one `=`. */
  function Enc2(b0: byte, b1: byte): seq<symbol> {
    [b0 / 4, (b0 % 4) * 16 + b1 / 16, (b1 % 16) * 4, 64]
  }

  /** A last group of one byte: two symbols and `==`. */
  function Enc1(b0: byte): seq<symbol> {
    [b0 / 4, (b0 % 4) * 16, 64, 64]
  }

  /** Three bytes (or a padded tail of one or two) as four symbols. */
  function EncodeSymbols(bs: seq<byte>): (vs: seq<symbol>)
    ensures |vs| % 4 == 0
    ensures bs != [] ==> |vs| >= 4
    decreases |bs|
  {
    if |bs| == 0 then []
    else if |bs| == 1 then Enc1(bs[0])
    else if |bs| == 2 then Enc2(bs[0], bs[1])
    else Enc3(bs[0], bs[1], bs[2]) + EncodeSymbols(bs[3..])
  }

  /** `base64.b64encode`: three bytes become four characters, a short tail is padded with `=`. */
  function Encode(bs: seq<byte>): (s: string)
    ensures |s| % 4 == 0
    ensures bs != [] ==> s != []
  {
    Chars(EncodeSymbols(bs))
  }

  /** Four characters for every started group of three bytes. */
  lemma {:induction false} EncodeLength(bs: seq<byte>)
    ensures |Encode(bs)| == 4 * ((|bs| + 2) / 3)
    decreases |bs|
  {
    if |bs| >= 3 {
      EncodeLength(bs[3..]);
      assert EncodeSymbols(bs) == EncodeSymbols(bs)[..4] + EncodeSymbols(bs[3..]);
    }
  }

  /** Decoding of one group of four symbols; only the `last` group may hold padding. */
  function DecodeGroup(g: seq<symbol>, last: bool): Option<seq<byte>>
    requires |g| == 4
  {
    var v0, v1, v2, v3 := g[0] as int, g[1] as int, g[2] as int, g[3] as int;
    if v0 == 64 || v1 == 64 then None
    else
      var b0: byte := v0 * 4 + v1 / 16;
      if v2 == 64 then
        if last && v3 == 64 then Some([b0]) else None
      else
        var b1: byte := (v1 % 16) * 16 + v2 / 4;
        if v3 == 64 then
          if last then Some([b0, b1]) else None
        else
          var b2: byte := (v2 % 4) * 64 + v3;
          Some([b0, b1, b2])
  }

  function DecodeSymbols(vs: seq<symbol>): Option<seq<byte>>
    decreases |vs|
  {
    if |vs| == 0 then Some([])
    else if |vs| < 4 then None
    else
      match (DecodeGroup(vs[..4], |vs| == 4), DecodeSymbols(vs[4..]))
      case (Some(head), Some(tail)) => Some(head + tail)
      case _ => None
  }

  /** `base64.b64decode` on well-formed input: the inverse of `Encode`. */
  function Decode(s: string): Option<seq<byte>> {
    match Symbols(s)
    case Some(vs) => DecodeSymbols(vs)
    case None => None
  }

  /** Every character of an encoding is from the alphabet or is the padding `=`. */
  lemma EncodeUsesAlphabet(bs: seq<byte>)
    ensures Symbols(Encode(bs)).Some?
  {
    SymbolsOfChars(EncodeSymbols(bs));
  }

  /** A full group of three bytes decodes to those bytes. */
  lemma FullGroupRoundTrip(b0: byte, b1: byte, b2: byte, last: bool)
    ensures DecodeGroup(Enc3(b0, b1, b2), last) == Some([b0, b1, b2])
  {
    var s0, s1, s2, s3 := b0 / 4, (b0 % 4) * 16 + b1 / 16, (b1 % 16) * 4 + b2 / 64, b2 % 64;
    assert s1 / 16 == b0 % 4 && s1 % 16 == b1 / 16;
    assert s2 / 4 == b1 % 16 && s2 % 4 == b2 / 64;
    assert s0 * 4 + s1 / 16 == b0;
    assert (s1 % 16) * 16 + s2 / 4 == b1;
    assert (s2 % 4) * 64 + s3 == b2;
    assert Enc3(b0, b1, b2) == [s0, s1, s2, s3];
  }

  /** A last group of two bytes, padded with one `=`, decodes to those bytes. */
  lemma TwoByteGroupRoundTrip(b0: byte, b1: byte)
    ensures DecodeGroup(Enc2(b0, b1), true) == Some([b0, b1])
  {
    var s1, s2 := (b0 % 4) * 16 + b1 / 16, (b1 % 16) * 4;
    assert s1 / 16 == b0 % 4 && s1 % 16 == b1 / 16;
    assert s2 / 4 == b1 % 16;
    assert (b0 / 4) * 4 + b0 % 4 == b0;
    assert (b1 / 16) * 16 + b1 % 16 == b1;
  }

  /** A last group of one byte, padded with `==`, decodes to that byte. */
  lemma OneByteGroupRoundTrip(b0: byte)
    ensures DecodeGroup(Enc1(b0), true) == Some([b0])
  {
    assert ((b0 % 4) * 16) / 16 == b0 % 4;
    assert (b0 / 4) * 4 + b0 % 4 == b0;
  }

  /** Decoding a group followed by more symbols. */
  lemma DecodeSymbolsCons(g: seq<symbol>, rest: seq<symbol>, head: seq<byte>, tail: seq<byte>)
    requires |g| == 4
    requires DecodeGroup(g, rest == []) == Some(head)
    requires DecodeSymbols(rest) == Some(tail)
    ensures DecodeSymbols(g + rest) == Some(head + tail)
  {
    var vs := g + rest;
    assert vs[..4] == g && vs[4..] == rest;
  }

  /** A last group of one byte: `xx==`. */
  lemma DecodeEncodeOne(bs: seq<byte>)
    requires |bs| == 1
    ensures DecodeSymbols(EncodeSymbols(bs)) == Some(bs)
  {
    var g := Enc1(bs[0]);
    OneByteGroupRoundTrip(bs[0]);
    DecodeSymbolsCons(g, [], [bs[0]], []);
    assert g + [] == g && [bs[0]] + [] == bs;
  }

  /** A last group of two bytes: `xxx=`. */
  lemma DecodeEncodeTwo(bs: seq<byte>)
    requires |bs| == 2
    ensures DecodeSymbols(EncodeSymbols(bs)) == Some(bs)
  {
    var g := Enc2(bs[0], bs[1]);
    TwoByteGroupRoundTrip(bs[0], bs[1]);
    DecodeSymbolsCons(g, [], [bs[0], bs[1]], []);
    assert g + [] == g && [bs[0], bs[1]] + [] == bs;
  }

  lemma SplitThree(bs: seq<byte>)
    requires |bs| >= 3
    ensures [bs[0], bs[1], bs[2]] + bs[3..] == bs
  {
  }

  /** A full group in front of a tail whose round trip is known. */
  lemma DecodeEncodeStep(bs: seq<byte>)
    requires |bs| >= 3
    requires DecodeSymbols(EncodeSymbols(bs[3..])) == Some(bs[3..])
    ensures DecodeSymbols(EncodeSymbols(bs)) == Some(bs)
  {
    var g := Enc3(bs[0], bs[1], bs[2]);
    var rest := EncodeSymbols(bs[3..]);
    assert EncodeSymbols(bs) == g + rest;
    FullGroupRoundTrip(bs[0], bs[1], bs[2], rest == []);
    DecodeSymbolsCons(g, rest, [bs[0], bs[1], bs[2]], bs[3..]);
    SplitThree(bs);
  }

  /** Decoding the symbols of an encoding gives back the bytes. */
  lemma {:induction false} DecodeEncodeSymbols(bs: seq<byte>)
    ensures DecodeSymbols(EncodeSymbols(bs)) == Some(bs)
    decreases |bs|
  {
    if |bs| >= 3 {
      DecodeEncodeSymbols(bs[3..]);
      DecodeEncodeStep(bs);
    } else if |bs| == 2 {
      DecodeEncodeTwo(bs);
    } else if |bs| == 1 {
      DecodeEncodeOne(bs);
    }
  }

  /** Decoding an encoding gives back the bytes that were encoded. */
  lemma DecodeEncode(bs: seq<byte>)
    ensures Decode(Encode(bs)) == Some(bs)
  {
    SymbolsOfChars(EncodeSymbols(bs));
    DecodeEncodeSymbols(bs);
  }

  /** A non-empty input never encodes to the empty (falsy) string. */
  lemma EncodeNonEmpty(bs: seq<byte>)
    requires bs != []
    ensures Encode(bs) != []
  {
  }
}
