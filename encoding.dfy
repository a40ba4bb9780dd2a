/**
 * The two encodings behind the Basic authorization header:
 * `str.encode()` (UTF-8) and `base64.b64encode` (the base 64 alphabet of
 * section 4 of RFC 4648, with `=` padding). A decoder is given as the
 * partner of the encoder: a server that receives the header recovers
 * exactly the bytes the client encoded.
 */
module Encoding {

  newtype uint8 = x: int | 0 <= x < 256

  // ---------------------------------------------------------------------
  // UTF-8

  /** The UTF-8 bytes of one Unicode scalar value. */
  function Utf8Char(c: char): (bs: seq<uint8>)
    ensures 1 <= |bs| <= 4
    ensures c as int < 0x80 ==> bs == [c as int as uint8]
  {
    var n := c as int;
    if n < 0x80 then [n as uint8]
    else if n < 0x800 then [(0xC0 + n / 64) as uint8, (0x80 + n % 64) as uint8]
    else if n < 0x10000 then
      [(0xE0 + n / 4096) as uint8, (0x80 + (n / 64) % 64) as uint8, (0x80 + n % 64) as uint8]
    else
      [(0xF0 + n / 262144) as uint8, (0x80 + (n / 4096) % 64) as uint8,
       (0x80 + (n / 64) % 64) as uint8, (0x80 + n % 64) as uint8]
  }

  /** `s.encode()`: UTF-8, character by character. */
  function Utf8(s: string): (bs: seq<uint8>)
    ensures |s| <= |bs| <= 4 * |s|
  {
    if s == [] then [] else Utf8Char(s[0]) + Utf8(s[1..])
  }

  /** Encoding a concatenation is concatenating the encodings. */
  lemma {:induction false} Utf8Append(a: string, b: string)
    ensures Utf8(a + b) == Utf8(a) + Utf8(b)
  {
    if a == [] {
      assert a + b == b;
    } else {
      assert (a + b)[0] == a[0];
      assert (a + b)[1..] == a[1..] + b;
      Utf8Append(a[1..], b);
    }
  }

  /** An ASCII string is encoded as its own character codes, one byte each. */
  lemma {:induction false} Utf8Ascii(s: string)
    requires forall i :: 0 <= i < |s| ==> s[i] as int < 0x80
    ensures |Utf8(s)| == |s|
    ensures forall i :: 0 <= i < |s| ==> Utf8(s)[i] as int == s[i] as int
  {
    if s != [] {
      Utf8Ascii(s[1..]);
    }
  }

  // ---------------------------------------------------------------------
  // Base 64 (RFC 4648, section 4)

  type sextet = x: int | 0 <= x < 64

  /** The character of the base 64 alphabet for a 6-bit value. */
  function Symbol(v: sextet): (c: char)
    ensures c != '='
  {
    if v < 26 then ('A' as int + v) as char
    else if v < 52 then ('a' as int + (v - 26)) as char
    else if v < 62 then ('0' as int + (v - 52)) as char
    else if v == 62 then '+'
    else '/'
  }

  /** The 6-bit value of a character of the base 64 alphabet, if it is one. */
  function SymbolValue(c: char): Option6 {
    if 'A' <= c <= 'Z' then Some6(c as int - 'A' as int)
    else if 'a' <= c <= 'z' then Some6(c as int - 'a' as int + 26)
    else if '0' <= c <= '9' then Some6(c as int - '0' as int + 52)
    else if c == '+' then Some6(62)
    else if c == '/' then Some6(63)
    else None6
  }

  datatype Option6 = None6 | Some6(v: sextet)

  lemma SymbolValueOfSymbol(v: sextet)
    ensures SymbolValue(Symbol(v)) == Some6(v)
  {
  }

  /** Three bytes become four symbols. */
  function EncodeBlock(b0: uint8, b1: uint8, b2: uint8): (s: string)
    ensures |s| == 4
  {
    [Symbol(b0 as int / 4),
     Symbol((b0 as int % 4) * 16 + b1 as int / 16),
     Symbol((b1 as int % 16) * 4 + b2 as int / 64),
     Symbol(b2 as int % 64)]
  }

  /** `base64.b64encode(bs).decode()`. */
  function Base64Encode(bs: seq<uint8>): (s: string)
    ensures |s| == 4 * ((|bs| + 2) / 3)
  {
    if |bs| == 0 then ""
    else if |bs| == 1 then
      [Symbol(bs[0] as int / 4), Symbol((bs[0] as int % 4) * 16), '=', '=']
    else if |bs| == 2 then
      [Symbol(bs[0] as int / 4), Symbol((bs[0] as int % 4) * 16 + bs[1] as int / 16),
       Symbol((bs[1] as int % 16) * 4), '=']
    else EncodeBlock(bs[0], bs[1], bs[2]) + Base64Encode(bs[3..])
  }

  datatype Decoded = Invalid | Bytes(bs: seq<uint8>)

  /** Four symbols back to three bytes, or fewer when the block is padded. */
  function DecodeBlock(s: string): Decoded
    requires |s| == 4
  {
    match (SymbolValue(s[0]), SymbolValue(s[1]))
    case (Some6(c0), Some6(c1)) =>
      var b0 := (c0 * 4 + c1 / 16) as uint8;
      if s[2] == '=' && s[3] == '=' then Bytes([b0])
      else
        (match SymbolValue(s[2])
         case Some6(c2) =>
           var b1 := ((c1 % 16) * 16 + c2 / 4) as uint8;
           if s[3] == '=' then Bytes([b0, b1])
           else
             (match SymbolValue(s[3])
              case Some6(c3) => Bytes([b0, b1, ((c2 % 4) * 64 + c3) as uint8])
              case None6 => Invalid)
         case None6 => Invalid)
    case _ => Invalid
  }

  /** The decoder of RFC 4648 section 4 (padding only in the last block). */
  function Base64Decode(s: string): Decoded
    decreases |s|
  {
    if s == [] then Bytes([])
    else if |s| < 4 then Invalid
    else
      match DecodeBlock(s[..4])
      case Invalid => Invalid
      case Bytes(head) =>
        if |head| < 3 && |s| > 4 then Invalid
        else
          (match Base64Decode(s[4..])
           case Invalid => Invalid
           case Bytes(tail) => Bytes(head + tail))
  }

  lemma DecodeEncodeBlock(b0: uint8, b1: uint8, b2: uint8)
    ensures DecodeBlock(EncodeBlock(b0, b1, b2)) == Bytes([b0, b1, b2])
  {
    var s := EncodeBlock(b0, b1, b2);
    var c0, c1, c2, c3 := b0 as int / 4, (b0 as int % 4) * 16 + b1 as int / 16,
                          (b1 as int % 16) * 4 + b2 as int / 64, b2 as int % 64;
    SymbolValueOfSymbol(c0);
    SymbolValueOfSymbol(c1);
    SymbolValueOfSymbol(c2);
    SymbolValueOfSymbol(c3);
    assert c0 * 4 + c1 / 16 == b0 as int;
    assert (c1 % 16) * 16 + c2 / 4 == b1 as int;
    assert (c2 % 4) * 64 + c3 == b2 as int;
  }

  lemma DecodeOneByte(b0: uint8)
    ensures Base64Decode(Base64Encode([b0])) == Bytes([b0])
  {
    var s := Base64Encode([b0]);
    var c0, c1 := b0 as int / 4, (b0 as int % 4) * 16;
    SymbolValueOfSymbol(c0);
    SymbolValueOfSymbol(c1);
    assert s[..4] == s && s[4..] == [];
    assert c0 * 4 + c1 / 16 == b0 as int;
    assert DecodeBlock(s) == Bytes([b0]);
  }

  lemma DecodeTwoBytes(b0: uint8, b1: uint8)
    ensures Base64Decode(Base64Encode([b0, b1])) == Bytes([b0, b1])
  {
    var s := Base64Encode([b0, b1]);
    var c0, c1, c2 := b0 as int / 4, (b0 as int % 4) * 16 + b1 as int / 16, (b1 as int % 16) * 4;
    SymbolValueOfSymbol(c0);
    SymbolValueOfSymbol(c1);
    SymbolValueOfSymbol(c2);
    assert s[..4] == s && s[4..] == [];
    assert c0 * 4 + c1 / 16 == b0 as int;
    assert (c1 % 16) * 16 + c2 / 4 == b1 as int;
    assert DecodeBlock(s) == Bytes([b0, b1]);
  }

  /** A full leading block is decoded on its own, then the rest. */
  lemma DecodeFullBlockThen(block: string, rest: string, head: seq<uint8>)
    requires |block| == 4 && DecodeBlock(block) == Bytes(head) && |head| == 3
    ensures Base64Decode(block + rest) ==
      match Base64Decode(rest) case Invalid => Invalid case Bytes(tail) => Bytes(head + tail)
  {
    var s := block + rest;
    assert s[..4] == block;
    assert s[4..] == rest;
  }

  /** Decoding undoes encoding: the bytes are recovered exactly. */
  lemma {:induction false} Base64RoundTrip(bs: seq<uint8>)
    ensures Base64Decode(Base64Encode(bs)) == Bytes(bs)
    decreases |bs|
  {
    if |bs| == 1 {
      assert bs == [bs[0]];
      DecodeOneByte(bs[0]);
    } else if |bs| == 2 {
      assert bs == [bs[0], bs[1]];
      DecodeTwoBytes(bs[0], bs[1]);
    } else if |bs| >= 3 {
      Base64RoundTrip(bs[3..]);
      RoundTripStep(bs);
    }
  }

  lemma RoundTripStep(bs: seq<uint8>)
    requires |bs| >= 3
    requires Base64Decode(Base64Encode(bs[3..])) == Bytes(bs[3..])
    ensures Base64Decode(Base64Encode(bs)) == Bytes(bs)
  {
    var head: seq<uint8> := [bs[0], bs[1], bs[2]];
    var tail := bs[3..];
    var block := EncodeBlock(bs[0], bs[1], bs[2]);
    var rest := Base64Encode(tail);
    assert Base64Encode(bs) == block + rest;
    DecodeEncodeBlock(bs[0], bs[1], bs[2]);
    DecodeFullBlockThen(block, rest, head);
    SplitThree(bs);
  }

  lemma SplitThree<T>(s: seq<T>)
    requires |s| >= 3
    ensures [s[0], s[1], s[2]] + s[3..] == s
  {
  }

  /** Every character of an encoding is a base 64 symbol or the pad `=`. */
  lemma {:induction false} Base64Alphabet(bs: seq<uint8>)
    ensures forall i :: 0 <= i < |Base64Encode(bs)| ==>
      SymbolValue(Base64Encode(bs)[i]).Some6? || Base64Encode(bs)[i] == '='
    decreases |bs|
  {
    var s := Base64Encode(bs);
    if |bs| == 1 {
      SymbolValueOfSymbol(bs[0] as int / 4);
      SymbolValueOfSymbol((bs[0] as int % 4) * 16);
    } else if |bs| == 2 {
      SymbolValueOfSymbol(bs[0] as int / 4);
      SymbolValueOfSymbol((bs[0] as int % 4) * 16 + bs[1] as int / 16);
      SymbolValueOfSymbol((bs[1] as int % 16) * 4);
    } else if |bs| >= 3 {
      SymbolValueOfSymbol(bs[0] as int / 4);
      SymbolValueOfSymbol((bs[0] as int % 4) * 16 + bs[1] as int / 16);
      SymbolValueOfSymbol((bs[1] as int % 16) * 4 + bs[2] as int / 64);
      SymbolValueOfSymbol(bs[2] as int % 64);
      Base64Alphabet(bs[3..]);
      assert s == EncodeBlock(bs[0], bs[1], bs[2]) + Base64Encode(bs[3..]);
    }
  }
}
