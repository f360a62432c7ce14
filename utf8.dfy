/** UTF-8 as RFC 3629 defines it: the encoding of section 3 and the
    well-formed byte sequences of section 4. This is the charset every
    filter factory hands to the JDBC resource loader. Dafny's `char` is a
    Unicode scalar value, so surrogate code points never need encoding. */
module Utf8 {
  import opened Java

  newtype byte = x: int | 0 <= x < 256

  /** Number of octets section 3 of RFC 3629 uses for a character. */
  function Width(c: char): (n: nat)
    ensures 1 <= n <= 4
    ensures (n == 1) == (c as int < 0x80)
  {
    var v := c as int;
    if v < 0x80 then 1 else if v < 0x800 then 2 else if v < 0x10000 then 3 else 4
  }

  predicate IsContinuation(b: byte) {
    0x80 <= b < 0xC0
  }

  /** The octets of one character: the leading octet carries the width
      marker and the high bits, each continuation octet 10xxxxxx six bits. */
  function EncodeChar(c: char): (bs: seq<byte>)
    ensures |bs| == Width(c)
    ensures forall i :: 0 < i < |bs| ==> IsContinuation(bs[i])
  {
    var v := c as int;
    if v < 0x80 then
      [v as byte]
    else if v < 0x800 then
      [(0xC0 + v / 64) as byte, (0x80 + v % 64) as byte]
    else if v < 0x10000 then
      [(0xE0 + v / 4096) as byte, (0x80 + (v / 64) % 64) as byte, (0x80 + v % 64) as byte]
    else
      [(0xF0 + v / 262144) as byte, (0x80 + (v / 4096) % 64) as byte,
       (0x80 + (v / 64) % 64) as byte, (0x80 + v % 64) as byte]
  }

  /** The UTF-8 encoding of a string: its characters' octets in order. */
  function Encode(s: string): (bs: seq<byte>)
    ensures |bs| >= |s|
    ensures s == [] <==> bs == []
  {
    if s == [] then [] else EncodeChar(s[0]) + Encode(s[1..])
  }

  function Payload(b: byte): int
    requires IsContinuation(b)
  {
    b as int - 0x80
  }

  /** The first character of `bs` and its width, when `bs` starts with one
      of the well-formed sequences of section 4 of RFC 3629 (which excludes
      overlong forms, surrogates and values above U+10FFFF). */
  function DecodeFirst(bs: seq<byte>): (r: Option<(char, nat)>)
    ensures r.Some? ==> 1 <= r.value.1 <= |bs| && r.value.1 <= 4
  {
    if |bs| == 0 then None
    else
      var b0 := bs[0] as int;
      if b0 < 0x80 then Some((b0 as char, 1))
      else if 0xC2 <= b0 <= 0xDF && |bs| >= 2 && IsContinuation(bs[1]) then
        Some((((b0 - 0xC0) * 64 + Payload(bs[1])) as char, 2))
      else if 0xE0 <= b0 <= 0xEF && |bs| >= 3 && IsContinuation(bs[1]) && IsContinuation(bs[2])
              && (b0 == 0xE0 ==> bs[1] >= 0xA0) && (b0 == 0xED ==> bs[1] < 0xA0) then
        Some((((b0 - 0xE0) * 4096 + Payload(bs[1]) * 64 + Payload(bs[2])) as char, 3))
      else if 0xF0 <= b0 <= 0xF4 && |bs| >= 4 && IsContinuation(bs[1]) && IsContinuation(bs[2])
              && IsContinuation(bs[3]) && (b0 == 0xF0 ==> bs[1] >= 0x90) && (b0 == 0xF4 ==> bs[1] < 0x90) then
        Some((((b0 - 0xF0) * 262144 + Payload(bs[1]) * 4096 + Payload(bs[2]) * 64 + Payload(bs[3])) as char, 4))
      else None
  }

  /** Decodes a whole octet sequence; None when it is not well-formed UTF-8. */
  function Decode(bs: seq<byte>): (r: Option<string>)
    decreases |bs|
  {
    if bs == [] then Some([])
    else match DecodeFirst(bs)
      case None => None
      case Some((c, n)) =>
        match Decode(bs[n..])
        case None => None
        case Some(rest) => Some([c] + rest)
  }

  /** Decoding the octets of one character, followed by anything, gives
      back that character and its width. */
  lemma DecodeEncodeChar(c: char, rest: seq<byte>)
    ensures DecodeFirst(EncodeChar(c) + rest) == Some((c, Width(c)))
  {
    var v := c as int;
    if v < 0x80 {
    } else if v < 0x800 {
      DecodeTwo(c, rest);
    } else if v < 0x10000 {
      DecodeThree(c, rest);
    } else {
      DecodeFour(c, rest);
    }
  }

  lemma DecodeTwo(c: char, rest: seq<byte>)
    requires 0x80 <= c as int < 0x800
    ensures DecodeFirst(EncodeChar(c) + rest) == Some((c, 2))
  {
    var v := c as int;
    assert v == (v / 64) * 64 + v % 64;
  }

  lemma DecodeThree(c: char, rest: seq<byte>)
    requires 0x800 <= c as int < 0x10000
    ensures DecodeFirst(EncodeChar(c) + rest) == Some((c, 3))
  {
    var v := c as int;
    var bs := EncodeChar(c) + rest;
    assert v / 64 == (v / 4096) * 64 + (v / 64) % 64;
    assert v == (v / 64) * 64 + v % 64;
    assert bs[0] as int == 0xE0 + v / 4096;
    assert v < 0xD800 || v > 0xDFFF;
  }

  lemma DecodeFour(c: char, rest: seq<byte>)
    requires 0x10000 <= c as int
    ensures DecodeFirst(EncodeChar(c) + rest) == Some((c, 4))
  {
    var v := c as int;
    assert v / 4096 == (v / 262144) * 64 + (v / 4096) % 64;
    assert v / 64 == (v / 4096) * 64 + (v / 64) % 64;
    assert v == (v / 64) * 64 + v % 64;
    assert v <= 0x10FFFF;
  }

  /** Round trip: decoding the UTF-8 encoding of a string gives the string
      back, so the encoding loses nothing. */
  lemma {:induction false} DecodeEncode(s: string)
    ensures Decode(Encode(s)) == Some(s)
  {
    if s != [] {
      var e := EncodeChar(s[0]);
      var bs := Encode(s);
      assert bs == e + Encode(s[1..]);
      DecodeEncodeChar(s[0], Encode(s[1..]));
      assert bs[|e|..] == Encode(s[1..]);
      DecodeEncode(s[1..]);
      assert [s[0]] + s[1..] == s;
    }
  }

  /** Different strings have different encodings. */
  lemma EncodeInjective(s: string, t: string)
    requires Encode(s) == Encode(t)
    ensures s == t
  {
    DecodeEncode(s);
    DecodeEncode(t);
  }
}
