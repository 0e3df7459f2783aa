/** The UTF-8 bytes of a string, as `String::into_bytes` yields them, and a
    decoder that inverts it. */
module Utf8 {
  import opened Primitives

  predicate IsScalar(v: int) { 0 <= v < 0xD800 || 0xE000 <= v < 0x11_0000 }

  predicate IsContinuation(b: Byte) { 0x80 <= b < 0xC0 }

  /** The one to four bytes that encode one Unicode scalar value. */
  function CharBytes(c: char): (bs: seq<Byte>)
    ensures 1 <= |bs| <= 4
  {
    var v := c as int;
    if v < 0x80 then [v]
    else if v < 0x800 then [0xC0 + v / 0x40, 0x80 + v % 0x40]
    else if v < 0x1_0000 then [0xE0 + v / 0x1000, 0x80 + (v / 0x40) % 0x40, 0x80 + v % 0x40]
    else [0xF0 + v / 0x4_0000, 0x80 + (v / 0x1000) % 0x40, 0x80 + (v / 0x40) % 0x40, 0x80 + v % 0x40]
  }

  function Encode(s: string): (bs: seq<Byte>)
    ensures |bs| >= |s|
  {
    if s == [] then [] else CharBytes(s[0]) + Encode(s[1..])
  }

  function ScalarOf(v: int, n: nat): Option<(char, nat)>
  {
    if IsScalar(v) then Some((v as char, n)) else None
  }

  /** The first character of `bs` and the number of bytes it takes. */
  function DecodeFirst(bs: seq<Byte>): (r: Option<(char, nat)>)
    requires |bs| >= 1
    ensures r.Some? ==> 1 <= r.value.1 <= |bs|
  {
    var b0: int := bs[0];
    if b0 < 0x80 then Some((b0 as char, 1))
    else if 0xC0 <= b0 < 0xE0 && |bs| >= 2 && IsContinuation(bs[1]) then
      ScalarOf((b0 - 0xC0) * 0x40 + (bs[1] as int - 0x80), 2)
    else if 0xE0 <= b0 < 0xF0 && |bs| >= 3 && IsContinuation(bs[1]) && IsContinuation(bs[2]) then
      ScalarOf((b0 - 0xE0) * 0x1000 + (bs[1] as int - 0x80) * 0x40 + (bs[2] as int - 0x80), 3)
    else if 0xF0 <= b0 < 0xF8 && |bs| >= 4 && IsContinuation(bs[1]) && IsContinuation(bs[2])
            && IsContinuation(bs[3]) then
      ScalarOf((b0 - 0xF0) * 0x4_0000 + (bs[1] as int - 0x80) * 0x1000 + (bs[2] as int - 0x80) * 0x40 + (bs[3] as int - 0x80), 4)
    else None
  }

  function Decode(bs: seq<Byte>): Option<string>
    decreases |bs|
  {
    if bs == [] then Some([])
    else match DecodeFirst(bs)
      case None => None
      case Some((c, n)) =>
        match Decode(bs[n..])
        case None => None
        case Some(rest) => Some([c] + rest)
  }

  lemma CharIsScalar(c: char)
    ensures IsScalar(c as int)
  {
  }

  lemma SplitBase64(v: int)
    requires v >= 0
    ensures v == 0x40 * (v / 0x40) + v % 0x40
    ensures v / 0x1000 == (v / 0x40) / 0x40
    ensures v / 0x4_0000 == (v / 0x1000) / 0x40
    ensures v / 0x40 == 0x40 * (v / 0x1000) + (v / 0x40) % 0x40
    ensures v / 0x1000 == 0x40 * (v / 0x4_0000) + (v / 0x1000) % 0x40
  {
  }

  lemma DecodeFirstCharBytes(c: char, rest: seq<Byte>)
    ensures DecodeFirst(CharBytes(c) + rest) == Some((c, |CharBytes(c)|))
  {
    var v := c as int;
    CharIsScalar(c);
    if v < 0x80 {
    } else if v < 0x800 {
      DecodeTwoBytes(c, rest);
    } else if v < 0x1_0000 {
      DecodeThreeBytes(c, rest);
    } else {
      DecodeFourBytes(c, rest);
    }
  }

  lemma DecodeTwoBytes(c: char, rest: seq<Byte>)
    requires 0x80 <= c as int < 0x800
    ensures DecodeFirst(CharBytes(c) + rest) == Some((c, 2))
  {
    var v := c as int;
    var bs := CharBytes(c) + rest;
    SplitBase64(v);
    assert bs[0] == 0xC0 + v / 0x40 && bs[1] == 0x80 + v % 0x40;
    assert (bs[0] as int - 0xC0) * 0x40 + (bs[1] as int - 0x80) == v;
  }

  lemma DecodeThreeBytes(c: char, rest: seq<Byte>)
    requires 0x800 <= c as int < 0x1_0000
    ensures DecodeFirst(CharBytes(c) + rest) == Some((c, 3))
  {
    var v := c as int;
    var bs := CharBytes(c) + rest;
    CharIsScalar(c);
    SplitBase64(v);
    assert bs[0] == 0xE0 + v / 0x1000 && bs[1] == 0x80 + (v / 0x40) % 0x40 && bs[2] == 0x80 + v % 0x40;
    assert (bs[0] as int - 0xE0) * 0x1000 + (bs[1] as int - 0x80) * 0x40 + (bs[2] as int - 0x80) == v;
  }

  lemma DecodeFourBytes(c: char, rest: seq<Byte>)
    requires 0x1_0000 <= c as int
    ensures DecodeFirst(CharBytes(c) + rest) == Some((c, 4))
  {
    var v := c as int;
    var bs := CharBytes(c) + rest;
    CharIsScalar(c);
    SplitBase64(v);
    assert bs[0] == 0xF0 + v / 0x4_0000 && bs[1] == 0x80 + (v / 0x1000) % 0x40;
    assert bs[2] == 0x80 + (v / 0x40) % 0x40 && bs[3] == 0x80 + v % 0x40;
    assert (bs[0] as int - 0xF0) * 0x4_0000 + (bs[1] as int - 0x80) * 0x1000 + (bs[2] as int - 0x80) * 0x40
           + (bs[3] as int - 0x80) == v;
  }

  /** Decoding the encoding of a string gives back the string. */
  lemma {:induction false} DecodeEncode(s: string)
    ensures Decode(Encode(s)) == Some(s)
  {
    if s != [] {
      var bs := Encode(s);
      var n := |CharBytes(s[0])|;
      DecodeFirstCharBytes(s[0], Encode(s[1..]));
      assert bs[n..] == Encode(s[1..]);
      DecodeEncode(s[1..]);
      assert [s[0]] + s[1..] == s;
    }
  }

  /** Distinct strings have distinct UTF-8 bytes. */
  lemma EncodeInjective(s: string, t: string)
    requires Encode(s) == Encode(t)
    ensures s == t
  {
    DecodeEncode(s);
    DecodeEncode(t);
  }
}
