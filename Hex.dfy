/** Lower-case hexadecimal rendering of a byte string, as the `{:02x}` format
    of a digest writes it: two digits per byte, high nibble first. */
module Hex {
  import opened Primitives

  predicate IsLowerHex(c: char) { '0' <= c <= '9' || 'a' <= c <= 'f' }

  function HexDigit(d: nat): (c: char)
    requires d < 16
    ensures IsLowerHex(c)
  {
    if d < 10 then (('0' as int) + d) as char else (('a' as int) + d - 10) as char
  }

  function HexDigitValue(c: char): (v: Option<nat>)
    ensures v.Some? ==> v.value < 16
  {
    if '0' <= c <= '9' then Some((c as int) - ('0' as int))
    else if 'a' <= c <= 'f' then Some((c as int) - ('a' as int) + 10)
    else None
  }

  function ToHex(bytes: seq<Byte>): (s: string)
    ensures |s| == 2 * |bytes|
    ensures forall i :: 0 <= i < |s| ==> IsLowerHex(s[i])
  {
    if bytes == [] then ""
    else [HexDigit(bytes[0] / 16), HexDigit(bytes[0] % 16)] + ToHex(bytes[1..])
  }

  /** Reads a string of hexadecimal digit pairs back into bytes. */
  function FromHex(s: string): Option<seq<Byte>>
  {
    if s == [] then Some([])
    else if |s| == 1 then None
    else match (HexDigitValue(s[0]), HexDigitValue(s[1]), FromHex(s[2..]))
      case (Some(hi), Some(lo), Some(rest)) => Some([16 * hi + lo] + rest)
      case _ => None
  }

  lemma {:induction false} HexRoundTrip(bytes: seq<Byte>)
    ensures FromHex(ToHex(bytes)) == Some(bytes)
  {
    if bytes != [] {
      var s := ToHex(bytes);
      var b := bytes[0];
      assert HexDigitValue(HexDigit(b / 16)) == Some(b / 16);
      assert HexDigitValue(HexDigit(b % 16)) == Some(b % 16);
      assert s[2..] == ToHex(bytes[1..]);
      HexRoundTrip(bytes[1..]);
      assert 16 * (b / 16) + b % 16 == b;
      assert FromHex(s) == Some([b] + bytes[1..]);
      assert [b] + bytes[1..] == bytes;
    }
  }
}
