/** Little-endian byte encodings: `u64::from_le_bytes` and `to_le_bytes`. */
module LittleEndian {
  import opened Primitives

  function Pow256(n: nat): (r: nat)
    ensures r >= 1
  {
    if n == 0 then 1 else 256 * Pow256(n - 1)
  }

  /** The integer whose little-endian encoding is `bs`. */
  function LeValue(bs: seq<Byte>): (v: nat)
    ensures v < Pow256(|bs|)
  {
    if bs == [] then 0 else bs[0] + 256 * LeValue(bs[1..])
  }

  /** The `n` low bytes of `x`, least significant first. */
  function LeBytes(x: nat, n: nat): (bs: seq<Byte>)
    ensures |bs| == n
  {
    if n == 0 then [] else [x % 256] + LeBytes(x / 256, n - 1)
  }

  lemma Pow256Eight()
    ensures Pow256(8) == TWO_64
    ensures Pow256(4) == TWO_32
  {
  }

  /** Decoding an encoding gives back every value that fits in `n` bytes. */
  lemma {:induction false} LeValueOfBytes(x: nat, n: nat)
    requires x < Pow256(n)
    ensures LeValue(LeBytes(x, n)) == x
  {
    if n > 0 {
      assert x / 256 < Pow256(n - 1);
      LeValueOfBytes(x / 256, n - 1);
      assert LeBytes(x, n)[1..] == LeBytes(x / 256, n - 1);
    }
  }

  /** Encoding a decoded byte string gives back the byte string. */
  lemma {:induction false} LeBytesOfValue(bs: seq<Byte>)
    ensures LeBytes(LeValue(bs), |bs|) == bs
  {
    if bs != [] {
      var v := LeValue(bs);
      assert v % 256 == bs[0] && v / 256 == LeValue(bs[1..]);
      LeBytesOfValue(bs[1..]);
    }
  }

  /** The `n`-byte little-endian encoding is injective on the values that
      fit in `n` bytes. */
  lemma LeBytesInjective(x: nat, y: nat, n: nat)
    requires x < Pow256(n) && y < Pow256(n)
    requires LeBytes(x, n) == LeBytes(y, n)
    ensures x == y
  {
    LeValueOfBytes(x, n);
    LeValueOfBytes(y, n);
  }

  /** `u64::from_le_bytes`: the value of eight little-endian bytes, which
      encodes back to the same bytes. */
  function U64FromLe(bs: seq<Byte>): (x: U64)
    requires |bs| == 8
    ensures LeBytes(x, 8) == bs
  {
    Pow256Eight();
    LeBytesOfValue(bs);
    LeValue(bs)
  }
}
