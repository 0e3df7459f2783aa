/** Value types shared by the whole model, and the collaborators that the core
    calls but does not define. Each collaborator is a total function value, so
    the model says nothing about it beyond its type (the fixed output lengths
    are part of the type). */
module Primitives {

  const TWO_32: nat := 0x1_0000_0000
  const TWO_64: nat := 0x1_0000_0000_0000_0000
  const U32_MAX: nat := 0xffff_ffff

  type Byte = b: int | 0 <= b < 0x100
  type U32 = x: int | 0 <= x < 0x1_0000_0000
  /** `u64`, and `usize` on the 64-bit targets the system is built for. */
  type U64 = x: int | 0 <= x < 0x1_0000_0000_0000_0000

  type Bytes32 = s: seq<Byte> | |s| == 32 witness seq(32, _ => 0)
  type Bytes28 = s: seq<Byte> | |s| == 28 witness seq(28, _ => 0)

  /** An `as u64` cast / wrapping multiplication result: the value modulo 2^64. */
  function WrapU64(x: nat): (r: U64)
    ensures x < TWO_64 ==> r == x
  {
    x % TWO_64
  }

  datatype Option<T> = None | Some(value: T)

  /** Recoverable failures: what `ensure!` and `?` return. */
  datatype Error =
    | InvalidExpansionDegree     // a base graph was asked for expansion parents
    | TooManyMetagraphNodes      // nodes * (base_degree - 1) exceeds 2^54
    | TooManyNodes               // more nodes than a u32 index can name
    | MisalignedSectorBytes      // sector size not a multiple of 32

  /** Unrecoverable aborts: `assert_eq!`, `expect`, `panic!` and a checked
      arithmetic underflow. */
  datatype Fault =
    | BaseDegreeMismatch
    | ExpansionDegreeMismatch
    | UnknownSectorSize
    | UnsupportedSectorSize
    | SubtractOverflow

  datatype Outcome<T> = Ok(value: T) | Err(error: Error) | Abort(fault: Fault)

  /** Domain-separation tags handed to `derive_porep_domain_seed`. */
  datatype DomainTag = DrSample | Feistel

  /** A hasher type `H`, known to the core only through `H::name()`. */
  datatype Hasher = Hasher(name: string)

  /** A Merkle tree type, known through `Tree::display()` and its hasher. */
  datatype TreeShape = TreeShape(display: string, hasher: Hasher)

  /** The value `feistel::precompute` returns; its shape is the Feistel
      module's business. */
  datatype FeistelPrecomputed = FeistelPrecomputed(words: seq<U64>)

  /** The cryptographic collaborators.
      - sha256: the digest of a byte string;
      - domainSeed: `derive_porep_domain_seed(tag, porep_id)`;
      - frReprSafe: `bytes_into_fr_repr_safe(digest).into()`;
      - feistelPrecompute: `feistel::precompute(n)`. */
  datatype Crypto = Crypto(
    sha256: seq<Byte> -> Bytes32,
    domainSeed: (DomainTag, Bytes32) -> Bytes32,
    frReprSafe: Bytes32 -> Bytes32,
    feistelPrecompute: U64 -> FeistelPrecomputed)

  /** `LayerChallenges::new(layers, count)`. */
  datatype LayerChallenges = LayerChallenges(layers: nat, count: nat)

  /** The challenges module: `challenges_count_all` as a function of
      `(layers, count)`, and the `Debug` rendering of a `LayerChallenges`. */
  datatype Challenges = Challenges(
    countAll: (nat, nat) -> nat,
    debug: LayerChallenges -> string)

  function Min(a: int, b: int): int { if a <= b then a else b }
  function Max(a: int, b: int): int { if a >= b then a else b }

  /** 2^n, written `1 << n` in the source. */
  function Pow2(n: nat): (r: nat)
    ensures r >= n + 1
  {
    if n == 0 then 1 else 2 * Pow2(n - 1)
  }

  lemma {:induction false} Pow2Monotone(a: nat, b: nat)
    requires a <= b
    ensures Pow2(a) <= Pow2(b)
  {
    if a < b {
      Pow2Monotone(a, b - 1);
    }
  }

  lemma {:induction false} Pow2Add(a: nat, b: nat)
    ensures Pow2(a + b) == Pow2(a) * Pow2(b)
  {
    if b > 0 {
      Pow2Add(a, b - 1);
      var x := Pow2(a);
      var y := Pow2(b - 1);
      calc {
        Pow2(a + b);
        2 * Pow2(a + (b - 1));
        2 * (x * y);
        { MulLeftCommutes(2, x, y); }
        x * (2 * y);
        x * Pow2(b);
      }
    }
  }

  lemma MulLeftCommutes(k: int, x: int, y: int)
    ensures k * (x * y) == x * (k * y)
  {
  }

  lemma Pow2FiftyFour()
    ensures Pow2(54) == 0x40_0000_0000_0000
  {
    assert Pow2(6) == 64;
    Pow2Add(6, 6);
    assert Pow2(12) == 0x1000;
    Pow2Add(12, 12);
    assert Pow2(24) == 0x100_0000;
    Pow2Add(24, 24);
    assert Pow2(48) == 0x1_0000_0000_0000;
    Pow2Add(48, 6);
  }
}
