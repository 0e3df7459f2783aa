/** Sloth encoding: adding (and removing) a key in the BLS12-381 scalar field. */
module Sloth {

  /** The order r of the BLS12-381 scalar field. */
  const R: nat := 0x73eda753299d7d483339d80809a1d80553bda402fffe5bfeffffffff00000001

  /** An element of the scalar field, in canonical form. */
  type Fr = x: int | 0 <= x < 0x73eda753299d7d483339d80809a1d80553bda402fffe5bfeffffffff00000001

  /** `encode`: the plaintext with the key added (`add_assign`), reduced once. */
  function Encode(key: Fr, plaintext: Fr): (ciphertext: Fr)
    ensures ciphertext == (plaintext + key) % R
  {
    var sum := plaintext + key;
    if sum < R then sum else sum - R
  }

  /** `decode`: the ciphertext with the key subtracted (`sub_assign`). */
  function Decode(key: Fr, ciphertext: Fr): (plaintext: Fr)
    ensures plaintext == (ciphertext - key) % R
  {
    if ciphertext >= key then ciphertext - key else ciphertext + R - key
  }

  lemma DecodeEncode(key: Fr, plaintext: Fr)
    ensures Decode(key, Encode(key, plaintext)) == plaintext
  {
  }

  lemma EncodeDecode(key: Fr, ciphertext: Fr)
    ensures Encode(key, Decode(key, ciphertext)) == ciphertext
  {
  }

  /** The zero key leaves every element unchanged, both ways. */
  lemma ZeroKeyIsIdentity(x: Fr)
    ensures Encode(0, x) == x && Decode(0, x) == x
  {
  }
}
