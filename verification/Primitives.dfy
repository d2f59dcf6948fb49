/** Addresses, hashes and machine integers. Derivations that are assumed collision free are
    free constructors: equal results come from equal inputs only. */
module Primitives {
  const U64_MAX: int := 0xFFFF_FFFF_FFFF_FFFF
  const I64_MAX: int := 0x7FFF_FFFF_FFFF_FFFF

  type u64 = n: int | 0 <= n <= U64_MAX
  type i64 = n: int | -I64_MAX - 1 <= n <= I64_MAX

  /** 32 bytes, written as text. A SHA-256 digest is modelled by its own preimage, tagged:
      digests are equal iff the hashed texts are. */
  type Hash = string

  const ZERO_HASH: Hash := ""

  function Sha256(text: string): Hash {
    "sha256:" + text
  }

  lemma Sha256Injective(a: string, b: string)
    ensures Sha256(a) == Sha256(b) <==> a == b
  {
    assert Sha256(a)[7..] == a && Sha256(b)[7..] == b;
  }

  /** An address: a key somebody holds, the program address of a bond session
      (seeds agent, policy hash, nonce), or an associated token account. */
  datatype Key =
    | Wallet(id: nat)
    | BondPda(agent: Key, policyHash: Hash, nonce: u64)
    | Ata(owner: Key, mint: Key)
}
