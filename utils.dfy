/** The fee arithmetic and the byte comparison of src/utils.rs, and the opaque cryptographic
    helpers the contract calls. */
module Utils {
  import opened Types
  import opened Janken

  /** Basis points per unit (declared beside the handlers in src/contract.rs). */
  const INVERSE_BASIS_POINT: u64 := 10000

  /** `ct_slice_compare`: byte-wise equality of two slices (its constant timing is not modelled). */
  function CtSliceCompare(s1: Bytes, s2: Bytes): (r: bool)
    ensures r <==> |s1| == |s2| && forall i :: 0 <= i < |s1| ==> s1[i] == s2[i]
  {
    s1 == s2
  }

  /** `calculate_fee`: the floor of `amount * feeRate / 10000`. The product must fit in a `u64`
      (the multiplication aborts otherwise). */
  function CalculateFee(amount: u64, feeRate: u64): (fee: u64)
    requires amount * feeRate <= U64_MAX
    ensures fee * INVERSE_BASIS_POINT <= amount * feeRate < (fee + 1) * INVERSE_BASIS_POINT
    ensures feeRate <= INVERSE_BASIS_POINT ==> fee <= amount
  {
    FeeAtMostAmount(amount, feeRate);
    amount * feeRate / INVERSE_BASIS_POINT
  }

  /** A rate of at most 10000 basis points never takes more than the amount. */
  lemma FeeAtMostAmount(amount: u64, feeRate: u64)
    requires amount * feeRate <= U64_MAX
    ensures feeRate <= INVERSE_BASIS_POINT ==> amount * feeRate / INVERSE_BASIS_POINT <= amount
  {
    if feeRate <= INVERSE_BASIS_POINT {
      var q := amount * feeRate / INVERSE_BASIS_POINT;
      assert q * INVERSE_BASIS_POINT <= amount * feeRate <= amount * INVERSE_BASIS_POINT;
    }
  }

  /** No fee on a zero amount or at a zero rate. */
  lemma FeeOfZero(amount: u64, feeRate: u64)
    ensures CalculateFee(0, feeRate) == 0
    ensures CalculateFee(amount, 0) == 0
  {
  }

  /** For a fixed rate the fee grows with the amount. */
  lemma FeeMonotone(a1: u64, a2: u64, feeRate: u64)
    requires a1 <= a2
    requires a2 * feeRate <= U64_MAX
    ensures a1 * feeRate <= U64_MAX
    ensures CalculateFee(a1, feeRate) <= CalculateFee(a2, feeRate)
  {
    assert a1 * feeRate <= a2 * feeRate;
  }

  /** The default rate of 300 basis points takes 3 of 100, leaving a payout of 97. */
  lemma DefaultFeeOnHundred()
    ensures CalculateFee(100, 300) == 3
    ensures 100 - CalculateFee(100, 300) == 97
  {
  }

  /** The block data of the environment a handler runs in. */
  datatype Block = Block(height: nat, time: nat)

  /** The cryptographic helpers, each an opaque deterministic function. */
  datatype Crypto = Crypto(
    // the configuration seed `sha_256(base64::encode(prng_seed))` computed at initialisation
    seedHash: Bytes -> Bytes,
    // `Prng::new_rand_bytes(seed, entropy)`: ChaCha seeded by SHA-256, then SHA-256 again
    newRandBytes: (Bytes, Bytes) -> Bytes,
    // `rand_hand`: the house hand drawn from random bytes
    randHand: Bytes -> Hand,
    // `ViewingKey::new(env, prng_seed, entropy)` for the given sender and block
    newViewingKey: (Addr, Block, Bytes, Bytes) -> string,
    // `ViewingKey::to_hashed`, the hash stored for a key and recomputed when checking one
    hashKey: string -> Bytes
  )
}
