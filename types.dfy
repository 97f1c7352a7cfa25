/** Machine integers, addresses, coins and the contract's error taxonomy. */
module Types {

  const U64_MAX: int := 0xFFFF_FFFF_FFFF_FFFF

  /** Rust's `u8`. */
  type u8 = x: int | 0 <= x < 0x100

  /** Rust's `i8`. */
  type i8 = x: int | -0x80 <= x < 0x80

  /** Rust's `u64`. */
  type u64 = x: int | 0 <= x <= U64_MAX

  /** True when `x` fits in an `i8` (checked `i8` arithmetic aborts otherwise). */
  predicate InI8(x: int) {
    -0x80 <= x < 0x80
  }

  type Bytes = seq<u8>

  /** A human-readable address (`HumanAddr`); canonical addresses are taken to be the same strings. */
  type Addr = string

  /** A bank coin: a denomination and a `Uint128` amount. */
  datatype Coin = Coin(denom: string, amount: nat)

  /** The structured form of every `StdError` the core can produce. */
  datatype Error =
    | DuplicatedId(id: u64)                       // "duplicated id(id)"
    | InvalidNftOwner(got: Addr, expected: Addr)  // "invalid nft owner, got: .., expected: .."
    | InvalidId(id: u64)                          // "invalid id: .." (the offer could not be loaded)
    | NotOfferee(offeree: Addr)                   // "msg sender is not offeree(offeree)"
    | MultipleCoinSent(funds: seq<Coin>)          // "multiple coin sent(..)"
    | ZeroAmountSent(fund: Coin)                  // "sent fund is zero amount(..)"
    | InsufficientBalance(address: Addr)          // "insufficient balance in address(..)"
    | Unauthorized                                // StdError::unauthorized()
    | QueryFailed                                 // an error returned by the querier, passed on by `?`
    | Panic                                       // an abort: the invocation fails and commits nothing
}
