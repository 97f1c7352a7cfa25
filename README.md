# Secret janken wager engine, modelled in Dafny

This project models the wager engine of a CosmWasm contract for rock-paper-scissors ("janken") bets. The engine has four parts:

- **Hand competition** (`hand.dfy`, module `Janken`). Single hands form a 3-cycle over the codes 1..3. A hand sequence is scored position by position (`Lose = -1`, `Draw = 0`, `Win = +1`). The total is compared with the offeror's signed draw point. Hand sequences convert to and from their byte form.
- **Offer lifecycle** (`state.dfy`, `validation.dfy`, `contract.dfy`). An offeror stakes an NFT and a hidden hand sequence against the offeree's NFT. The offeree accepts with its own hands or declines. On a decisive accept, the loser's NFT is transferred to the winner.
- **Hand-masking query gate** (`WagerContract.QueryOffer`). The offeror's hands are blanked while the offer is `Offered`, unless a valid viewing key is given.
- **Token bet** (`WagerContract.TryBetToken`). One bet against the house. Two balance checks come first. Then the shared entropy accumulator advances and the house hand is drawn from it. One bank message settles the bet, with a fee in basis points.

The contract's storage is the class `Contract.WagerContract`:

- `config` is the configuration singleton;
- `offers` is the offers bucket, keyed by id;
- `tokenBets` is the token-bet bucket;
- `viewingKeys` is the viewing-key store.

The handlers are methods. Each one modifies only the field it writes. Each one keeps the invariant `Valid()`:

- the fee rate is at most 10000 basis points;
- every offer is stored under its own id;
- an `Offered` offer has no offeree hands and no winner;
- an `Accepted` offer has a winner label.

Outside collaborators are values passed in:

- `Validation.Querier` holds the NFT-owner query and the bank-balance query. It is a parameter of each handler that queries the chain (`TryOffer`, `TryBetToken`), because the chain's state can change between invocations.
- `Utils.Crypto` holds SHA-256, the ChaCha PRNG, `rand_hand` and the viewing-key functions. It is a constant of the contract. Each helper is an opaque deterministic function, so two bets with the same prior entropy and the same caller entropy draw the same house hand.

The source panics in several places: a hand byte outside 1..3, an opponent sequence shorter than the offeror's, an `i8` or `u64` overflow, and an `unwrap` on `None` in the query. Here each panic is the error `Panic`, and the state is left unchanged. The host likewise discards every write of an aborted invocation.

`ContractScenarios` (`scenarios.dfy`) replays the contract's unit tests as client methods. They use only the handlers' contracts:

- a duplicated id is refused;
- a stranger cannot accept;
- `[1,2,3]` against `[3,2,1]` at draw point -1 moves `nft_id_2` to `nft_owner_1`;
- hands are hidden or shown as the tests expect;
- a bet of 100 at 300 basis points pays 97 on a win, costs 3 on a draw and costs 100 on a loss.

Things the code does that a reader might not expect, modelled as written:

- `try_accept` and `try_decline` do not check that the offer is still `Offered`. An accepted or declined offer can be accepted or declined again by its offeree (the check only covers existence and the offeree, src/validation.rs:53-70). So the model has no "status only moves forward" invariant.
- The winning bet is paid `from` the fee recipient, and losing or drawing bets pay `to` it (src/contract.rs:238-256). The banker wallet is only used for the balance check. Both addresses are the sender of `init`.
- In `query_offer` the viewing key is checked before the offer is looked up. So a key given without an address, or for an address that never generated a key, aborts even for an absent id.

## Model

| member | source | states |
|---|---|---|
| `Janken.Code` | src/hand.rs:5-14 | the wire code of a hand is one of 1, 2, 3 |
| `Janken.FromByte` | src/hand.rs:30-38 | decoding succeeds exactly for bytes 1..3, and the decoded hand has that byte as its code; any other byte is rejected |
| `Janken.Compete` | src/hand.rs:16-27 | the source's comparison of codes is a draw exactly for equal hands, a win exactly when the first hand is the cyclic successor of the second (Paper > Rock, Scissors > Paper, Rock > Scissors), and a loss exactly in the reverse case |
| `Janken.ToPoint` | src/hand.rs:94-105 | `Lose -> -1`, `Draw -> 0`, `Win -> +1` |
| `Janken.CompeteHands` | src/hand.rs:45-60 | the loop finishes exactly when the sequence can be scored (opponent long enough, every running total fits in `i8`); then the result is Win, Draw or Lose exactly as the summed points are above, equal to or below the draw point |
| `Janken.ScoreBounds` | src/hand.rs:46-52 | the score of n positions lies in [-n, n] |
| `Janken.ShortHandsScorable` | src/hand.rs:46-52 | with at most 127 positions and a long enough opponent, the `i8` accumulator cannot overflow |
| `Janken.CompeteReflexive` | src/hand.rs:17-18 | any hand against itself is a draw |
| `Janken.CompeteAntisymmetric` | src/hand.rs:16-27 | `a` wins against `b` iff `b` loses against `a`; swapping gives the opposite result |
| `Janken.ScoreSwap` | src/hand.rs:45-52 | swapping two equal-length sequences negates the score |
| `Janken.HandsSwap` | src/hand.rs:131-141 | swapping the sequences and negating the draw point gives the opposite result, so one is a draw iff the other is |
| `Janken.AllWinsScore` | src/hand.rs:49-52 | winning every position scores the length |
| `Janken.AllWinsOutcome` | src/hand.rs:53-59 | winning every position wins for a draw point below the length, draws at it, and can only lose above it |
| `Janken.HandsCompeteExamples` | src/hand.rs:130-142 | the six results of the source's `hands_compete` test |
| `Janken.Encoded` | src/hand.rs:62-69 | the byte form has one byte per hand, each the hand's code |
| `Janken.Decoded` | src/hand.rs:78-86 | decoding succeeds iff every byte is 1..3, giving one hand per byte whose code is that byte |
| `Janken.CodeInjective` | src/hand.rs:5-9 | distinct hands have distinct codes |
| `Janken.DecodeEncode` | src/hand.rs:62-86 | decoding the byte form of any hand sequence returns it |
| `Janken.EncodeDecode` | src/hand.rs:62-86 | for bytes that are all 1..3, encoding the decoded hands returns the bytes |
| `Janken.ToU8Vec` | src/hand.rs:62-69 | the push loop builds exactly the byte form of the hands |
| `Janken.FromU8Vec` | src/hand.rs:78-86 | the push loop builds exactly the decoded hands, and fails exactly when some byte is not a hand code |
| `Utils.CtSliceCompare` | src/utils.rs:12-14 | true iff both slices have the same length and the same byte at every index |
| `Utils.CalculateFee` | src/utils.rs:38-40 | the fee is the floor of `amount * rate / 10000` (`fee * 10000 <= amount * rate < (fee + 1) * 10000`), and never exceeds the amount when the rate is at most 10000 |
| `Utils.FeeAtMostAmount` | src/utils.rs:38-40 | a rate of at most 10000 basis points takes at most the amount, so `amount - fee` cannot underflow |
| `Utils.FeeOfZero` | src/utils.rs:38-40 | the fee is 0 on a zero amount and at a zero rate |
| `Utils.FeeMonotone` | src/utils.rs:38-40 | for a fixed rate the fee is monotone in the amount |
| `Utils.DefaultFeeOnHundred` | src/contract.rs:17-18 | the default rate of 300 takes 3 of 100, leaving a win payout of 97 |
| `State.NewOffer` | src/state.rs:60-89 | a new offer is `Offered`, with no offeree hands, winner `""`, offeror hands whose byte form is the input, the given draw point, and every id, party and NFT field copied; invalid hand bytes are rejected |
| `State.AcceptOffer` | src/state.rs:91-95 | status becomes `Accepted`, the offeree becomes the caller, and the offeree hands' byte form is the input; no other field changes |
| `State.DeclineOffer` | src/state.rs:97-100 | status becomes `Declined` and the offeree becomes the caller; both hand sequences and all other fields are unchanged |
| `Validation.ValidateOfferId` | src/validation.rs:9-17 | passes iff no offer is stored under the id; otherwise fails with the duplicated id |
| `Validation.ValidateNft` | src/validation.rs:19-51 | passes iff the owner query succeeds and reports the expected owner; fails on a failed query or with the reported and expected owners |
| `Validation.ValidateOfferee` | src/validation.rs:53-70 | fails on an absent id, fails naming the stored offeree when it is not the caller, and otherwise returns the stored offer unchanged |
| `Validation.ValidateTokenBetId` | src/validation.rs:72-80 | passes iff no token bet is stored under the id |
| `Validation.ValidateSentFunds` | src/validation.rs:82-98 | succeeds iff exactly one coin with a non-zero amount is sent, returning it; otherwise the matching error |
| `Validation.ValidateBalance` | src/validation.rs:100-114 | passes iff the balance query succeeds with at least `amount`; fails with insufficient balance when it is smaller |
| `Validation.ValidateWithdrawer` | src/validation.rs:116-127 | anyone but the fee recipient is unauthorized; for the fee recipient it is the balance check |
| `Contract.WagerContract.Init` | src/contract.rs:20-35 | the configuration holds the hashed seed, the raw seed as entropy, the sender as banker and fee recipient, and the default fee rate; all buckets are empty |
| `Contract.WagerContract.ReadViewingKey` | src/state.rs:133-136 | returns the stored hash exactly for owners that have one |
| `Contract.WagerContract.WriteViewingKey` | src/state.rs:128-131 | afterwards the owner's key reads back as the key's hash, and every other owner reads what it read before |
| `Contract.WagerContract.CanViewHands` | src/contract.rs:305-313 | no key means no view; a key without an address, or for an owner without a stored key, aborts; otherwise the view is granted iff the key's hash equals the stored one |
| `Contract.WagerContract.QueryOffer` | src/contract.rs:299-324 | an absent id gives the empty answer; the offer is returned with the offeror's hands blanked exactly when it is `Offered` and no valid key was given, and unchanged otherwise; a hidden open offer shows no hands at all |
| `Contract.WagerContract.TryOffer` | src/contract.rs:82-133 | a taken id fails with duplicated id; an NFT not owned by its staker fails with that check's error; on success exactly `NewOffer(..)` with the sender as offeror is stored under the id, other ids are untouched, and no message is sent; every failure leaves the table unchanged |
| `Contract.WagerContract.TryAccept` | src/contract.rs:135-193 | only the stored offeree can accept, and a failure leaves the table unchanged; otherwise the accepted offer gets winner `draw`, `offeror` or `offeree`; a draw sends nothing, a win transfers the offeree's NFT to the offeror, a loss transfers the offeror's NFT to the offeree |
| `Contract.WagerContract.TryDecline` | src/contract.rs:195-210 | only the stored offeree can decline; on success the offer is replaced by its declined form and no message is sent; a failure leaves the table unchanged |
| `Contract.WagerContract.TryBetToken` | src/contract.rs:212-265 | an insufficient sender or banker balance fails before the entropy changes; on success the entropy becomes `new_rand_bytes(old entropy, entropy)` and exactly one bank message is sent: `amount - fee` to the bettor on a win, `fee` from the bettor on a draw, `amount` from the bettor on a loss |
| `Contract.WagerContract.TryGenerateViewingKey` | src/contract.rs:267-283 | stores the hash of the derived key for the sender, returns the key, and that key then grants the sender the view |
| `ContractScenarios.MakeSampleOffer` | src/contract.rs:367-380 | offering the tests' sample either stores offer 100 with hands Rock, Paper, Scissors or fails as a duplicate with the table unchanged |
| `ContractScenarios.SampleDecoding` | src/contract.rs:377-378 | the bytes `[1,2,3]` and `[3,2,1]` decode to Rock, Paper, Scissors and Scissors, Paper, Rock |
| `ContractScenarios.SampleMatch` | src/contract.rs:439-473 | `[1,2,3]` against `[3,2,1]` at draw point -1 is a win for the offeror |
| `ContractScenarios.DuplicateAndStrangerScenario` | src/contract.rs:399-452 | offering id 100 a second time fails with `DuplicatedId(100)`, and a sender other than the offeree is refused with `NotOfferee("nft_owner_2")` |
| `ContractScenarios.AcceptScenario` | src/contract.rs:454-473 | the offeree's accept succeeds with the single transfer of `nft_id_2` from `offeree_contract` to `nft_owner_1`, and the offeror is recorded as winner |
| `ContractScenarios.QueryWithoutKeyScenario` | src/contract.rs:485-494 | without an address and key the open offer is returned with the offeror's hands blanked; an absent id gives an empty answer |
| `ContractScenarios.QueryWithKeyScenario` | src/contract.rs:496-513 | the key the offeror generates shows its hands Rock, Paper, Scissors |
| `ContractScenarios.QueryAfterAcceptScenario` | src/contract.rs:515-533 | after the accept with `[2,3,3]` the query without a key shows the offeror's Rock, Paper, Scissors and the offeree's Paper, Scissors, Scissors |
| `ContractScenarios.BetScenario` | src/contract.rs:536-577 | a bet of 100 pays 97 on a win, sends the fee of 3 on a draw and the whole 100 on a loss, each as one bank message; a bettor with a short balance is refused with `InsufficientBalance` |

## Left out

- The command dispatch `handle` and `query` (src/contract.rs:37-80, 285-297), and the message structs of src/msg.rs. They only route to the handlers. `HandleMsg` in src/msg.rs has no `BetToken` variant, but `handle` dispatches one. The command set here is taken from the handlers.
- Storage encoding, serde and `to_binary`. Buckets are maps, and the query answer is an `Option<Offer>`. The config singleton always exists after `Init`, so its failing `load` is not modelled.
- Address canonicalisation. Human and canonical addresses are the same strings, so `canonical_address` never fails here.
- SHA-256, the ChaCha PRNG, `rand_hand`, `ViewingKey::new`, `to_hashed` and `check_viewing_key`. These are opaque functions in `Utils.Crypto`, and the model uses their results. Their code lives in modules that src/contract.rs imports (src/contract.rs:6, 15), and that code is not part of this model. The key check is modelled as comparing the hash of the given key with the stored hash. `ViewingKey::new` sees the sender, the current block (`Utils.Block`, a parameter of `TryGenerateViewingKey`), the seed and the caller's entropy.
- The NFT contract and the bank. Their queries are the `Validation.Querier` functions. The transfers are only emitted as messages, and their execution is not modelled.
- `MatchResult::to_str`, which `try_bet_token` logs. Its definition is not in src/hand.rs and is not part of this model. `Contract.ResultLabel` uses the labels "win", "draw" and "lose" that the bet test expects (src/contract.rs:566-572).
- Entropy strings. They appear as their UTF-8 byte sequences.
- Text of the error messages. Errors are the structured values of `Types.Error`, carrying the values the messages print.
- `amount` in `validate_balance` is a `u128` in the source. It is a natural number here, which does not change the comparison.
- Integer overflow. Overflow of the `i8` accumulator in `Hands::compete` and of `amount * fee_rate` in `calculate_fee` is modelled as an abort, the checked-arithmetic behaviour. A build that wraps around on overflow is not modelled.
- `Contract.WagerContract.TryBetToken`: the source saves the new entropy before decoding the hand and computing the fee. A panic there discards that write with the rest of the invocation, so the model commits the entropy only after both steps succeed.
- `State.AcceptOffer` and `State.DeclineOffer`: `accept_offer` and `decline_offer` update a loaded copy of the offer in place through `&mut self`. Here they return the updated record, which the handler stores, as the source's `update` does.
- The contract's `TokenBet` records. Nothing in the handlers writes them, so `tokenBets` only starts empty.
- Constant-time behaviour of `ct_slice_compare` and of the viewing-key check. Timing is not expressible, so only equality is kept.
