/** The guards of src/validation.rs. Each one reads storage or asks the querier and returns a
    verdict without writing anything. */
module Validation {
  import opened Types
  import opened Wrappers
  import opened State

  /** What the contract can ask the chain: the owner of an NFT (`OwnerOf` on the NFT contract
      with the given code hash) and a bank balance; `None` is a failed query. */
  datatype Querier = Querier(
    ownerOf: (Addr, string, string) -> Option<Addr>,
    balanceOf: (Addr, string) -> Option<nat>)

  /** `validate_offer_id`: the id must not be taken yet. */
  function ValidateOfferId(offers: map<u64, Offer>, id: u64): (r: Outcome<Error>)
    ensures r.Pass? <==> id !in offers
    ensures r.Fail? ==> r.error == DuplicatedId(id)
  {
    if id in offers then Fail(DuplicatedId(id)) else Pass
  }

  /** `validate_nft`: the reported owner of the token must be the expected one. */
  function ValidateNft(q: Querier, contractAddr: Addr, tokenId: string, codeHash: string, expectedOwner: Addr): (r: Outcome<Error>)
    ensures r.Pass? <==> q.ownerOf(contractAddr, tokenId, codeHash) == Some(expectedOwner)
    ensures q.ownerOf(contractAddr, tokenId, codeHash).None? ==> r == Fail(QueryFailed)
    ensures r.Fail? && q.ownerOf(contractAddr, tokenId, codeHash).Some? ==>
      r == Fail(InvalidNftOwner(q.ownerOf(contractAddr, tokenId, codeHash).value, expectedOwner))
  {
    match q.ownerOf(contractAddr, tokenId, codeHash)
    case None => Fail(QueryFailed)
    case Some(owner) => if owner != expectedOwner then Fail(InvalidNftOwner(owner, expectedOwner)) else Pass
  }

  /** `validate_offeree`: the offer must exist and name the caller as its offeree; on success it
      is returned as stored. The status is not looked at. */
  function ValidateOfferee(offers: map<u64, Offer>, offeree: Addr, id: u64): (r: Result<Offer, Error>)
    ensures r.Ok? <==> id in offers && offers[id].offeree == offeree
    ensures r.Ok? ==> r.value == offers[id]
    ensures id !in offers ==> r == Err(InvalidId(id))
    ensures id in offers && offers[id].offeree != offeree ==> r == Err(NotOfferee(offers[id].offeree))
  {
    if id !in offers then Err(InvalidId(id))
    else if offers[id].offeree != offeree then Err(NotOfferee(offers[id].offeree))
    else Ok(offers[id])
  }

  /** `validate_token_bet_id`: the id must not be taken yet. */
  function ValidateTokenBetId(tokenBets: map<u64, TokenBet>, id: u64): (r: Outcome<Error>)
    ensures r.Pass? <==> id !in tokenBets
    ensures r.Fail? ==> r.error == DuplicatedId(id)
  {
    if id in tokenBets then Fail(DuplicatedId(id)) else Pass
  }

  /** `validate_sent_funds`: exactly one coin, with a non-zero amount, which is returned. */
  function ValidateSentFunds(funds: seq<Coin>): (r: Result<Coin, Error>)
    ensures r.Ok? <==> |funds| == 1 && funds[0].amount != 0
    ensures r.Ok? ==> r.value == funds[0]
    ensures |funds| != 1 ==> r == Err(MultipleCoinSent(funds))
    ensures |funds| == 1 && funds[0].amount == 0 ==> r == Err(ZeroAmountSent(funds[0]))
  {
    if |funds| != 1 then Err(MultipleCoinSent(funds))
    else if funds[0].amount == 0 then Err(ZeroAmountSent(funds[0]))
    else Ok(funds[0])
  }

  /** `validate_balance`: the balance of `address` in `denom` must cover `amount`. */
  function ValidateBalance(q: Querier, address: Addr, denom: string, amount: nat): (r: Outcome<Error>)
    ensures r.Pass? <==> q.balanceOf(address, denom).Some? && amount <= q.balanceOf(address, denom).value
    ensures q.balanceOf(address, denom).None? ==> r == Fail(QueryFailed)
    ensures q.balanceOf(address, denom).Some? && q.balanceOf(address, denom).value < amount ==>
      r == Fail(InsufficientBalance(address))
  {
    match q.balanceOf(address, denom)
    case None => Fail(QueryFailed)
    case Some(balance) => if balance < amount then Fail(InsufficientBalance(address)) else Pass
  }

  /** `validate_withdrawer`: only the fee recipient may withdraw, and only what it holds. */
  function ValidateWithdrawer(config: Config, q: Querier, address: Addr, denom: string, amount: u64): (r: Outcome<Error>)
    ensures address != config.feeRecipient ==> r == Fail(Unauthorized)
    ensures address == config.feeRecipient ==> r == ValidateBalance(q, address, denom, amount)
    ensures r.Pass? <==>
      address == config.feeRecipient && q.balanceOf(address, denom).Some? && amount <= q.balanceOf(address, denom).value
  {
    if address != config.feeRecipient then Fail(Unauthorized)
    else ValidateBalance(q, address, denom, amount)
  }
}
