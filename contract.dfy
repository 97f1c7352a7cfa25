/** The handlers of src/contract.rs over the contract's persistent storage. */
module Contract {
  import opened Types
  import opened Wrappers
  import opened Janken
  import opened Utils
  import opened State
  import opened Validation

  /** The fee rate set at initialisation, in basis points. */
  const DEFAULT_FEE_RATE: u64 := 300

  /** One `log(key, value)` attribute of a response. */
  datatype LogAttr = LogAttr(key: string, value: string)

  /** The outgoing messages the handlers build. */
  datatype CosmosMsg =
    // `WasmMsg::Execute` of a `TransferNft { recipient, token_id }` on an NFT contract
    | TransferNft(contractAddr: Addr, callbackCodeHash: string, recipient: Addr, tokenId: string)
    // `BankMsg::Send` of one coin
    | BankSend(fromAddress: Addr, toAddress: Addr, amount: Coin)

  /** `HandleResponse`: messages, log attributes and optional data (here only a viewing key). */
  datatype Response = Response(messages: seq<CosmosMsg>, log: seq<LogAttr>, data: Option<string>)

  /** The winner label written into an accepted offer. */
  function WinnerLabel(r: MatchResult): (text: string) {
    match r
    case Draw => "draw"
    case Win => "offeror"
    case Lose => "offeree"
  }

  /** The result label logged by a token bet (the labels of `MatchResult::to_str`, whose code is
      not part of this model, as the bet tests expect them). */
  function ResultLabel(r: MatchResult): (text: string) {
    match r
    case Win => "win"
    case Draw => "draw"
    case Lose => "lose"
  }

  /** What every stored offer satisfies: it is stored under its own id, an offer still in
      `Offered` has no offeree hands and no winner, and an accepted one has a winner label. */
  ghost predicate WellFormedOffer(key: u64, o: Offer) {
    && o.id == key
    && (o.status == Offered ==> o.offereeHands == [] && o.winner == "")
    && (o.status == Accepted ==> o.winner in {"draw", "offeror", "offeree"})
  }

  /** The contract's storage and its handlers. */
  class WagerContract {
    /** The hash and PRNG helpers the contract is built with. */
    const crypto: Crypto
    /** The configuration singleton. */
    var config: Config
    /** The "offers" bucket, keyed by offer id. */
    var offers: map<u64, Offer>
    /** The "tokenbets" bucket, keyed by bet id. */
    var tokenBets: map<u64, TokenBet>
    /** The "viewingkey" prefixed store: the hash of each owner's viewing key. */
    var viewingKeys: map<Addr, Bytes>

    ghost predicate Valid()
      reads this
    {
      && config.feeRate <= INVERSE_BASIS_POINT
      && forall id :: id in offers ==> WellFormedOffer(id, offers[id])
    }

    /** `init`: the configuration from the sender and the seed, and empty buckets. */
    constructor Init(sender: Addr, prngSeed: Bytes, crypto: Crypto)
      ensures Valid()
      ensures this.crypto == crypto
      ensures config == Config(crypto.seedHash(prngSeed), prngSeed, sender, sender, DEFAULT_FEE_RATE)
      ensures offers == map[] && tokenBets == map[] && viewingKeys == map[]
    {
      this.crypto := crypto;
      config := Config(crypto.seedHash(prngSeed), prngSeed, sender, sender, DEFAULT_FEE_RATE);
      offers := map[];
      tokenBets := map[];
      viewingKeys := map[];
    }

    /** `read_viewing_key`: the stored hash of the owner's key, if it has one. */
    function ReadViewingKey(owner: Addr): (r: Option<Bytes>)
      reads this
      ensures r.Some? <==> owner in viewingKeys
      ensures r.Some? ==> r.value == viewingKeys[owner]
    {
      if owner in viewingKeys then Some(viewingKeys[owner]) else None
    }

    /** `write_viewing_key`: store the hash of `key` for `owner`. */
    method WriteViewingKey(owner: Addr, key: string)
      modifies this`viewingKeys
      ensures viewingKeys == old(viewingKeys)[owner := crypto.hashKey(key)]
      ensures ReadViewingKey(owner) == Some(crypto.hashKey(key))
      ensures forall other :: other != owner ==> ReadViewingKey(other) == old(ReadViewingKey(other))
    {
      viewingKeys := viewingKeys[owner := crypto.hashKey(key)];
    }

    /** The viewing-key check of `query_offer`. With a key, a missing address or a missing stored
        key is an `unwrap` panic; otherwise the key's hash is compared with the stored one. */
    function CanViewHands(address: Option<Addr>, viewingKey: Option<string>): (r: Result<bool, Error>)
      reads this
      ensures viewingKey.None? ==> r == Ok(false)
      ensures r.Err? <==> viewingKey.Some? && (address.None? || address.value !in viewingKeys)
      ensures r == Ok(true) <==>
        viewingKey.Some? && address.Some? && address.value in viewingKeys &&
        crypto.hashKey(viewingKey.value) == viewingKeys[address.value]
    {
      match viewingKey
      case None => Ok(false)
      case Some(key) =>
        if address.None? then Err(Panic)
        else
          match ReadViewingKey(address.value)
          case None => Err(Panic)
          case Some(expected) => Ok(CtSliceCompare(crypto.hashKey(key), expected))
    }

    /** `query_offer`: the stored offer, with the offeror's hands blanked while it is still
        `Offered` and no valid viewing key was given; `None` for an absent id (the empty answer). */
    function QueryOffer(id: u64, address: Option<Addr>, viewingKey: Option<string>): (r: Result<Option<Offer>, Error>)
      reads this
      ensures r.Err? <==> CanViewHands(address, viewingKey).Err?
      ensures r.Ok? ==> (r.value.Some? <==> id in offers)
      ensures r.Ok? && r.value.Some? && offers[id].status == Offered && !CanViewHands(address, viewingKey).value ==>
        r.value.value == offers[id].(offerorHands := [])
      ensures r.Ok? && r.value.Some? && (offers[id].status != Offered || CanViewHands(address, viewingKey).value) ==>
        r.value.value == offers[id]
      ensures Valid() && r.Ok? && r.value.Some? && offers[id].status == Offered && !CanViewHands(address, viewingKey).value ==>
        r.value.value.offerorHands == [] && r.value.value.offereeHands == []
    {
      match CanViewHands(address, viewingKey)
      case Err(e) => Err(e)
      case Ok(canView) =>
        if id !in offers then Ok(None)
        else
          var o := offers[id];
          if o.status == Offered && !canView then Ok(Some(o.(offerorHands := []))) else Ok(Some(o))
    }

    /** `try_offer`: create offer `id` from the sender to `offeree` after checking that the id is
        free and that each party owns the NFT it stakes. */
    method TryOffer(
      q: Querier, sender: Addr, id: u64, offeree: Addr,
      offerorNftContract: Addr, offerorNft: string, offerorCodeHash: string,
      offereeNftContract: Addr, offereeNft: string, offereeCodeHash: string,
      hands: Bytes, drawPoint: i8) returns (r: Result<Response, Error>)
      requires Valid()
      modifies this`offers
      ensures Valid()
      ensures r.Err? ==> offers == old(offers)
      ensures id in old(offers) ==> r == Err(DuplicatedId(id))
      ensures id !in old(offers) && ValidateNft(q, offerorNftContract, offerorNft, offerorCodeHash, sender).Fail? ==>
        r == Err(ValidateNft(q, offerorNftContract, offerorNft, offerorCodeHash, sender).error)
      ensures (&& id !in old(offers)
               && ValidateNft(q, offerorNftContract, offerorNft, offerorCodeHash, sender).Pass?
               && ValidateNft(q, offereeNftContract, offereeNft, offereeCodeHash, offeree).Fail?) ==>
        r == Err(ValidateNft(q, offereeNftContract, offereeNft, offereeCodeHash, offeree).error)
      ensures r.Ok? <==>
        && id !in old(offers)
        && q.ownerOf(offerorNftContract, offerorNft, offerorCodeHash) == Some(sender)
        && q.ownerOf(offereeNftContract, offereeNft, offereeCodeHash) == Some(offeree)
        && AllHandBytes(hands)
      ensures r.Ok? ==>
        && offers == old(offers)[id := NewOffer(id, sender, offeree, offerorNftContract, offerorNft, offerorCodeHash,
                                                offereeNftContract, offereeNft, offereeCodeHash, hands, drawPoint).value]
        && r.value == Response([], [LogAttr("action", "offered")], None)
    {
      var idCheck := ValidateOfferId(offers, id);
      if idCheck.Fail? {
        return Err(idCheck.error);
      }
      var offerorCheck := ValidateNft(q, offerorNftContract, offerorNft, offerorCodeHash, sender);
      if offerorCheck.Fail? {
        return Err(offerorCheck.error);
      }
      var offereeCheck := ValidateNft(q, offereeNftContract, offereeNft, offereeCodeHash, offeree);
      if offereeCheck.Fail? {
        return Err(offereeCheck.error);
      }
      var offer := NewOffer(id, sender, offeree, offerorNftContract, offerorNft, offerorCodeHash,
                            offereeNftContract, offereeNft, offereeCodeHash, hands, drawPoint);
      if offer.None? {
        return Err(Panic);
      }
      offers := offers[id := offer.value];
      r := Ok(Response([], [LogAttr("action", "offered")], None));
    }

    /** `try_accept`: the offeree accepts offer `id` with its hands; the match is played and, on a
        decisive result, the loser's NFT is transferred to the winner. The status is not checked. */
    method TryAccept(sender: Addr, id: u64, hands: Bytes) returns (r: Result<Response, Error>)
      requires Valid()
      modifies this`offers
      ensures Valid()
      ensures r.Err? ==> offers == old(offers)
      ensures id !in old(offers) ==> r == Err(InvalidId(id))
      ensures id in old(offers) && old(offers)[id].offeree != sender ==> r == Err(NotOfferee(old(offers)[id].offeree))
      ensures r.Ok? <==>
        && id in old(offers)
        && old(offers)[id].offeree == sender
        && AllHandBytes(hands)
        && Scorable(old(offers)[id].offerorHands, Decoded(hands).value)
      ensures r.Ok? ==>
        var before := old(offers)[id];
        var accepted := AcceptOffer(before, sender, hands).value;
        var result := MatchOutcome(accepted.offerorHands, accepted.offereeHands, accepted.offerorDrawPoint);
        && offers == old(offers)[id := accepted.(winner := WinnerLabel(result))]
        && r.value.log == [LogAttr("action", "accepted")]
        && r.value.data == None
        && (result == Draw ==> r.value.messages == [])
        && (result == Win ==>
              r.value.messages == [TransferNft(before.offereeNftContract, before.offereeCodeHash, before.offeror, before.offereeNft)])
        && (result == Lose ==>
              r.value.messages == [TransferNft(before.offerorNftContract, before.offerorCodeHash, before.offeree, before.offerorNft)])
    {
      var loaded := ValidateOfferee(offers, sender, id);
      if loaded.Err? {
        return Err(loaded.error);
      }
      var accepted := AcceptOffer(loaded.value, sender, hands);
      if accepted.None? {
        return Err(Panic);
      }
      var offer := accepted.value;
      var result := CompeteHands(offer.offerorHands, offer.offereeHands, offer.offerorDrawPoint);
      if result.None? {
        return Err(Panic);
      }
      var messages: seq<CosmosMsg> := [];
      if result.value != Draw {
        var win := result.value == Win;
        messages := [TransferNft(
          if win then offer.offereeNftContract else offer.offerorNftContract,
          if win then offer.offereeCodeHash else offer.offerorCodeHash,
          if win then offer.offeror else offer.offeree,
          if win then offer.offereeNft else offer.offerorNft)];
      }
      offer := offer.(winner := WinnerLabel(result.value));
      offers := offers[id := offer];
      r := Ok(Response(messages, [LogAttr("action", "accepted")], None));
    }

    /** `try_decline`: the offeree declines offer `id`; no message is sent. The status is not checked. */
    method TryDecline(sender: Addr, id: u64) returns (r: Result<Response, Error>)
      requires Valid()
      modifies this`offers
      ensures Valid()
      ensures r.Err? ==> offers == old(offers)
      ensures id !in old(offers) ==> r == Err(InvalidId(id))
      ensures id in old(offers) && old(offers)[id].offeree != sender ==> r == Err(NotOfferee(old(offers)[id].offeree))
      ensures r.Ok? <==> id in old(offers) && old(offers)[id].offeree == sender
      ensures r.Ok? ==>
        && offers == old(offers)[id := DeclineOffer(old(offers)[id], sender)]
        && r.value == Response([], [LogAttr("action", "declined")], None)
    {
      var loaded := ValidateOfferee(offers, sender, id);
      if loaded.Err? {
        return Err(loaded.error);
      }
      offers := offers[id := DeclineOffer(loaded.value, sender)];
      r := Ok(Response([], [LogAttr("action", "declined")], None));
    }

    /** `try_bet_token`: bet `amount` of `denom` with `hand` against the house. Both balances are
        checked before the entropy is advanced; exactly one bank message settles the bet. */
    method TryBetToken(q: Querier, sender: Addr, denom: string, amount: u64, hand: u8, entropy: Bytes)
      returns (r: Result<Response, Error>)
      requires Valid()
      modifies this`config
      ensures Valid()
      ensures r.Err? ==> config == old(config)
      ensures ValidateBalance(q, sender, denom, amount).Fail? ==>
        r == Err(ValidateBalance(q, sender, denom, amount).error)
      ensures (&& ValidateBalance(q, sender, denom, amount).Pass?
               && ValidateBalance(q, old(config).bankerWallet, denom, amount).Fail?) ==>
        r == Err(ValidateBalance(q, old(config).bankerWallet, denom, amount).error)
      ensures r.Ok? <==>
        && ValidateBalance(q, sender, denom, amount).Pass?
        && ValidateBalance(q, old(config).bankerWallet, denom, amount).Pass?
        && FromByte(hand).Some?
        && amount * old(config).feeRate <= U64_MAX
      ensures r.Ok? ==> config == old(config).(entropy := crypto.newRandBytes(old(config).entropy, entropy))
      ensures r.Ok? ==>
        var result := Compete(FromByte(hand).value, crypto.randHand(config.entropy));
        var fee := CalculateFee(amount, config.feeRate);
        && r.value.log == [LogAttr("action", "bet"), LogAttr("result", ResultLabel(result))]
        && r.value.data == None
        && (result == Win ==> r.value.messages == [BankSend(config.feeRecipient, sender, Coin(denom, amount - fee))])
        && (result == Draw ==> r.value.messages == [BankSend(sender, config.feeRecipient, Coin(denom, fee))])
        && (result == Lose ==> r.value.messages == [BankSend(sender, config.feeRecipient, Coin(denom, amount))])
    {
      var senderCheck := ValidateBalance(q, sender, denom, amount);
      if senderCheck.Fail? {
        return Err(senderCheck.error);
      }
      var bankerCheck := ValidateBalance(q, config.bankerWallet, denom, amount);
      if bankerCheck.Fail? {
        return Err(bankerCheck.error);
      }
      // The source saves the new entropy here; the two aborts below discard that write together
      // with the rest of the invocation, so the model commits it only once they are passed.
      var rng := crypto.newRandBytes(config.entropy, entropy);
      var playerHand := FromByte(hand);
      if playerHand.None? {
        return Err(Panic);
      }
      if amount * config.feeRate > U64_MAX {
        return Err(Panic);
      }
      config := config.(entropy := rng);
      var result := Compete(playerHand.value, crypto.randHand(rng));
      var fee := CalculateFee(amount, config.feeRate);
      var message :=
        match result
        case Win => BankSend(config.feeRecipient, sender, Coin(denom, amount - fee))
        case Draw => BankSend(sender, config.feeRecipient, Coin(denom, fee))
        case Lose => BankSend(sender, config.feeRecipient, Coin(denom, amount));
      r := Ok(Response([message], [LogAttr("action", "bet"), LogAttr("result", ResultLabel(result))], None));
    }

    /** `try_generate_viewing_key`: derive a key for the sender from the current block, the seed and
        the caller's entropy, store its hash and return it. */
    method TryGenerateViewingKey(sender: Addr, block: Block, entropy: Bytes) returns (r: Result<Response, Error>)
      requires Valid()
      modifies this`viewingKeys
      ensures Valid()
      ensures
        var key := crypto.newViewingKey(sender, block, config.prngSeed, entropy);
        && viewingKeys == old(viewingKeys)[sender := crypto.hashKey(key)]
        && r == Ok(Response([], [LogAttr("action", "generated")], Some(key)))
        && CanViewHands(Some(sender), Some(key)) == Ok(true)
    {
      var key := crypto.newViewingKey(sender, block, config.prngSeed, entropy);
      WriteViewingKey(sender, key);
      r := Ok(Response([], [LogAttr("action", "generated")], Some(key)));
    }
  }
}
