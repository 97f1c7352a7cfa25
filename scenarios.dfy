/** The contract's unit tests, replayed as clients that only use the handlers' contracts. */
module ContractScenarios {
  import opened Types
  import opened Wrappers
  import opened Janken
  import opened Utils
  import opened State
  import opened Validation
  import opened Contract

  /** The NFT owners and balances of the tests' mock querier. */
  function MockQuerier(): Querier {
    Querier(
      (contractAddr: Addr, tokenId: string, codeHash: string) =>
        if tokenId == "nft_id_1" then Some("nft_owner_1")
        else if tokenId == "nft_id_2" then Some("nft_owner_2")
        else if tokenId == "nft_id_3" then Some("nft_owner_3")
        else None,
      (address: Addr, denom: string) =>
        if address == "stranger" then Some(0) else Some(10000))
  }

  /** Stand-ins for the hash functions, with the house always drawing `house`. */
  function MockCrypto(house: Hand): Crypto {
    Crypto(
      (seed: Bytes) => seed,
      (seed: Bytes, entropy: Bytes) => seed + entropy,
      (bytes: Bytes) => house,
      (sender: Addr, block: Block, seed: Bytes, entropy: Bytes) => "api_key_" + sender,
      (key: string) => [|key| % 0x100])
  }

  /** Offer 100 with hands [1, 2, 3] and draw point -1 from nft_owner_1 to nft_owner_2. */
  method MakeSampleOffer(c: WagerContract) returns (r: Result<Response, Error>)
    requires c.Valid()
    modifies c`offers
    ensures c.Valid()
    ensures r.Ok? <==> 100 !in old(c.offers)
    ensures r.Ok? ==> c.offers.Keys == old(c.offers).Keys + {100} && c.offers[100].status == Offered
    ensures r.Ok? ==> c.offers[100].offerorHands == [Rock, Paper, Scissors]
    ensures r.Ok? ==> c.offers[100].offeror == "nft_owner_1" && c.offers[100].offeree == "nft_owner_2"
    ensures r.Ok? ==> c.offers[100].offerorDrawPoint == -1 && c.offers[100].offereeNft == "nft_id_2"
    ensures r.Ok? ==> c.offers[100].offereeNftContract == "offeree_contract" && c.offers[100].offereeCodeHash == "offeree_code_hash"
    ensures r.Err? ==> r == Err(DuplicatedId(100)) && c.offers == old(c.offers)
  {
    r := c.TryOffer(MockQuerier(), "nft_owner_1", 100, "nft_owner_2",
                    "offeror_contract", "nft_id_1", "offeror_code_hash",
                    "offeree_contract", "nft_id_2", "offeree_code_hash", [1, 2, 3], -1);
    if r.Ok? {
      DecodeEncode(c.offers[100].offerorHands);
      SampleDecoding();
    }
  }

  /** Decoding the test's byte sequences. */
  lemma SampleDecoding()
    ensures Decoded([1, 2, 3]) == Some([Rock, Paper, Scissors])
    ensures Decoded([3, 2, 1]) == Some([Scissors, Paper, Rock])
    ensures Decoded([2, 3, 3]) == Some([Paper, Scissors, Scissors])
  {
    var mine, theirs := [Rock, Paper, Scissors], [Scissors, Paper, Rock];
    DecodeEncode(mine);
    DecodeEncode(theirs);
    var e1, e2 := Encoded(mine), Encoded(theirs);
    assert |e1| == 3 && e1[0] == 1 && e1[1] == 2 && e1[2] == 3;
    assert e1 == [1, 2, 3];
    assert |e2| == 3 && e2[0] == 3 && e2[1] == 2 && e2[2] == 1;
    assert e2 == [3, 2, 1];
    var third := [Paper, Scissors, Scissors];
    DecodeEncode(third);
    var e3 := Encoded(third);
    assert |e3| == 3 && e3[0] == 2 && e3[1] == 3 && e3[2] == 3;
    assert e3 == [2, 3, 3];
  }

  /** The hands of the accept test: [1, 2, 3] against [3, 2, 1] scores 0, above the draw point -1. */
  lemma SampleMatch()
    ensures Scorable([Rock, Paper, Scissors], [Scissors, Paper, Rock])
    ensures MatchOutcome([Rock, Paper, Scissors], [Scissors, Paper, Rock], -1) == Win
  {
    var mine, theirs := [Rock, Paper, Scissors], [Scissors, Paper, Rock];
    ShortHandsScorable(mine, theirs);
    assert theirs[..3] == theirs;
    assert Score(mine, theirs) == 0 by {
      assert mine[..2] == [Rock, Paper] && theirs[..2] == [Scissors, Paper];
      assert [Rock, Paper][..1] == [Rock] && [Scissors, Paper][..1] == [Scissors];
      assert [Rock][..0] == [] && [Scissors][..0] == [];
    }
  }

  /** A duplicated id is refused and a stranger cannot accept. */
  method DuplicateAndStrangerScenario() returns (again: Result<Response, Error>, stranger: Result<Response, Error>)
    ensures again == Err(DuplicatedId(100))
    ensures stranger == Err(NotOfferee("nft_owner_2"))
  {
    var c := new WagerContract.Init("bank_wallet", [1, 2, 3], MockCrypto(Rock));
    var made := MakeSampleOffer(c);
    assert made.Ok?;
    again := MakeSampleOffer(c);
    stranger := c.TryAccept("invalid_sender", 100, [3, 2, 1]);
  }

  /** The offeree's [3, 2, 1] loses to [1, 2, 3] at draw point -1, so nft_id_2 goes to nft_owner_1. */
  method AcceptScenario() returns (accepted: Result<Response, Error>, winner: string)
    ensures accepted.Ok?
    ensures accepted.value.messages == [TransferNft("offeree_contract", "offeree_code_hash", "nft_owner_1", "nft_id_2")]
    ensures winner == "offeror"
  {
    var c := new WagerContract.Init("bank_wallet", [1, 2, 3], MockCrypto(Rock));
    var made := MakeSampleOffer(c);
    assert made.Ok?;
    SampleDecoding();
    SampleMatch();
    accepted := c.TryAccept("nft_owner_2", 100, [3, 2, 1]);
    winner := c.offers[100].winner;
  }

  /** Without a key the offeror's hands of an open offer are hidden; an absent id gives the empty answer. */
  method QueryWithoutKeyScenario() returns (hidden: Result<Option<Offer>, Error>, absent: Result<Option<Offer>, Error>)
    ensures hidden.Ok? && hidden.value.Some? && hidden.value.value.offerorHands == []
    ensures absent == Ok(None)
  {
    var c := new WagerContract.Init("bank_wallet", [1, 2, 3], MockCrypto(Rock));
    var made := MakeSampleOffer(c);
    assert made.Ok?;
    hidden := c.QueryOffer(100, None, None);
    absent := c.QueryOffer(7, None, None);
  }

  /** The key the offeror generates shows its hands. */
  method QueryWithKeyScenario() returns (shown: Result<Option<Offer>, Error>)
    ensures shown.Ok? && shown.value.Some? && shown.value.value.offerorHands == [Rock, Paper, Scissors]
  {
    var c := new WagerContract.Init("bank_wallet", [1, 2, 3], MockCrypto(Rock));
    var made := MakeSampleOffer(c);
    assert made.Ok?;
    // the bytes of "entropy"
    var generated := c.TryGenerateViewingKey("nft_owner_1", Block(12345, 1571797419), [101, 110, 116, 114, 111, 112, 121]);
    assert generated.Ok? && generated.value.data.Some?;
    var key := generated.value.data.value;
    shown := c.QueryOffer(100, Some("nft_owner_1"), Some(key));
    assert shown == Ok(Some(c.offers[100]));
  }

  /** Once accepted, both hand sequences are shown to anyone. */
  method QueryAfterAcceptScenario() returns (after: Result<Option<Offer>, Error>)
    ensures after.Ok? && after.value.Some?
    ensures after.value.value.offerorHands == [Rock, Paper, Scissors]
    ensures after.value.value.offereeHands == [Paper, Scissors, Scissors]
  {
    var c := new WagerContract.Init("bank_wallet", [1, 2, 3], MockCrypto(Rock));
    var made := MakeSampleOffer(c);
    assert made.Ok?;
    SampleDecoding();
    ShortHandsScorable([Rock, Paper, Scissors], [Paper, Scissors, Scissors]);
    var accepted := c.TryAccept("nft_owner_2", 100, [2, 3, 3]);
    assert accepted.Ok?;
    after := c.QueryOffer(100, None, None);
    assert after == Ok(Some(c.offers[100]));
  }

  /** A bet of 100 with the default rate: a win pays 97, a draw costs the fee of 3, a loss costs 100,
      and a bettor whose balance is short is refused without touching the entropy. */
  method BetScenario() returns (won: Result<Response, Error>, drawn: Result<Response, Error>,
                                lost: Result<Response, Error>, poor: Result<Response, Error>)
    ensures won.Ok? && won.value.messages == [BankSend("bank_wallet", "bettor_1", Coin("uscrt", 97))]
    ensures drawn.Ok? && drawn.value.messages == [BankSend("bettor_1", "bank_wallet", Coin("uscrt", 3))]
    ensures lost.Ok? && lost.value.messages == [BankSend("bettor_1", "bank_wallet", Coin("uscrt", 100))]
    ensures poor == Err(InsufficientBalance("stranger"))
  {
    DefaultFeeOnHundred();
    var win := new WagerContract.Init("bank_wallet", [1], MockCrypto(Scissors));
    won := win.TryBetToken(MockQuerier(), "bettor_1", "uscrt", 100, 1, [7]);

    var draw := new WagerContract.Init("bank_wallet", [1], MockCrypto(Rock));
    drawn := draw.TryBetToken(MockQuerier(), "bettor_1", "uscrt", 100, 1, [7]);

    var lose := new WagerContract.Init("bank_wallet", [1], MockCrypto(Paper));
    lost := lose.TryBetToken(MockQuerier(), "bettor_1", "uscrt", 100, 1, [7]);
    assert lose.config.entropy == [1, 7];

    poor := lose.TryBetToken(MockQuerier(), "stranger", "uscrt", 100, 1, [8]);
    assert lose.config.entropy == [1, 7];
  }
}
