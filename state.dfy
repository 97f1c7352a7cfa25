/** The persisted records of src/state.rs and the operations on an offer. */
module State {
  import opened Types
  import opened Wrappers
  import opened Janken

  /** The singleton configuration record (the source's `State`, stored under "config"). */
  datatype Config = Config(
    prngSeed: Bytes,
    entropy: Bytes,
    bankerWallet: Addr,
    feeRecipient: Addr,
    feeRate: u64)

  datatype OfferStatus = Offered | Accepted | Declined

  /** A wager of two NFTs on a sequence of hands. */
  datatype Offer = Offer(
    id: u64,
    status: OfferStatus,
    offeror: Addr,
    offeree: Addr,
    offerorNftContract: Addr,
    offerorNft: string,
    offerorCodeHash: string,
    offereeNftContract: Addr,
    offereeNft: string,
    offereeCodeHash: string,
    offerorHands: seq<Hand>,
    offereeHands: seq<Hand>,
    offerorDrawPoint: i8,
    winner: string)

  /** A token bet record (kept under the "tokenbets" prefix). */
  datatype TokenBet = TokenBet(id: u64, denom: string, amount: u64, hand: Hand, result: string)

  /** `Offer::new`. Decoding `hands` panics in the source on a byte that is not a hand code;
      here that is `None`. */
  function NewOffer(
    id: u64, offeror: Addr, offeree: Addr,
    offerorNftContract: Addr, offerorNft: string, offerorCodeHash: string,
    offereeNftContract: Addr, offereeNft: string, offereeCodeHash: string,
    hands: Bytes, drawPoint: i8): (r: Option<Offer>)
    ensures r.Some? <==> AllHandBytes(hands)
    ensures r.Some? ==>
      && r.value.status == Offered
      && r.value.offereeHands == []
      && r.value.winner == ""
      && Encoded(r.value.offerorHands) == hands
      && r.value.offerorDrawPoint == drawPoint
    ensures r.Some? ==>
      && r.value.id == id && r.value.offeror == offeror && r.value.offeree == offeree
      && r.value.offerorNftContract == offerorNftContract && r.value.offerorNft == offerorNft
      && r.value.offerorCodeHash == offerorCodeHash
      && r.value.offereeNftContract == offereeNftContract && r.value.offereeNft == offereeNft
      && r.value.offereeCodeHash == offereeCodeHash
  {
    match Decoded(hands)
    case None => None
    case Some(hs) =>
      EncodeDecode(hands);
      Some(Offer(id, Offered, offeror, offeree,
                 offerorNftContract, offerorNft, offerorCodeHash,
                 offereeNftContract, offereeNft, offereeCodeHash,
                 hs, [], drawPoint, ""))
  }

  /** `Offer::accept_offer`, on the loaded copy of the offer: status Accepted, the caller as
      offeree, the decoded hands as the offeree's; nothing else changes. `None` stands for the
      decoding panic. */
  function AcceptOffer(o: Offer, offeree: Addr, hands: Bytes): (r: Option<Offer>)
    ensures r.Some? <==> AllHandBytes(hands)
    ensures r.Some? ==>
      && r.value.status == Accepted
      && r.value.offeree == offeree
      && Encoded(r.value.offereeHands) == hands
    ensures r.Some? ==> r.value.(status := o.status, offeree := o.offeree, offereeHands := o.offereeHands) == o
  {
    match Decoded(hands)
    case None => None
    case Some(hs) =>
      EncodeDecode(hands);
      Some(o.(status := Accepted, offeree := offeree, offereeHands := hs))
  }

  /** `Offer::decline_offer`: status Declined and the caller as offeree; both hand sequences and
      every other field are left as they were. */
  function DeclineOffer(o: Offer, offeree: Addr): (r: Offer)
    ensures r.status == Declined && r.offeree == offeree
    ensures r.offerorHands == o.offerorHands && r.offereeHands == o.offereeHands
    ensures r.(status := o.status, offeree := o.offeree) == o
  {
    o.(status := Declined, offeree := offeree)
  }
}
