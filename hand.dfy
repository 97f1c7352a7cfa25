/** The hand competition logic of src/hand.rs: single hands, hand sequences and their byte form. */
module Janken {
  import opened Types
  import opened Wrappers

  /** One of the three hands; the wire codes are Rock = 1, Paper = 2, Scissors = 3. */
  datatype Hand = Rock | Paper | Scissors

  /** The result of a match, from the point of view of the first player. */
  datatype MatchResult = Lose | Draw | Win

  /** `Hand::u8`: the enum discriminant. */
  function Code(h: Hand): (r: u8)
    ensures 1 <= r <= 3
  {
    match h
    case Rock => 1
    case Paper => 2
    case Scissors => 3
  }

  /** `From<&u8> for Hand`. The source panics on a byte outside 1..3; here that is `None`. */
  function FromByte(b: u8): (r: Option<Hand>)
    ensures r.Some? <==> 1 <= b <= 3
    ensures r.Some? ==> Code(r.value) == b
  {
    if b == 1 then Some(Rock)
    else if b == 2 then Some(Paper)
    else if b == 3 then Some(Scissors)
    else None
  }

  /** Reference rule of the 3-cycle: `a` beats `b` iff `a` is the cyclic successor of `b`
      in 1 -> 2 -> 3 -> 1, i.e. Paper beats Rock, Scissors beats Paper, Rock beats Scissors. */
  predicate Beats(a: Hand, b: Hand) {
    (Code(a) - Code(b)) % 3 == 1
  }

  /** `Hand::compete`, written with the source's own comparisons on the codes. */
  function Compete(a: Hand, b: Hand): (r: MatchResult)
    ensures r == Draw <==> a == b
    ensures r == Win <==> Beats(a, b)
    ensures r == Lose <==> Beats(b, a)
  {
    if Code(a) == Code(b) then Draw
    else if (a == Rock && b == Scissors) || (Code(a) > Code(b) && !(a == Scissors && b == Rock)) then Win
    else Lose
  }

  /** The discriminant of `MatchResult` (Lose = 0, Draw = 1, Win = 2). */
  function Discriminant(r: MatchResult): (d: int) {
    match r
    case Lose => 0
    case Draw => 1
    case Win => 2
  }

  /** `MatchResult::to_point`: the discriminant minus one. */
  function ToPoint(r: MatchResult): (p: i8)
    ensures r == Lose ==> p == -1
    ensures r == Draw ==> p == 0
    ensures r == Win ==> p == 1
  {
    Discriminant(r) - 1
  }

  /** The same match seen from the other player. */
  function Opposite(r: MatchResult): (o: MatchResult) {
    match r
    case Lose => Win
    case Draw => Draw
    case Win => Lose
  }

  /** The final comparison of `Hands::compete` between the accumulated points and the draw point. */
  function Verdict(point: int, drawPoint: int): (v: MatchResult) {
    if point > drawPoint then Win
    else if point == drawPoint then Draw
    else Lose
  }

  /** The sum of the per-position points of `mine` against `theirs`, position by position. */
  function Score(mine: seq<Hand>, theirs: seq<Hand>): (s: int)
    requires |mine| == |theirs|
    decreases |mine|
  {
    if |mine| == 0 then 0
    else Score(mine[..|mine| - 1], theirs[..|theirs| - 1]) + ToPoint(Compete(mine[|mine| - 1], theirs[|theirs| - 1]))
  }

  /** `Hands::compete` runs to its end without a panic: the opponent has a hand at every position
      of `mine` (the loop indexes `opponent_hands[i]`), and every running total fits the `i8`
      accumulator `point`. */
  ghost predicate Scorable(mine: seq<Hand>, theirs: seq<Hand>) {
    |mine| <= |theirs| &&
    forall k :: 0 <= k <= |mine| ==> InI8(Score(mine[..k], theirs[..k]))
  }

  /** The result `Hands::compete` returns: only the first `|mine|` opponent hands are looked at. */
  function MatchOutcome(mine: seq<Hand>, theirs: seq<Hand>, drawPoint: int): (v: MatchResult)
    requires |mine| <= |theirs|
  {
    Verdict(Score(mine, theirs[..|mine|]), drawPoint)
  }

  /** `Hands::compete`: accumulate the points of each position, then compare with `drawPoint`.
      `None` stands for the source's panic (opponent too short, or `i8` overflow of `point`). */
  method CompeteHands(mine: seq<Hand>, theirs: seq<Hand>, drawPoint: i8) returns (r: Option<MatchResult>)
    ensures r.Some? <==> Scorable(mine, theirs)
    ensures r.Some? ==> r.value == MatchOutcome(mine, theirs, drawPoint)
    ensures r.Some? ==> (r.value == Win <==> Score(mine, theirs[..|mine|]) > drawPoint)
    ensures r.Some? ==> (r.value == Draw <==> Score(mine, theirs[..|mine|]) == drawPoint)
    ensures r.Some? ==> (r.value == Lose <==> Score(mine, theirs[..|mine|]) < drawPoint)
  {
    var point: int := 0;
    var i := 0;
    while i < |mine|
      invariant 0 <= i <= |mine| && i <= |theirs|
      invariant point == Score(mine[..i], theirs[..i])
      invariant forall k :: 0 <= k <= i ==> InI8(Score(mine[..k], theirs[..k]))
    {
      if i >= |theirs| {
        // `opponent_hands[i]` is out of bounds
        return None;
      }
      var sum := point + ToPoint(Compete(mine[i], theirs[i]));
      assert mine[..i + 1][..i] == mine[..i] && theirs[..i + 1][..i] == theirs[..i];
      assert sum == Score(mine[..i + 1], theirs[..i + 1]);
      if !InI8(sum) {
        // `point += ..` overflows the `i8`
        return None;
      }
      point, i := sum, i + 1;
    }
    assert mine[..i] == mine;
    r := Some(Verdict(point, drawPoint));
  }

  /** Each position contributes at most one point either way. */
  lemma {:induction false} ScoreBounds(mine: seq<Hand>, theirs: seq<Hand>)
    requires |mine| == |theirs|
    ensures -|mine| <= Score(mine, theirs) <= |mine|
  {
    if |mine| > 0 {
      ScoreBounds(mine[..|mine| - 1], theirs[..|theirs| - 1]);
    }
  }

  /** With at most 127 positions the `i8` accumulator cannot overflow. */
  lemma ShortHandsScorable(mine: seq<Hand>, theirs: seq<Hand>)
    requires |mine| <= |theirs|
    requires |mine| <= 127
    ensures Scorable(mine, theirs)
  {
    forall k | 0 <= k <= |mine|
      ensures InI8(Score(mine[..k], theirs[..k]))
    {
      ScoreBounds(mine[..k], theirs[..k]);
    }
  }

  /** Any hand against itself is a draw. */
  lemma CompeteReflexive(a: Hand)
    ensures Compete(a, a) == Draw
  {
  }

  /** Antisymmetry: `a` wins against `b` exactly when `b` loses against `a`. */
  lemma CompeteAntisymmetric(a: Hand, b: Hand)
    ensures Compete(a, b) == Win <==> Compete(b, a) == Lose
    ensures Compete(b, a) == Opposite(Compete(a, b))
  {
  }

  /** Swapping the two sequences negates the score. */
  lemma {:induction false} ScoreSwap(a: seq<Hand>, b: seq<Hand>)
    requires |a| == |b|
    ensures Score(b, a) == -Score(a, b)
  {
    if |a| > 0 {
      ScoreSwap(a[..|a| - 1], b[..|b| - 1]);
      CompeteAntisymmetric(a[|a| - 1], b[|b| - 1]);
    }
  }

  /** Swapping the sequences and negating the draw point gives the opposite result;
      in particular one is a draw iff the other is. */
  lemma HandsSwap(a: seq<Hand>, b: seq<Hand>, drawPoint: int)
    requires |a| == |b|
    ensures MatchOutcome(b, a, -drawPoint) == Opposite(MatchOutcome(a, b, drawPoint))
    ensures MatchOutcome(a, b, drawPoint) == Draw <==> MatchOutcome(b, a, -drawPoint) == Draw
  {
    assert a[..|b|] == a;
    assert b[..|a|] == b;
    ScoreSwap(a, b);
  }

  /** A sequence that wins every position scores its length. */
  lemma {:induction false} AllWinsScore(mine: seq<Hand>, theirs: seq<Hand>)
    requires |mine| == |theirs|
    requires forall i :: 0 <= i < |mine| ==> Compete(mine[i], theirs[i]) == Win
    ensures Score(mine, theirs) == |mine|
  {
    if |mine| > 0 {
      AllWinsScore(mine[..|mine| - 1], theirs[..|theirs| - 1]);
    }
  }

  /** Winning every position wins below the maximum score, draws at it and never loses. */
  lemma AllWinsOutcome(mine: seq<Hand>, theirs: seq<Hand>, drawPoint: int)
    requires |mine| == |theirs|
    requires forall i :: 0 <= i < |mine| ==> Compete(mine[i], theirs[i]) == Win
    ensures MatchOutcome(mine, theirs, drawPoint) != Lose || drawPoint > |mine|
    ensures drawPoint < |mine| ==> MatchOutcome(mine, theirs, drawPoint) == Win
    ensures drawPoint == |mine| ==> MatchOutcome(mine, theirs, drawPoint) == Draw
  {
    assert theirs[..|mine|] == theirs;
    AllWinsScore(mine, theirs);
  }

  /** The multi-round examples of the source's own test. */
  lemma HandsCompeteExamples()
    ensures MatchOutcome([Rock, Paper, Scissors, Rock], [Scissors, Paper, Rock, Scissors], 1) == Draw
    ensures MatchOutcome([Rock, Paper, Scissors, Rock], [Scissors, Paper, Rock, Scissors], 0) == Win
    ensures MatchOutcome([Rock, Paper, Scissors, Rock], [Scissors, Paper, Rock, Scissors], 2) == Lose
    ensures MatchOutcome([Scissors, Paper, Rock, Scissors], [Rock, Paper, Scissors, Rock], -1) == Draw
    ensures MatchOutcome([Scissors, Paper, Rock, Scissors], [Rock, Paper, Scissors, Rock], -2) == Win
    ensures MatchOutcome([Scissors, Paper, Rock, Scissors], [Rock, Paper, Scissors, Rock], 0) == Lose
  {
    var p1, p2 := [Rock, Paper, Scissors, Rock], [Scissors, Paper, Rock, Scissors];
    assert p2[..4] == p2 && p1[..4] == p1;
    assert Score(p1, p2) == 1 by {
      assert p1[..3] == [Rock, Paper, Scissors] && p2[..3] == [Scissors, Paper, Rock];
      assert [Rock, Paper, Scissors][..2] == [Rock, Paper] && [Scissors, Paper, Rock][..2] == [Scissors, Paper];
      assert [Rock, Paper][..1] == [Rock] && [Scissors, Paper][..1] == [Scissors];
      assert [Rock][..0] == [] && [Scissors][..0] == [];
    }
    ScoreSwap(p1, p2);
  }

  /** The byte form of a hand sequence: one code per position. */
  function Encoded(hands: seq<Hand>): (r: Bytes)
    ensures |r| == |hands|
    ensures forall i :: 0 <= i < |hands| ==> r[i] == Code(hands[i])
  {
    if |hands| == 0 then []
    else Encoded(hands[..|hands| - 1]) + [Code(hands[|hands| - 1])]
  }

  /** Every byte is a hand code. */
  predicate AllHandBytes(bs: Bytes) {
    forall i :: 0 <= i < |bs| ==> 1 <= bs[i] <= 3
  }

  /** Decoding a byte sequence hand by hand; `None` when some byte is not a hand code. */
  function Decoded(bs: Bytes): (r: Option<seq<Hand>>)
    ensures r.Some? <==> AllHandBytes(bs)
    ensures r.Some? ==> |r.value| == |bs| && forall i :: 0 <= i < |bs| ==> Code(r.value[i]) == bs[i]
  {
    if |bs| == 0 then Some([])
    else
      match Decoded(bs[..|bs| - 1])
      case None => None
      case Some(init) =>
        match FromByte(bs[|bs| - 1])
        case None => None
        case Some(h) => Some(init + [h])
  }

  /** The code determines the hand. */
  lemma CodeInjective(a: Hand, b: Hand)
    ensures Code(a) == Code(b) ==> a == b
  {
  }

  /** Decoding the encoding gives the hands back. */
  lemma DecodeEncode(hands: seq<Hand>)
    ensures Decoded(Encoded(hands)) == Some(hands)
  {
    var bs := Encoded(hands);
    assert AllHandBytes(bs);
    var back := Decoded(bs).value;
    forall i | 0 <= i < |hands|
      ensures back[i] == hands[i]
    {
      CodeInjective(back[i], hands[i]);
    }
    assert back == hands;
  }

  /** Byte round trip: encoding the decoded hands gives the bytes back. */
  lemma EncodeDecode(bs: Bytes)
    requires AllHandBytes(bs)
    ensures Decoded(bs).Some? && Encoded(Decoded(bs).value) == bs
  {
  }

  /** `Hands::to_u8_vec`: push the code of each hand. */
  method ToU8Vec(hands: seq<Hand>) returns (result: Bytes)
    ensures result == Encoded(hands)
  {
    result := [];
    var i := 0;
    while i < |hands|
      invariant 0 <= i <= |hands|
      invariant result == Encoded(hands[..i])
    {
      assert hands[..i + 1][..i] == hands[..i];
      result := result + [Code(hands[i])];
      i := i + 1;
    }
    assert hands[..i] == hands;
  }

  /** `From<Vec<u8>> for Hands`: push the decoding of each byte. `None` stands for the panic on
      the first byte that is not a hand code. */
  method FromU8Vec(original: Bytes) returns (r: Option<seq<Hand>>)
    ensures r == Decoded(original)
  {
    var hands: seq<Hand> := [];
    var i := 0;
    while i < |original|
      invariant 0 <= i <= |original|
      invariant Decoded(original[..i]) == Some(hands)
    {
      var h := FromByte(original[i]);
      if h.None? {
        return None;
      }
      assert original[..i + 1][..i] == original[..i];
      hands := hands + [h.value];
      i := i + 1;
    }
    assert original[..i] == original;
    r := Some(hands);
  }
}
