/**
 * The table: the state the application keeps between clicks (stage, seat
 * count, deck, hands, board, analysis, error message) and the handlers that
 * move a hand from dealing through the streets to its analysis.
 */
module Game {
  import opened Wrappers
  import opened Cards
  import opened Deck
  import opened Equity
  import opened Showdown

  /** The three buttons shown while a hand is in play. */
  datatype Action = Bet | Check | Fold

  /** The ranks a strong starting pair is drawn from. */
  const HighRanks: seq<Rank> := [Ten, Jack, Queen, King, Ace]

  /** The message shown when the analysis throws. */
  const AnalysisError: string := "Failed to analyze game. " + "游戏分析失败。"

  // ---------------------------------------------------------------------
  // The player's deal
  // ---------------------------------------------------------------------

  /** The cards of a deck that have rank r, in deck order. */
  function OfRank(deck: seq<Card>, r: Rank): (s: seq<Card>)
  {
    if deck == [] then []
    else (if deck[0].rank == r then [deck[0]] else []) + OfRank(deck[1..], r)
  }

  lemma OfRankAppend(a: seq<Card>, b: seq<Card>, r: Rank)
    ensures OfRank(a + b, r) == OfRank(a, r) + OfRank(b, r)
  {
    if a != [] {
      assert (a + b)[0] == a[0];
      assert (a + b)[1..] == a[1..] + b;
      OfRankAppend(a[1..], b, r);
    } else {
      assert a + b == b;
    }
  }

  /** The thirteen cards of one suit, Two to Ace. */
  function SuitRun(s: Suit): (run: seq<Card>)
    ensures |run| == 13
  {
    seq(13, i requires 0 <= i < 13 => Card(RankAt(i), s))
  }

  /** Only the card of rank r is picked out of the run from position k on. */
  lemma {:induction false} OfRankSuitRun(s: Suit, r: Rank, k: nat)
    requires k <= 13
    ensures OfRank(SuitRun(s)[k..], r) == if RankValue(r) >= k then [Card(r, s)] else []
    decreases 13 - k
  {
    if k < 13 {
      var tail := SuitRun(s)[k..];
      assert tail[1..] == SuitRun(s)[k + 1..];
      OfRankSuitRun(s, r, k + 1);
      assert tail[0].rank == RankAt(k);
      RankAtValue(r);
      assert tail[0].rank == r <==> RankValue(r) == k;
    }
  }

  lemma FullDeckRuns()
    ensures FullDeck() == SuitRun(Spades) + SuitRun(Hearts) + SuitRun(Diamonds) + SuitRun(Clubs)
  {
    var runs := SuitRun(Spades) + SuitRun(Hearts) + SuitRun(Diamonds) + SuitRun(Clubs);
    forall i | 0 <= i < 52 ensures FullDeck()[i] == runs[i] {
      var q := i / 13;
      assert runs[i] == SuitRun(Suits[q])[i - 13 * q];
    }
  }

  lemma OfRankRun(s: Suit, r: Rank)
    ensures OfRank(SuitRun(s), r) == [Card(r, s)]
  {
    assert SuitRun(s)[0..] == SuitRun(s);
    OfRankSuitRun(s, r, 0);
  }

  lemma OfRankFour(a: seq<Card>, b: seq<Card>, c: seq<Card>, d: seq<Card>, r: Rank)
    ensures OfRank(a + b + c + d, r) == OfRank(a, r) + OfRank(b, r) + OfRank(c, r) + OfRank(d, r)
  {
    OfRankAppend(a + b + c, d, r);
    OfRankAppend(a + b, c, r);
    OfRankAppend(a, b, r);
  }

  lemma OfRankRuns(d: seq<Card>, sp: seq<Card>, he: seq<Card>, di: seq<Card>, cl: seq<Card>, r: Rank)
    requires d == sp + he + di + cl
    requires OfRank(sp, r) == [Card(r, Spades)] && OfRank(he, r) == [Card(r, Hearts)]
    requires OfRank(di, r) == [Card(r, Diamonds)] && OfRank(cl, r) == [Card(r, Clubs)]
    ensures OfRank(d, r) == [Card(r, Spades), Card(r, Hearts), Card(r, Diamonds), Card(r, Clubs)]
  {
    OfRankFour(sp, he, di, cl, r);
    FourCards(Card(r, Spades), Card(r, Hearts), Card(r, Diamonds), Card(r, Clubs), OfRank(d, r));
  }

  lemma FourCards(x: Card, y: Card, z: Card, w: Card, s: seq<Card>)
    requires s == [x] + [y] + [z] + [w]
    ensures s == [x, y, z, w]
  {
  }

  /** In the full deck the four cards of a rank come in suit order, spades and hearts first. */
  lemma OfRankFullDeck(r: Rank)
    ensures OfRank(FullDeck(), r) == [Card(r, Spades), Card(r, Hearts), Card(r, Diamonds), Card(r, Clubs)]
  {
    FullDeckRuns();
    OfRankRun(Spades, r);
    OfRankRun(Hearts, r);
    OfRankRun(Diamonds, r);
    OfRankRun(Clubs, r);
    OfRankRuns(FullDeck(), SuitRun(Spades), SuitRun(Hearts), SuitRun(Diamonds), SuitRun(Clubs), r);
  }

  /** A fresh deck without the given cards, shuffled with the random indices js. */
  function ShuffledWithout(removed: seq<Card>, js: seq<nat>): (d: seq<Card>)
    requires |js| >= 52
    ensures multiset(d) == multiset(RemoveCards(FullDeck(), removed))
  {
    FisherYates(RemoveCards(FullDeck(), removed), js)
  }

  /** Removing nothing leaves the full deck: the normal deal shuffles all 52 cards. */
  lemma ShuffledWithoutNothing(js: seq<nat>)
    requires |js| >= 52
    ensures ShuffledWithout([], js) == FisherYates(FullDeck(), js)
  {
    RemoveAbsent(FullDeck(), []);
  }

  /**
   * The player's two cards and the deck left after them. A strong deal takes
   * the first two cards of the chosen high rank and shuffles the rest of a
   * fresh deck; a normal deal shuffles the full deck and pops its two top cards.
   */
  function PlayerDeal(forceStrong: bool, rankIndex: nat, js: seq<nat>): (r: (seq<Card>, seq<Card>))
    requires rankIndex < |HighRanks| && |js| >= 52
    ensures |r.0| == 2 && |r.1| == 50 && NoRepeats(r.0 + r.1) && NoRepeats(r.1)
    ensures multiset(r.0) + multiset(r.1) == multiset(FullDeck())
  {
    FullDeckNoRepeats();
    if forceStrong then
      var rank := HighRanks[rankIndex];
      StrongPair(rank);
      var hand := OfRank(FullDeck(), rank)[..2];
      StrongPartition(rank, hand);
      var rest := ShuffledWithout(hand, js);
      assert multiset(hand + rest) == multiset(FullDeck());
      NoRepeatsBelow(hand + rest, FullDeck());
      NoRepeatsBelow(rest, hand + rest);
      (hand, rest)
    else
      var d := ShuffledWithout([], js);
      RemoveAbsent(FullDeck(), []);
      NormalPartition(d);
      PopTwo(d)
  }

  lemma NormalPartition(d: seq<Card>)
    requires multiset(d) == multiset(FullDeck()) && NoRepeats(FullDeck())
    ensures |d| == 52
    ensures var (hand, rest) := PopTwo(d);
      multiset(hand) + multiset(rest) == multiset(FullDeck()) &&
      |hand| == 2 && |rest| == 50 && NoRepeats(hand + rest) && NoRepeats(rest)
  {
    assert |d| == |multiset(d)| == 52;
    PopTwoFacts(d);
    var (hand, rest) := PopTwo(d);
    assert multiset(hand + rest) == multiset(FullDeck());
    NoRepeatsBelow(hand + rest, FullDeck());
    NoRepeatsBelow(rest, hand + rest);
  }

  lemma FullDeckNoRepeats()
    ensures NoRepeats(FullDeck())
  {
    forall c ensures multiset(FullDeck())[c] <= 1 { FullDeckOnce(c); }
  }

  /** A strong deal is the spade and the heart of one of the five high ranks. */
  lemma StrongDeal(rankIndex: nat, js: seq<nat>)
    requires rankIndex < |HighRanks| && |js| >= 52
    ensures var hand := PlayerDeal(true, rankIndex, js).0;
      hand == [Card(HighRanks[rankIndex], Spades), Card(HighRanks[rankIndex], Hearts)]
    ensures RankValue(Ten) <= RankValue(HighRanks[rankIndex])
  {
    StrongPair(HighRanks[rankIndex]);
    HighRank(rankIndex);
  }

  lemma HighRank(i: nat)
    requires i < |HighRanks|
    ensures RankValue(Ten) <= RankValue(HighRanks[i])
  {
  }

  lemma StrongPair(r: Rank)
    ensures |OfRank(FullDeck(), r)| == 4 && OfRank(FullDeck(), r)[..2] == [Card(r, Spades), Card(r, Hearts)]
  {
    OfRankFullDeck(r);
  }

  lemma StrongPartition(r: Rank, hand: seq<Card>)
    requires hand == [Card(r, Spades), Card(r, Hearts)]
    ensures |RemoveCards(FullDeck(), hand)| == 50
    ensures multiset(hand) + multiset(RemoveCards(FullDeck(), hand)) == multiset(FullDeck())
  {
    var left := RemoveCards(FullDeck(), hand);
    forall c ensures multiset(hand)[c] + multiset(left)[c] == multiset(FullDeck())[c] {
      RemoveCardsCount(FullDeck(), hand, c);
      FullDeckOnce(c);
    }
    assert multiset(hand) + multiset(left) == multiset(FullDeck());
    assert |multiset(left)| == 50;
  }

  /** A sub-multiset of a deck without repeats has no repeats either. */
  lemma NoRepeatsBelow(a: seq<Card>, b: seq<Card>)
    requires NoRepeats(b) && multiset(a) <= multiset(b)
    ensures NoRepeats(a)
  {
    forall c ensures multiset(a)[c] <= 1 {
      assert multiset(a)[c] <= multiset(b)[c];
    }
  }

  // ---------------------------------------------------------------------
  // The opponents' deal
  // ---------------------------------------------------------------------

  lemma FlattenSnoc(hands: seq<seq<Card>>, h: seq<Card>)
    ensures Flatten(hands + [h]) == Flatten(hands) + h
  {
    if hands != [] {
      assert (hands + [h])[1..] == hands[1..] + [h];
      FlattenSnoc(hands[1..], h);
    }
  }

  /**
   * The opponents' hands, dealt one after another from the deck, each from
   * what the previous ones left, and the deck left at the end.
   */
  function DealOpponents(deck: seq<Card>, draws: seq<OpponentDraw>): (r: (seq<seq<Card>>, seq<Card>))
    requires NoRepeats(deck) && |deck| >= 3 * |draws|
    ensures |r.0| == |draws| && forall i :: 0 <= i < |r.0| ==> |r.0[i]| == 2
    ensures multiset(Flatten(r.0)) + multiset(r.1) <= multiset(deck)
    ensures NoRepeats(r.1) && |r.1| >= |deck| - 3 * |draws|
  {
    if draws == [] then ([], deck)
    else
      var (hands, left) := DealOpponents(deck, draws[..|draws| - 1]);
      var draw := draws[|draws| - 1];
      DealNext(deck, hands, left, draw);
      var (h, left') := OpponentHand(left, [], draw);
      (hands + [h], left')
  }

  /** One more opponent's deal keeps the hands and the deck left inside the deck, costing at most three cards. */
  lemma DealNext(deck: seq<Card>, hands: seq<seq<Card>>, left: seq<Card>, draw: OpponentDraw)
    requires NoRepeats(left) && |left| >= 3 && multiset(Flatten(hands)) + multiset(left) <= multiset(deck)
    ensures EnoughToDeal(RemoveCards(left, []), draw)
    ensures var (h, left') := OpponentHand(left, [], draw);
      |h| == 2 && multiset(Flatten(hands + [h])) + multiset(left') <= multiset(deck) &&
      NoRepeats(left') && |left'| >= |left| - 3
  {
    RemoveAbsent(left, []);
    DealLeavesEnough(left, draw);
    OpponentHandFromDeck(left, [], draw);
    var (h, left') := OpponentHand(left, [], draw);
    FlattenSnoc(hands, h);
    NoRepeatsBelow(left', left);
  }

  // ---------------------------------------------------------------------
  // Streets and the run-out
  // ---------------------------------------------------------------------

  /**
   * A Bet or Check: the stage moves one street on, and the flop, turn or
   * river is popped off the top of the deck. River goes to Showdown.
   */
  function Advance(stage: GameStage, board: seq<Card>, deck: seq<Card>): (r: (GameStage, seq<Card>, seq<Card>))
    requires stage in {PreFlop, Flop, Turn, River}
    requires stage == PreFlop ==> |deck| >= 3
    requires stage in {Flop, Turn} ==> |deck| >= 1
  {
    var n := |deck|;
    match stage
    case PreFlop => (Flop, [deck[n - 1], deck[n - 2], deck[n - 3]], deck[..n - 3])
    case Flop => (Turn, board + [deck[n - 1]], deck[..n - 1])
    case Turn => (River, board + [deck[n - 1]], deck[..n - 1])
    case River => (Showdown, board, deck)
  }

  /**
   * Advancing deals cards from the top of the deck onto the board, keeping
   * the board already out, and loses no card.
   */
  lemma AdvanceMovesCards(stage: GameStage, board: seq<Card>, deck: seq<Card>)
    requires stage in {PreFlop, Flop, Turn, River}
    requires stage == PreFlop ==> board == [] && |deck| >= 3
    requires stage in {Flop, Turn} ==> |deck| >= 1
    ensures var (_, board', deck') := Advance(stage, board, deck);
      multiset(board') + multiset(deck') == multiset(board) + multiset(deck) &&
      board'[..|board|] == board && deck' == deck[..|deck'|] &&
      |board'| + |deck'| == |board| + |deck|
    ensures var s := Advance(stage, board, deck).0;
      (stage == PreFlop ==> s == Flop) && (stage == Flop ==> s == Turn) &&
      (stage == Turn ==> s == River) && (stage == River ==> s == Showdown)
  {
    match stage
    case PreFlop => DealThree(deck);
    case Flop => DealOne(board, deck);
    case Turn => DealOne(board, deck);
    case River =>
  }

  /** The flop: the three top cards, top first, and the deck below them. */
  lemma DealThree(deck: seq<Card>)
    requires |deck| >= 3
    ensures var n := |deck|;
      multiset([deck[n - 1], deck[n - 2], deck[n - 3]]) + multiset(deck[..n - 3]) == multiset(deck)
  {
    var n := |deck|;
    assert deck == deck[..n - 3] + [deck[n - 3], deck[n - 2], deck[n - 1]];
    assert multiset(deck) == multiset(deck[..n - 3]) + multiset([deck[n - 3], deck[n - 2], deck[n - 1]]);
  }

  /** The turn or the river: the top card onto the end of the board. */
  lemma DealOne(board: seq<Card>, deck: seq<Card>)
    requires |deck| >= 1
    ensures var n := |deck|;
      multiset(board + [deck[n - 1]]) + multiset(deck[..n - 1]) == multiset(board) + multiset(deck) &&
      (board + [deck[n - 1]])[..|board|] == board
  {
    var n := |deck|;
    assert deck == deck[..n - 1] + [deck[n - 1]];
    assert multiset(deck) == multiset(deck[..n - 1]) + multiset([deck[n - 1]]);
  }

  /** The run-out before the analysis: cards are popped onto the board until it has five or the deck is empty. */
  function FillBoard(board: seq<Card>, deck: seq<Card>): (r: (seq<Card>, seq<Card>))
    ensures |board| <= |r.0| && |r.1| <= |deck| && |r.0| + |r.1| == |board| + |deck|
    decreases |deck|
  {
    if |board| < 5 && |deck| > 0 then FillBoard(board + [deck[|deck| - 1]], deck[..|deck| - 1])
    else (board, deck)
  }

  /**
   * The run-out keeps the board already out, takes its cards from the top of
   * the deck, loses none, and stops with five cards out unless the deck ran dry.
   */
  lemma FillBoardFacts(board: seq<Card>, deck: seq<Card>)
    requires |board| <= 5
    ensures var (board', deck') := FillBoard(board, deck);
      multiset(board') + multiset(deck') == multiset(board) + multiset(deck) &&
      board'[..|board|] == board && deck' == deck[..|deck'|] &&
      |board'| <= 5 && (|board'| == 5 || deck' == []) &&
      (|board| + |deck| >= 5 ==> |board'| == 5)
  {
    FillBoardMultiset(board, deck);
    FillBoardPrefixes(board, deck);
    FillBoardStops(board, deck);
  }

  lemma {:induction false} FillBoardMultiset(board: seq<Card>, deck: seq<Card>)
    ensures var (board', deck') := FillBoard(board, deck);
      multiset(board') + multiset(deck') == multiset(board) + multiset(deck)
    decreases |deck|
  {
    if |board| < 5 && |deck| > 0 {
      var n := |deck|;
      var d := deck[..n - 1];
      FillBoardMultiset(board + [deck[n - 1]], d);
      assert deck == d + [deck[n - 1]];
      assert multiset(deck) == multiset(d) + multiset([deck[n - 1]]);
    }
  }

  lemma {:induction false} FillBoardPrefixes(board: seq<Card>, deck: seq<Card>)
    ensures var (board', deck') := FillBoard(board, deck);
      board'[..|board|] == board && deck' == deck[..|deck'|]
    decreases |deck|
  {
    if |board| < 5 && |deck| > 0 {
      var n := |deck|;
      var b, d := board + [deck[n - 1]], deck[..n - 1];
      FillBoardPrefixes(b, d);
      var (board', deck') := FillBoard(b, d);
      assert board'[..|board|] == board'[..|b|][..|board|];
      assert deck' == d[..|deck'|] == deck[..|deck'|];
    } else {
      assert board[..|board|] == board;
      assert deck[..|deck|] == deck;
    }
  }

  lemma {:induction false} FillBoardStops(board: seq<Card>, deck: seq<Card>)
    requires |board| <= 5
    ensures var (board', deck') := FillBoard(board, deck);
      |board'| <= 5 && (|board'| == 5 || deck' == []) &&
      (|board| + |deck| >= 5 ==> |board'| == 5)
    decreases |deck|
  {
    if |board| < 5 && |deck| > 0 {
      var n := |deck|;
      FillBoardStops(board + [deck[n - 1]], deck[..n - 1]);
    }
  }

  // ---------------------------------------------------------------------
  // Where the cards are
  // ---------------------------------------------------------------------

  /** No card is counted twice. */
  ghost predicate OncePerCard(m: multiset<Card>) {
    forall c :: m[c] <= 1
  }

  /** Every card in play, counted with multiplicity. */
  function InPlay(playerHand: seq<Card>, opponentHands: seq<seq<Card>>, board: seq<Card>, deck: seq<Card>): multiset<Card> {
    multiset(playerHand) + multiset(Flatten(opponentHands)) + multiset(board) + multiset(deck)
  }

  /** A fresh deal puts every card in at most one place. */
  lemma DealtOnce(hand: seq<Card>, rest: seq<Card>, hands: seq<seq<Card>>, left: seq<Card>)
    requires NoRepeats(hand + rest) && multiset(Flatten(hands)) + multiset(left) <= multiset(rest)
    ensures OncePerCard(InPlay(hand, hands, [], left))
  {
    forall c ensures InPlay(hand, hands, [], left)[c] <= 1 {
      assert multiset(hand + rest)[c] <= 1;
    }
  }

  /**
   * When the cards in play come out of one 52-card deck, no card is in two
   * places: not in the deck and a hand or the board, not on the board and in
   * a hand, not in the player's hand and an opponent's.
   */
  lemma NoCardTwice(playerHand: seq<Card>, opponentHands: seq<seq<Card>>, board: seq<Card>, deck: seq<Card>, c: Card)
    requires OncePerCard(InPlay(playerHand, opponentHands, board, deck))
    ensures c in deck ==> c !in playerHand && c !in Flatten(opponentHands) && c !in board
    ensures c in board ==> c !in playerHand && c !in Flatten(opponentHands)
    ensures c in playerHand ==> c !in Flatten(opponentHands)
    ensures multiset(deck)[c] <= 1 && multiset(board)[c] <= 1 && multiset(playerHand)[c] <= 1
  {
    assert InPlay(playerHand, opponentHands, board, deck)[c] <= 1;
  }

  /** Moving cards between the deck and the board changes nothing in play. */
  lemma SameInPlay(playerHand: seq<Card>, opponentHands: seq<seq<Card>>,
                   board: seq<Card>, deck: seq<Card>, board': seq<Card>, deck': seq<Card>)
    requires multiset(board') + multiset(deck') == multiset(board) + multiset(deck)
    ensures InPlay(playerHand, opponentHands, board', deck') == InPlay(playerHand, opponentHands, board, deck)
  {
    var held := multiset(playerHand) + multiset(Flatten(opponentHands));
    assert InPlay(playerHand, opponentHands, board', deck') == held + (multiset(board') + multiset(deck'));
    assert InPlay(playerHand, opponentHands, board, deck) == held + (multiset(board) + multiset(deck));
  }

  // ---------------------------------------------------------------------
  // The table
  // ---------------------------------------------------------------------

  /**
   * Every card in play comes from one deck; between one and four
   * opponents; at most two cards per hand and five on the board; and
   * each stage has dealt exactly its streets and left enough cards to
   * deal the rest.
   */
  ghost predicate Consistent(stage: GameStage, numOpponents: nat, playerHand: seq<Card>,
                             opponentHands: seq<seq<Card>>, board: seq<Card>, deck: seq<Card>,
                             analysis: Option<Analysis>)
  {
    OncePerCard(InPlay(playerHand, opponentHands, board, deck)) &&
    1 <= numOpponents <= 4 &&
    Fits(playerHand, opponentHands, board) &&
    (stage == PreFlop ==> board == [] && |deck| >= 5) &&
    (stage == Flop ==> |board| == 3 && |deck| >= 2) &&
    (stage == Turn ==> |board| == 4 && |deck| >= 1) &&
    (stage == River ==> |board| == 5) &&
    (stage == Showdown ==> |board| + |deck| >= 5) &&
    (stage == Results ==> |board| == 5 && analysis.Some?)
  }

  /** Folding from a betting stage goes to a consistent showdown. */
  lemma FoldConsistent(stage: GameStage, numOpponents: nat, playerHand: seq<Card>,
                       opponentHands: seq<seq<Card>>, board: seq<Card>, deck: seq<Card>,
                       analysis: Option<Analysis>)
    requires Consistent(stage, numOpponents, playerHand, opponentHands, board, deck, analysis)
    requires stage in {PreFlop, Flop, Turn, River}
    ensures Consistent(Showdown, numOpponents, playerHand, opponentHands, board, deck, analysis)
  {
  }

  /** Moving on a street from a betting stage keeps the table consistent. */
  lemma AdvanceConsistent(stage: GameStage, numOpponents: nat, playerHand: seq<Card>,
                          opponentHands: seq<seq<Card>>, board: seq<Card>, deck: seq<Card>,
                          analysis: Option<Analysis>)
    requires Consistent(stage, numOpponents, playerHand, opponentHands, board, deck, analysis)
    requires stage in {PreFlop, Flop, Turn, River}
    ensures var (s, b, d) := Advance(stage, board, deck);
      Consistent(s, numOpponents, playerHand, opponentHands, b, d, analysis)
  {
    AdvanceMovesCards(stage, board, deck);
    var (s, b, d) := Advance(stage, board, deck);
    SameInPlay(playerHand, opponentHands, board, deck, b, d);
  }

  /** Clearing the hands and the board keeps the table consistent. */
  lemma QuitConsistent(stage: GameStage, numOpponents: nat, playerHand: seq<Card>,
                       opponentHands: seq<seq<Card>>, board: seq<Card>, deck: seq<Card>,
                       analysis: Option<Analysis>)
    requires Consistent(stage, numOpponents, playerHand, opponentHands, board, deck, analysis)
    ensures Consistent(Idle, numOpponents, [], [], [], deck, None)
  {
    assert InPlay([], [], [], deck) <= InPlay(playerHand, opponentHands, board, deck);
  }

  class Table {
    var stage: GameStage
    var numOpponents: nat
    var deck: seq<Card>
    var playerHand: seq<Card>
    var opponentHands: seq<seq<Card>>
    var board: seq<Card>
    var analysis: Option<Analysis>
    var error: Option<string>

    /** The table's fields keep the invariant Consistent states. */
    ghost predicate Valid()
      reads this
    {
      Consistent(stage, numOpponents, playerHand, opponentHands, board, deck, analysis)
    }

    /** The table before the first deal: one opponent, nothing dealt. */
    constructor()
      ensures Valid()
      ensures stage == Idle && numOpponents == 1 && deck == [] && playerHand == [] &&
              opponentHands == [] && board == [] && analysis == None && error == None
    {
      stage := Idle;
      numOpponents := 1;
      deck := [];
      playerHand := [];
      opponentHands := [];
      board := [];
      analysis := None;
      error := None;
    }

    /** The opponent selector on the start screen. */
    method SetNumOpponents(n: nat)
      requires Valid() && 1 <= n <= 4
      modifies this
      ensures Valid() && numOpponents == n
      ensures stage == old(stage) && deck == old(deck) && playerHand == old(playerHand) &&
              opponentHands == old(opponentHands) && board == old(board) &&
              analysis == old(analysis) && error == old(error)
    {
      numOpponents := n;
    }

    /**
     * Deals a new hand: the player's two cards (a strong high pair when
     * asked), then one hand per opponent from what is left, with the board
     * cleared and the stage at PreFlop.
     */
    method StartNewGame(forceStrongPlayer: bool, rankIndex: nat, js: seq<nat>, draws: seq<OpponentDraw>)
      requires Valid() && rankIndex < |HighRanks| && |js| >= 52 && |draws| == numOpponents
      modifies this
      ensures Valid()
      ensures stage == PreFlop && board == [] && analysis == None && error == None
      ensures numOpponents == old(numOpponents)
      ensures var (hand, rest) := PlayerDeal(forceStrongPlayer, rankIndex, js);
        playerHand == hand && (opponentHands, deck) == DealOpponents(rest, draws)
    {
      var pHand, newOpponentHands, currentDeck := Deal(forceStrongPlayer, rankIndex, js, draws);
      SetDeal(pHand, newOpponentHands, currentDeck);
    }

    /** The state updates of startNewGame, applied together. */
    method SetDeal(pHand: seq<Card>, hands: seq<seq<Card>>, left: seq<Card>)
      modifies this
      ensures stage == PreFlop && board == [] && analysis == None && error == None
      ensures playerHand == pHand && opponentHands == hands && deck == left
      ensures numOpponents == old(numOpponents)
    {
      stage := PreFlop;
      board := [];
      analysis := None;
      error := None;
      playerHand := pHand;
      opponentHands := hands;
      deck := left;
    }

    /** The whole deal of startNewGame: the player's cards, then each opponent's. */
    static method Deal(forceStrongPlayer: bool, rankIndex: nat, js: seq<nat>, draws: seq<OpponentDraw>)
        returns (pHand: seq<Card>, hands: seq<seq<Card>>, left: seq<Card>)
      requires rankIndex < |HighRanks| && |js| >= 52 && |draws| <= 4
      ensures |pHand| == 2 && |left| >= 38 && |hands| == |draws| && (forall i :: 0 <= i < |hands| ==> |hands[i]| == 2)
      ensures OncePerCard(InPlay(pHand, hands, [], left))
      ensures var (hand, rest) := PlayerDeal(forceStrongPlayer, rankIndex, js);
        pHand == hand && (hands, left) == DealOpponents(rest, draws)
    {
      var currentDeck;
      pHand, currentDeck := DealPlayer(forceStrongPlayer, rankIndex, js);
      hands, left := DealEach(currentDeck, draws);
      DealtOnce(pHand, currentDeck, hands, left);
    }

    /** The opponents' deal, as the loop of startNewGame makes it. */
    static method DealEach(deck: seq<Card>, draws: seq<OpponentDraw>)
        returns (hands: seq<seq<Card>>, remaining: seq<Card>)
      requires NoRepeats(deck) && |deck| >= 3 * |draws|
      ensures (hands, remaining) == DealOpponents(deck, draws)
    {
      hands, remaining := [], deck;
      var i := 0;
      assert draws[..0] == [];
      while i < |draws|
        invariant 0 <= i <= |draws|
        invariant (hands, remaining) == DealOpponents(deck, draws[..i])
      {
        RemoveAbsent(remaining, []);
        DealLeavesEnough(remaining, draws[i]);
        var hand, remainingDeck := GenerateOpponentHand(remaining, [], draws[i]);
        assert draws[..i + 1][..i] == draws[..i];
        hands := hands + [hand];
        remaining := remainingDeck;
        i := i + 1;
      }
      assert draws[..i] == draws;
    }

    /** The player's deal, as startNewGame makes it. */
    static method DealPlayer(forceStrongPlayer: bool, rankIndex: nat, js: seq<nat>)
        returns (pHand: seq<Card>, currentDeck: seq<Card>)
      requires rankIndex < |HighRanks| && |js| >= 52
      ensures (pHand, currentDeck) == PlayerDeal(forceStrongPlayer, rankIndex, js)
    {
      if forceStrongPlayer {
        pHand, currentDeck := DealStrongPair(rankIndex, js);
      } else {
        var fullDeck := CreateDeck();
        var shuffled := ShuffleDeck(fullDeck, js);
        ShuffledWithoutNothing(js);
        pHand, currentDeck := PopPair(shuffled);
      }
    }

    /** `const p1 = currentDeck.pop(); const p2 = currentDeck.pop()`. */
    static method PopPair(d: seq<Card>) returns (pHand: seq<Card>, currentDeck: seq<Card>)
      requires |d| >= 2
      ensures (pHand, currentDeck) == PopTwo(d)
    {
      var n := |d|;
      var p1 := d[n - 1];
      currentDeck := d[..n - 1];
      var p2 := currentDeck[n - 2];
      assert currentDeck[..n - 2] == d[..n - 2];
      currentDeck := currentDeck[..n - 2];
      pHand := [p1, p2];
    }

    static method DealStrongPair(rankIndex: nat, js: seq<nat>) returns (pHand: seq<Card>, currentDeck: seq<Card>)
      requires rankIndex < |HighRanks| && |js| >= 52
      ensures (pHand, currentDeck) == PlayerDeal(true, rankIndex, js)
    {
      var fullDeck := CreateDeck();
      var randomRank := HighRanks[rankIndex];
      var cardsOfRank := OfRank(fullDeck, randomRank);
      StrongPair(randomRank);
      pHand := cardsOfRank[..2];
      currentDeck := ShuffleDeck(RemoveCards(fullDeck, pHand), js);
    }

    /**
     * A betting button. Folding goes straight to the showdown; checking or
     * betting moves one street on: the flop deals three cards from the top
     * of the deck, the turn and the river one each, and after the river
     * comes the showdown.
     */
    method HandleAction(action: Action)
      requires Valid() && stage in {PreFlop, Flop, Turn, River}
      modifies this
      ensures Valid()
      ensures action == Fold ==> stage == Showdown && board == old(board) && deck == old(deck)
      ensures action != Fold ==> (stage, board, deck) == Advance(old(stage), old(board), old(deck))
      ensures playerHand == old(playerHand) && opponentHands == old(opponentHands) &&
              numOpponents == old(numOpponents) && analysis == old(analysis) && error == old(error)
    {
      if action == Fold {
        FoldConsistent(stage, numOpponents, playerHand, opponentHands, board, deck, analysis);
        SetStreet(Showdown, board, deck);
        return;
      }
      AdvanceConsistent(stage, numOpponents, playerHand, opponentHands, board, deck, analysis);
      var (s, b, d) := Advance(stage, board, deck);
      SetStreet(s, b, d);
    }

    /** The state updates of one betting action, applied together. */
    method SetStreet(s: GameStage, b: seq<Card>, d: seq<Card>)
      requires Consistent(s, numOpponents, playerHand, opponentHands, b, d, analysis)
      modifies this
      ensures Valid()
      ensures stage == s && board == b && deck == d
      ensures playerHand == old(playerHand) && opponentHands == old(opponentHands) &&
              numOpponents == old(numOpponents) && analysis == old(analysis) && error == old(error)
    {
      stage, board, deck := s, b, d;
      assert Consistent(stage, numOpponents, playerHand, opponentHands, board, deck, analysis);
    }

    /**
     * The showdown: the board is run out to five cards from the top of the
     * deck, then the deal is analysed. A failed analysis leaves the stage at
     * Showdown with the error message; a successful one shows the results.
     */
    method StartAnalysis(pre: seq<seq<nat>>, flop: seq<seq<nat>>, turn: seq<seq<nat>>, fails: bool)
      requires Valid() && stage == Showdown && Draws(pre) && Draws(flop) && Draws(turn)
      modifies this
      ensures Valid()
      ensures (board, deck) == FillBoard(old(board), old(deck)) && |board| == 5
      ensures !fails ==> stage == Results && error == old(error) &&
                         analysis == Some(AnalysisOf(playerHand, opponentHands, board, pre, flop, turn))
      ensures fails ==> stage == Showdown && analysis == old(analysis) && error == Some(AnalysisError)
      ensures playerHand == old(playerHand) && opponentHands == old(opponentHands) &&
              numOpponents == old(numOpponents)
    {
      var currentBoard, currentDeck := RunOut(board, deck);
      FillBoardFacts(board, deck);
      SameInPlay(playerHand, opponentHands, board, deck, currentBoard, currentDeck);
      var outcome := Outcome(playerHand, opponentHands, currentBoard, pre, flop, turn, fails);
      SetOutcome(currentBoard, currentDeck, outcome);
    }

    /** The try/catch around analyzeGame: no analysis when it throws. */
    static method Outcome(playerHand: seq<Card>, opponentHands: seq<seq<Card>>, board: seq<Card>,
                          pre: seq<seq<nat>>, flop: seq<seq<nat>>, turn: seq<seq<nat>>, fails: bool)
        returns (outcome: Option<Analysis>)
      requires Fits(playerHand, opponentHands, board) && Draws(pre) && Draws(flop) && Draws(turn)
      ensures fails <==> outcome.None?
      ensures !fails ==> outcome == Some(AnalysisOf(playerHand, opponentHands, board, pre, flop, turn))
    {
      if fails {
        outcome := None;
      } else {
        var result := AnalyzeGame(playerHand, opponentHands, board, pre, flop, turn);
        outcome := Some(result);
      }
    }

    /** The state updates of startAnalysis, applied together. */
    method SetOutcome(currentBoard: seq<Card>, currentDeck: seq<Card>, outcome: Option<Analysis>)
      modifies this
      ensures board == currentBoard && deck == currentDeck
      ensures outcome.Some? ==> stage == Results && analysis == outcome && error == old(error)
      ensures outcome.None? ==> stage == Showdown && analysis == old(analysis) && error == Some(AnalysisError)
      ensures playerHand == old(playerHand) && opponentHands == old(opponentHands) &&
              numOpponents == old(numOpponents)
    {
      board, deck := currentBoard, currentDeck;
      if outcome.None? {
        error := Some(AnalysisError);
        stage := Showdown;
      } else {
        analysis := outcome;
        stage := Results;
      }
    }

    /** The run-out loop of startAnalysis. */
    static method RunOut(board0: seq<Card>, deck0: seq<Card>) returns (currentBoard: seq<Card>, currentDeck: seq<Card>)
      ensures (currentBoard, currentDeck) == FillBoard(board0, deck0)
    {
      currentBoard, currentDeck := board0, deck0;
      while |currentBoard| < 5 && |currentDeck| > 0
        invariant FillBoard(currentBoard, currentDeck) == FillBoard(board0, deck0)
        decreases |currentDeck|
      {
        var card := currentDeck[|currentDeck| - 1];
        currentDeck := currentDeck[..|currentDeck| - 1];
        currentBoard := currentBoard + [card];
      }
    }

    /** Back to the start screen: the hands and the board are cleared; the deck, the opponent count and any error stay. */
    method QuitGame()
      requires Valid()
      modifies this
      ensures Valid()
      ensures stage == Idle && board == [] && playerHand == [] && opponentHands == [] && analysis == None
      ensures deck == old(deck) && numOpponents == old(numOpponents) && error == old(error)
    {
      QuitConsistent(stage, numOpponents, playerHand, opponentHands, board, deck, analysis);
      stage := Idle;
      board := [];
      playerHand := [];
      opponentHands := [];
      analysis := None;
    }

    /** The Dismiss button of the error banner. */
    method DismissError()
      requires Valid()
      modifies this
      ensures Valid() && error == None
      ensures stage == old(stage) && deck == old(deck) && playerHand == old(playerHand) &&
              opponentHands == old(opponentHands) && board == old(board) &&
              analysis == old(analysis) && numOpponents == old(numOpponents)
    {
      error := None;
    }
  }
}
