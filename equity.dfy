/**
 * The equity simulation of the showdown analysis: every iteration completes
 * the known board from a shuffled copy of the cards nobody holds and compares
 * the player's hand against the best opponent hand.  The random choices of
 * each iteration's Fisher-Yates shuffle are passed in, one sequence of draws
 * per iteration.
 */
module Equity {
  import opened Cards
  import opened Deck
  import opened HandEvaluator
  import opened ScoreOrder

  /** All cards of a list of hands, hand after hand (`flat()`). */
  function Flatten(hands: seq<seq<Card>>): (r: seq<Card>)
    ensures forall c :: c in r <==> exists i :: 0 <= i < |hands| && c in hands[i]
  {
    if hands == [] then [] else hands[0] + Flatten(hands[1..])
  }

  /** Every hand holds at most two cards and the board at most five. */
  predicate Fits(pHand: seq<Card>, oHands: seq<seq<Card>>, board: seq<Card>) {
    |pHand| <= 2 && |board| <= 5 && forall i :: 0 <= i < |oHands| ==> |oHands[i]| <= 2
  }

  /** The full deck without the player's, the opponents' and the board's cards. */
  function UnknownDeck(pHand: seq<Card>, oHands: seq<seq<Card>>, board: seq<Card>): (r: seq<Card>)
    ensures forall c :: c in r <==> c !in pHand && c !in Flatten(oHands) && c !in board
  {
    var known := pHand + Flatten(oHands) + board;
    RemoveCardsContents(FullDeck(), known);
    forall c ensures c in FullDeck() { FullDeckComplete(c); }
    RemoveCards(FullDeck(), known)
  }

  /** The known board followed by the first `5 - |board|` shuffled cards (fewer if there are none left). */
  function SimBoard(board: seq<Card>, shuffled: seq<Card>): seq<Card>
    requires |board| <= 5
  {
    var need := 5 - |board|;
    board + (if need <= |shuffled| then shuffled[..need] else shuffled)
  }

  /** The score of a hand's two cards together with a board. */
  function HandScore(hand: seq<Card>, board: seq<Card>): int {
    Evaluate(multiset(hand + board)).score
  }

  /** The scores of the opponents' hands on a board, in seat order. */
  function OpponentScores(oHands: seq<seq<Card>>, board: seq<Card>): (r: seq<int>)
    ensures |r| == |oHands|
  {
    seq(|oHands|, i requires 0 <= i < |oHands| => HandScore(oHands[i], board))
  }

  /** The largest score, starting from -1 (so -1 for no scores). */
  function MaxScore(scores: seq<int>): (r: int)
    ensures r >= -1
  {
    if scores == [] then -1
    else
      var m := MaxScore(scores[..|scores| - 1]);
      var last := scores[|scores| - 1];
      if last > m then last else m
  }

  /** The maximum bounds every score and, unless it is -1, is one of them. */
  lemma {:induction false} MaxScoreIsMax(scores: seq<int>)
    ensures forall i :: 0 <= i < |scores| ==> scores[i] <= MaxScore(scores)
    ensures MaxScore(scores) == -1 || exists i :: 0 <= i < |scores| && scores[i] == MaxScore(scores)
  {
    if scores != [] {
      var front := scores[..|scores| - 1];
      MaxScoreIsMax(front);
      forall i | 0 <= i < |front| ensures scores[i] == front[i] { }
    }
  }

  datatype Outcome = Win | Split | Loss

  /** A win beats the best opponent score, a split equals it. */
  function Compare(playerScore: int, bestOpponent: int): Outcome {
    if playerScore > bestOpponent then Win
    else if playerScore == bestOpponent then Split
    else Loss
  }

  /** One iteration: shuffle the unknown cards with `js`, complete the board, compare. */
  function IterationOutcome(pHand: seq<Card>, oHands: seq<seq<Card>>, board: seq<Card>, js: seq<nat>): Outcome
    requires |board| <= 5 && |js| >= 52
  {
    var unknown := UnknownDeck(pHand, oHands, board);
    var simBoard := SimBoard(board, FisherYates(unknown, js));
    Compare(HandScore(pHand, simBoard), MaxScore(OpponentScores(oHands, simBoard)))
  }

  /** Win and split counts over a run of iterations. */
  datatype Tally = Tally(wins: nat, splits: nat)

  predicate EnoughDraws(shuffles: seq<seq<nat>>) {
    forall k :: 0 <= k < |shuffles| ==> |shuffles[k]| >= 52
  }

  /** Wins and splits counted over a run of outcomes, in order. */
  function Count(outcomes: seq<Outcome>): (t: Tally)
    ensures t.wins + t.splits <= |outcomes|
  {
    if outcomes == [] then Tally(0, 0)
    else Tallied(Count(outcomes[..|outcomes| - 1]), outcomes[|outcomes| - 1])
  }

  /** A tally advanced by one outcome: a win or a split adds one to its count. */
  function Tallied(t: Tally, o: Outcome): Tally {
    match o
    case Win => Tally(t.wins + 1, t.splits)
    case Split => Tally(t.wins, t.splits + 1)
    case Loss => t
  }

  /** The outcome of every iteration, one per sequence of shuffle draws. */
  function Outcomes(pHand: seq<Card>, oHands: seq<seq<Card>>, board: seq<Card>, shuffles: seq<seq<nat>>): (r: seq<Outcome>)
    requires |board| <= 5 && EnoughDraws(shuffles)
    ensures |r| == |shuffles|
  {
    seq(|shuffles|, k requires 0 <= k < |shuffles| => IterationOutcome(pHand, oHands, board, shuffles[k]))
  }

  /** The tally of a whole simulation. */
  function TallyOf(pHand: seq<Card>, oHands: seq<seq<Card>>, board: seq<Card>, shuffles: seq<seq<nat>>): (t: Tally)
    requires |board| <= 5 && EnoughDraws(shuffles)
    ensures t.wins + t.splits <= |shuffles|
  {
    Count(Outcomes(pHand, oHands, board, shuffles))
  }

  /**
   * `Math.round(100 * (wins + splits / 2) / n)` on exact numbers: the integer
   * nearest the percentage, halves rounded up.
   */
  function EquityPercent(t: Tally, n: nat): int
    requires n > 0
  {
    (200 * t.wins + 100 * t.splits + n) / (2 * n)
  }

  // ---------------------------------------------------------------------
  // Properties of the simulation
  // ---------------------------------------------------------------------

  /**
   * A simulated board starts with the known board, has five cards when enough
   * cards are unknown, and every card it adds is one nobody holds.
   */
  lemma SimBoardFacts(pHand: seq<Card>, oHands: seq<seq<Card>>, board: seq<Card>, js: seq<nat>)
    requires |board| <= 5 && |js| >= 52
    ensures var unknown := UnknownDeck(pHand, oHands, board);
      var sb := SimBoard(board, FisherYates(unknown, js));
      sb[..|board|] == board && |sb| <= 5 &&
      (|unknown| >= 5 - |board| ==> |sb| == 5) &&
      forall k :: |board| <= k < |sb| ==> sb[k] !in pHand && sb[k] !in Flatten(oHands) && sb[k] !in board
  {
    var unknown := UnknownDeck(pHand, oHands, board);
    var shuffled := FisherYates(unknown, js);
    var sb := SimBoard(board, shuffled);
    forall k | |board| <= k < |sb|
      ensures sb[k] !in pHand && sb[k] !in Flatten(oHands) && sb[k] !in board
    {
      assert sb[k] == shuffled[k - |board|];
      assert sb[k] in multiset(shuffled);
    }
  }

  /**
   * Against opponents, an iteration is a win exactly when the player outscores
   * every opponent, and a split exactly when the player outscores none of them
   * and ties at least one; with no opponents every iteration is a win.
   */
  lemma CompareMeaning(playerScore: int, scores: seq<int>)
    requires playerScore >= 0
    ensures Compare(playerScore, MaxScore(scores)) == Win <==>
      forall i :: 0 <= i < |scores| ==> scores[i] < playerScore
    ensures Compare(playerScore, MaxScore(scores)) == Split <==>
      (forall i :: 0 <= i < |scores| ==> scores[i] <= playerScore) &&
      exists i :: 0 <= i < |scores| && scores[i] == playerScore
  {
    MaxScoreIsMax(scores);
  }

  /** The same, for one iteration of the simulation. */
  lemma IterationMeaning(pHand: seq<Card>, oHands: seq<seq<Card>>, board: seq<Card>, js: seq<nat>)
    requires |board| <= 5 && |js| >= 52
    ensures var sb := SimBoard(board, FisherYates(UnknownDeck(pHand, oHands, board), js));
      var p := HandScore(pHand, sb);
      var scores := OpponentScores(oHands, sb);
      var outcome := IterationOutcome(pHand, oHands, board, js);
      (outcome == Win <==> forall i :: 0 <= i < |scores| ==> scores[i] < p) &&
      (outcome == Split <==>
        (forall i :: 0 <= i < |scores| ==> scores[i] <= p) &&
        exists i :: 0 <= i < |scores| && scores[i] == p)
  {
    var sb := SimBoard(board, FisherYates(UnknownDeck(pHand, oHands, board), js));
    EvaluateNonNegative(multiset(pHand + sb));
    CompareMeaning(HandScore(pHand, sb), OpponentScores(oHands, sb));
  }

  /** The rounded equity is a percentage within half a point of the exact one. */
  lemma EquityPercentBounds(t: Tally, n: nat)
    requires n > 0 && t.wins + t.splits <= n
    ensures 0 <= EquityPercent(t, n) <= 100
    ensures -(n as int) < 2 * n * EquityPercent(t, n) - 100 * (2 * t.wins + t.splits) <= n
  {
    var d := 2 * n;
    var x := 200 * t.wins + 100 * t.splits + n;
    var q := x / d;
    DivBounds(x, d);
    if q > 100 {
      MulMono(d, 101, q);
    }
  }

  lemma DivBounds(x: nat, d: nat)
    requires d > 0
    ensures d * (x / d) <= x < d * (x / d) + d
  {
  }

  lemma MulMono(a: nat, b: int, c: int)
    requires b <= c
    ensures a * b <= a * c
  {
  }

  /** Winning every iteration gives 100, never winning nor splitting gives 0. */
  lemma EquityPercentExtremes(n: nat)
    requires n > 0
    ensures EquityPercent(Tally(n, 0), n) == 100
    ensures EquityPercent(Tally(0, 0), n) == 0
    ensures EquityPercent(Tally(0, n), n) == 50
  {
    DivUnique(200 * n + n, 2 * n, 100);
    DivUnique(n, 2 * n, 0);
    DivUnique(100 * n + n, 2 * n, 50);
  }

  lemma DivUnique(x: int, d: int, q: int)
    requires d > 0 && d * q <= x < d * q + d
    ensures x / d == q
  {
    var r := x / d;
    assert d * r <= x < d * r + d;
    if r < q {
      MulMono(d, r + 1, q);
    } else if r > q {
      MulMono(d, q + 1, r);
    }
  }

  // ---------------------------------------------------------------------
  // The simulation's loops
  // ---------------------------------------------------------------------

  /** The best opponent score on one board, starting from -1. */
  method BestOpponentScore(oHands: seq<seq<Card>>, board: seq<Card>) returns (maxScore: int)
    requires |board| <= 5 && forall i :: 0 <= i < |oHands| ==> |oHands[i]| <= 2
    ensures maxScore == MaxScore(OpponentScores(oHands, board))
  {
    maxScore := -1;
    var o := 0;
    while o < |oHands|
      invariant 0 <= o <= |oHands|
      invariant maxScore == MaxScore(OpponentScores(oHands[..o], board))
    {
      var oResult := EvaluateHand(oHands[o] + board);
      ScoresSnoc(oHands, board, o);
      MaxScoreSnoc(OpponentScores(oHands[..o], board), oResult.score);
      if oResult.score > maxScore {
        maxScore := oResult.score;
      }
      o := o + 1;
    }
    assert oHands[..o] == oHands;
  }

  lemma ScoresSnoc(oHands: seq<seq<Card>>, board: seq<Card>, o: nat)
    requires o < |oHands|
    ensures OpponentScores(oHands[..o + 1], board) == OpponentScores(oHands[..o], board) + [HandScore(oHands[o], board)]
  {
    var a := OpponentScores(oHands[..o + 1], board);
    var b := OpponentScores(oHands[..o], board) + [HandScore(oHands[o], board)];
    forall k | 0 <= k < o + 1 ensures a[k] == b[k] {
      ScoresSnocAt(oHands, board, o, k);
    }
  }

  lemma ScoresSnocAt(oHands: seq<seq<Card>>, board: seq<Card>, o: nat, k: nat)
    requires k <= o < |oHands|
    ensures OpponentScores(oHands[..o + 1], board)[k] == (OpponentScores(oHands[..o], board) + [HandScore(oHands[o], board)])[k]
  {
    if k < o {
      assert oHands[..o + 1][k] == oHands[..o][k];
    }
  }

  lemma MaxScoreSnoc(scores: seq<int>, x: int)
    ensures MaxScore(scores + [x]) == if x > MaxScore(scores) then x else MaxScore(scores)
  {
    assert (scores + [x])[..|scores|] == scores;
  }

  lemma WholePrefix<T>(s: seq<T>)
    ensures s[..|s|] == s
  {
  }

  /** One iteration of the simulation, on the already computed unknown deck. */
  method SimulateOnce(pHand: seq<Card>, oHands: seq<seq<Card>>, board: seq<Card>, unknown: seq<Card>, js: seq<nat>)
    returns (outcome: Outcome)
    requires Fits(pHand, oHands, board) && |js| >= 52
    requires unknown == UnknownDeck(pHand, oHands, board)
    ensures outcome == IterationOutcome(pHand, oHands, board, js)
  {
    var simDeck := ShuffleDeck(unknown, js);
    var need := 5 - |board|;
    var simBoard := board + (if need <= |simDeck| then simDeck[..need] else simDeck);
    assert simBoard == SimBoard(board, FisherYates(unknown, js));
    var pResult := EvaluateHand(pHand + simBoard);
    var maxOpponentScore := BestOpponentScore(oHands, simBoard);
    if pResult.score > maxOpponentScore {
      outcome := Win;
    } else if pResult.score == maxOpponentScore {
      outcome := Split;
    } else {
      outcome := Loss;
    }
  }

  /** The simulation: one iteration per sequence of shuffle draws. */
  method SimulateEquity(pHand: seq<Card>, oHands: seq<seq<Card>>, board: seq<Card>, shuffles: seq<seq<nat>>)
    returns (tally: Tally)
    requires Fits(pHand, oHands, board) && EnoughDraws(shuffles)
    ensures tally == TallyOf(pHand, oHands, board, shuffles)
  {
    var unknown := Unknown(pHand, oHands, board);
    var wins: nat, splits: nat := 0, 0;
    var i := 0;
    while i < |shuffles|
      invariant 0 <= i <= |shuffles|
      invariant Tally(wins, splits) == Count(Outcomes(pHand, oHands, board, shuffles)[..i])
    {
      wins, splits := CountIteration(pHand, oHands, board, unknown, shuffles, i, wins, splits);
      i := i + 1;
    }
    WholePrefix(Outcomes(pHand, oHands, board, shuffles));
    tally := Tally(wins, splits);
  }

  /** One pass of that loop: simulate iteration `i` and count a win or a split. */
  method CountIteration(pHand: seq<Card>, oHands: seq<seq<Card>>, board: seq<Card>, unknown: seq<Card>,
                        shuffles: seq<seq<nat>>, i: nat, wins: nat, splits: nat)
      returns (wins': nat, splits': nat)
    requires Fits(pHand, oHands, board) && EnoughDraws(shuffles) && i < |shuffles|
    requires unknown == UnknownDeck(pHand, oHands, board)
    requires Tally(wins, splits) == Count(Outcomes(pHand, oHands, board, shuffles)[..i])
    ensures Tally(wins', splits') == Count(Outcomes(pHand, oHands, board, shuffles)[..i + 1])
  {
    ghost var outcomes := Outcomes(pHand, oHands, board, shuffles);
    var outcome := SimulateOnce(pHand, oHands, board, unknown, shuffles[i]);
    OutcomesAt(pHand, oHands, board, shuffles, i);
    wins', splits' := Tick(wins, splits, outcome);
    CountAdvance(outcomes, i, Tally(wins, splits), outcome);
  }

  /** The counters' update after one iteration: a win or a split adds one. */
  method Tick(wins: nat, splits: nat, outcome: Outcome) returns (wins': nat, splits': nat)
    ensures Tally(wins', splits') == Tallied(Tally(wins, splits), outcome)
  {
    wins', splits' := wins, splits;
    if outcome == Win {
      wins' := wins + 1;
    } else if outcome == Split {
      splits' := splits + 1;
    }
  }

  lemma OutcomesAt(pHand: seq<Card>, oHands: seq<seq<Card>>, board: seq<Card>, shuffles: seq<seq<nat>>, i: nat)
    requires |board| <= 5 && EnoughDraws(shuffles) && i < |shuffles|
    ensures |shuffles[i]| >= 52
    ensures Outcomes(pHand, oHands, board, shuffles)[i] == IterationOutcome(pHand, oHands, board, shuffles[i])
  {
  }

  /** The cards not yet seen, as the simulation builds them from a fresh deck. */
  method Unknown(pHand: seq<Card>, oHands: seq<seq<Card>>, board: seq<Card>) returns (unknown: seq<Card>)
    ensures unknown == UnknownDeck(pHand, oHands, board)
  {
    var fullDeck := CreateDeck();
    unknown := RemoveCards(fullDeck, pHand + Flatten(oHands) + board);
  }

  /** A count advanced by the next outcome is the count of the longer prefix. */
  lemma CountAdvance(outcomes: seq<Outcome>, i: nat, before: Tally, o: Outcome)
    requires i < |outcomes| && before == Count(outcomes[..i]) && outcomes[i] == o
    ensures Tallied(before, o) == Count(outcomes[..i + 1])
  {
    CountStep(outcomes, i);
  }

  /** The tally grows by one outcome at a time. */
  lemma CountStep(outcomes: seq<Outcome>, i: nat)
    requires i < |outcomes|
    ensures Count(outcomes[..i + 1]) == Tallied(Count(outcomes[..i]), outcomes[i])
  {
    assert outcomes[..i + 1][..i] == outcomes[..i];
  }
}
