/**
 * The showdown analysis: the winner of the dealt board, the equities the
 * player had on each street, and a line of commentary.
 */
module Showdown {
  import opened Cards
  import opened HandEvaluator
  import opened ScoreOrder
  import opened Equity

  // ---------------------------------------------------------------------
  // Winner labels
  // ---------------------------------------------------------------------

  function DigitChar(d: nat): char
    requires d < 10
  {
    "0123456789"[d]
  }

  /** The decimal numeral of n, as a template literal prints it. */
  function NatToString(n: nat): (s: string)
    ensures |s| >= 1
    ensures n < 10 <==> |s| == 1
  {
    if n < 10 then [DigitChar(n)] else NatToString(n / 10) + [DigitChar(n % 10)]
  }

  lemma {:induction false} NatToStringInjective(a: nat, b: nat)
    requires NatToString(a) == NatToString(b)
    ensures a == b
  {
    var s := NatToString(a);
    if a >= 10 && b >= 10 {
      assert NatToString(a / 10) == s[..|s| - 1] == NatToString(b / 10);
      NatToStringInjective(a / 10, b / 10);
      assert DigitChar(a % 10) == s[|s| - 1] == DigitChar(b % 10);
    }
  }

  function StartsWith(s: string, prefix: string): bool {
    |prefix| <= |s| && s[..|prefix|] == prefix
  }

  /** The label of the opponent in seat k (counted from 0): "Opponent k+1". */
  function OpponentLabel(k: nat): string {
    "Opponent " + NatToString(k + 1)
  }

  /** Opponent labels start with "Opponent", the two other labels do not, and seats have their own labels. */
  lemma LabelsDistinct(k: nat, j: nat)
    ensures StartsWith(OpponentLabel(k), "Opponent")
    ensures !StartsWith("Player", "Opponent") && !StartsWith("Split", "Opponent")
    ensures OpponentLabel(k) != "Player" && OpponentLabel(k) != "Split"
    ensures OpponentLabel(k) == OpponentLabel(j) <==> k == j
  {
    assert OpponentLabel(k)[..8] == "Opponent";
    if OpponentLabel(k) == OpponentLabel(j) {
      assert NatToString(k + 1) == OpponentLabel(k)[9..] == OpponentLabel(j)[9..] == NatToString(j + 1);
      NatToStringInjective(k + 1, j + 1);
    }
  }

  // ---------------------------------------------------------------------
  // The winner
  // ---------------------------------------------------------------------

  /**
   * The scan over the opponents' scores: the best score so far and the seat
   * that first reached it, starting from (-1, -1) and replaced only by a
   * strictly larger score.
   */
  function BestOpponent(scores: seq<int>): (r: (int, int))
    ensures r.0 == MaxScore(scores)
    ensures r.1 == -1 <==> r.0 == -1
    ensures r.1 != -1 ==>
      0 <= r.1 < |scores| && scores[r.1] == r.0 && forall j :: 0 <= j < r.1 ==> scores[j] < r.0
  {
    if scores == [] then (-1, -1)
    else
      var b := BestOpponent(scores[..|scores| - 1]);
      var last := scores[|scores| - 1];
      MaxScoreIsMax(scores[..|scores| - 1]);
      if last > b.0 then (last, |scores| - 1) else b
  }

  /** "Player", "Split", or the label of the best opponent's seat. */
  function WinnerOf(playerScore: nat, scores: seq<int>): string {
    var b := BestOpponent(scores);
    if playerScore > b.0 then "Player"
    else if playerScore < b.0 then OpponentLabel(b.1)
    else "Split"
  }

  /**
   * The player wins exactly when no opponent scores as much; the pot is split
   * exactly when no opponent scores more and one scores the same; otherwise
   * the winner is the first seat holding the highest score, which beats the
   * player.
   */
  lemma WinnerMeaning(playerScore: nat, scores: seq<int>)
    ensures WinnerOf(playerScore, scores) == "Player" <==>
      forall i :: 0 <= i < |scores| ==> scores[i] < playerScore
    ensures WinnerOf(playerScore, scores) == "Split" <==>
      (forall i :: 0 <= i < |scores| ==> scores[i] <= playerScore) &&
      exists i :: 0 <= i < |scores| && scores[i] == playerScore
    ensures (exists i :: 0 <= i < |scores| && scores[i] > playerScore) ==>
      exists k :: 0 <= k < |scores| && WinnerOf(playerScore, scores) == OpponentLabel(k) &&
        scores[k] > playerScore &&
        (forall j :: 0 <= j < |scores| ==> scores[j] <= scores[k]) &&
        (forall j :: 0 <= j < k ==> scores[j] < scores[k])
  {
    var b := BestOpponent(scores);
    MaxScoreIsMax(scores);
    LabelsDistinct(if b.1 >= 0 then b.1 else 0, 0);
    if playerScore < b.0 {
      var k: nat := b.1;
      assert WinnerOf(playerScore, scores) == OpponentLabel(k);
    }
  }

  /** The description of the winning hand: the player's, unless an opponent won. */
  function WinningDescriptionOf(playerScore: nat, playerDescription: string, finals: seq<HandResult>): string {
    var b := BestOpponent(Scores(finals));
    if playerScore < b.0 then finals[b.1].description else playerDescription
  }

  function Scores(finals: seq<HandResult>): (r: seq<int>)
    ensures |r| == |finals| && forall i :: 0 <= i < |finals| ==> r[i] == finals[i].score
  {
    seq(|finals|, i requires 0 <= i < |finals| => finals[i].score)
  }

  function Descriptions(finals: seq<HandResult>): (r: seq<string>)
    ensures |r| == |finals| && forall i :: 0 <= i < |finals| ==> r[i] == finals[i].description
  {
    seq(|finals|, i requires 0 <= i < |finals| => finals[i].description)
  }

  /** Each hand evaluated together with the board. */
  function Finals(hands: seq<seq<Card>>, board: seq<Card>): (r: seq<HandResult>)
    ensures |r| == |hands|
  {
    seq(|hands|, i requires 0 <= i < |hands| => Evaluate(multiset(hands[i] + board)))
  }

  // ---------------------------------------------------------------------
  // Equities and commentary
  // ---------------------------------------------------------------------

  /** The number of iterations of each street's simulation. */
  const Iterations: nat := 800

  datatype Equities = Equities(preflop: int, flop: int, turn: int, river: int)

  /** The player's equity at the river: all of the pot, half of it, or none. */
  function RiverEquity(winner: string): int {
    if winner == "Player" then 100 else if winner == "Split" then 50 else 0
  }

  const AmazingWin: string := "Amazing win! " + "You beat the odds against multiple opponents."
  const DominantWin: string := "Dominant performance. " + "You were ahead most of the way."
  const SplitComment: string := "It's a split pot! " + "A rare tie game."

  /**
   * The commentary.  The preflop equity is `(wins + splits / 2) / Iterations`;
   * it is compared with the fair share `1 / (opponents + 1)` and with 0.7.
   */
  function Commentary(winner: string, winningDescription: string, playerDescription: string,
                      preflop: Tally, opponents: nat): string
  {
    var twice := 2 * preflop.wins + preflop.splits;
    if winner == "Player" then
      if twice * (opponents + 1) < 2 * Iterations then AmazingWin
      else if 10 * twice > 7 * 2 * Iterations then DominantWin
      else "Well played. Your " + playerDescription + " secured the pot."
    else if StartsWith(winner, "Opponent") then
      winner + " takes it with " + winningDescription + ". Tough field today!"
    else SplitComment
  }

  datatype Analysis = Analysis(
    winner: string,
    winningHandDescription: string,
    playerHandDescription: string,
    opponentHandDescriptions: seq<string>,
    equities: Equities,
    commentary: string)

  /** The draws of every iteration of the three simulations. */
  predicate Draws(shuffles: seq<seq<nat>>) {
    |shuffles| == Iterations && EnoughDraws(shuffles)
  }

  /**
   * The analysis of a finished deal. Its equities are percentages, with 0
   * for the streets the board has not reached.
   */
  function AnalysisOf(playerHand: seq<Card>, opponentHands: seq<seq<Card>>, board: seq<Card>,
                      pre: seq<seq<nat>>, flop: seq<seq<nat>>, turn: seq<seq<nat>>): (a: Analysis)
    requires |board| <= 5 && Draws(pre) && Draws(flop) && Draws(turn)
    ensures EquitiesShown(a.equities, |board|)
  {
    var playerFinal := Evaluate(multiset(playerHand + board));
    EvaluateNonNegative(multiset(playerHand + board));
    var finals := Finals(opponentHands, board);
    var winner := WinnerOf(playerFinal.score, Scores(finals));
    var winningDescription := WinningDescriptionOf(playerFinal.score, playerFinal.description, finals);
    var tallies := StreetTallies(playerHand, opponentHands, board, pre, flop, turn);
    EquitiesInRange(tallies, |board|, winner);
    Analysis(winner, winningDescription, playerFinal.description, Descriptions(finals),
      StreetEquities(tallies, |board|, winner),
      Commentary(winner, winningDescription, playerFinal.description, tallies.0, |opponentHands|))
  }

  /**
   * The simulated tallies before the flop, on the flop and on the turn; a
   * street not yet dealt is not simulated and counts nothing.
   */
  function StreetTallies(playerHand: seq<Card>, opponentHands: seq<seq<Card>>, board: seq<Card>,
                         pre: seq<seq<nat>>, flop: seq<seq<nat>>, turn: seq<seq<nat>>): (r: (Tally, Tally, Tally))
    requires |board| <= 5 && Draws(pre) && Draws(flop) && Draws(turn)
    ensures r.0.wins + r.0.splits <= Iterations && r.1.wins + r.1.splits <= Iterations &&
      r.2.wins + r.2.splits <= Iterations
    ensures (|board| < 3 ==> r.1 == Tally(0, 0)) && (|board| < 4 ==> r.2 == Tally(0, 0))
  {
    (TallyOf(playerHand, opponentHands, [], pre),
     if |board| >= 3 then TallyOf(playerHand, opponentHands, board[..3], flop) else Tally(0, 0),
     if |board| >= 4 then TallyOf(playerHand, opponentHands, board[..4], turn) else Tally(0, 0))
  }

  /**
   * The rounded equity on each street: preflop always, the flop once three
   * cards are out, the turn once four are, and the river from the winner.
   */
  function StreetEquities(tallies: (Tally, Tally, Tally), boardSize: nat, winner: string): Equities {
    Equities(
      EquityPercent(tallies.0, Iterations),
      if boardSize >= 3 then EquityPercent(tallies.1, Iterations) else 0,
      if boardSize >= 4 then EquityPercent(tallies.2, Iterations) else 0,
      RiverEquity(winner))
  }

  // ---------------------------------------------------------------------
  // Properties of the analysis
  // ---------------------------------------------------------------------

  /** The river equity follows the winner: 100 for a win, 50 for a split, 0 for a loss. */
  lemma RiverEquityMeaning(playerScore: nat, scores: seq<int>)
    ensures var r := RiverEquity(WinnerOf(playerScore, scores));
      (r == 100 <==> forall i :: 0 <= i < |scores| ==> scores[i] < playerScore) &&
      (r == 0 <==> exists i :: 0 <= i < |scores| && scores[i] > playerScore)
  {
    WinnerMeaning(playerScore, scores);
    var w := WinnerOf(playerScore, scores);
    if exists i :: 0 <= i < |scores| && scores[i] > playerScore {
      var k :| 0 <= k < |scores| && w == OpponentLabel(k);
      LabelsDistinct(k, k);
    }
  }

  lemma RiverEquityRange(winner: string)
    ensures 0 <= RiverEquity(winner) <= 100
  {
  }

  /**
   * The analysis names the player the winner exactly when the player's hand
   * outscores every opponent's on the board, a split exactly when no opponent
   * outscores it and one ties it, and its river equity follows.
   */
  lemma AnalysisWinner(playerHand: seq<Card>, opponentHands: seq<seq<Card>>, board: seq<Card>,
                       pre: seq<seq<nat>>, flop: seq<seq<nat>>, turn: seq<seq<nat>>)
    requires |board| <= 5 && Draws(pre) && Draws(flop) && Draws(turn)
    ensures var a := AnalysisOf(playerHand, opponentHands, board, pre, flop, turn);
      OutcomeShown(a.winner, a.equities.river, Evaluate(multiset(playerHand + board)).score,
                   Scores(Finals(opponentHands, board)))
  {
    var m := multiset(playerHand + board);
    EvaluateNonNegative(m);
    var p: nat := Evaluate(m).score;
    var scores := Scores(Finals(opponentHands, board));
    WinnerShown(p, scores);
  }

  /**
   * The winner is "Player" exactly when the player outscores every opponent
   * and "Split" exactly when no opponent outscores the player and one ties;
   * the river equity is 100 exactly for a win and 0 exactly when someone
   * outscores the player.
   */
  predicate OutcomeShown(winner: string, river: int, p: int, scores: seq<int>) {
    (winner == "Player" <==> forall i :: 0 <= i < |scores| ==> scores[i] < p) &&
    (winner == "Split" <==>
      (forall i :: 0 <= i < |scores| ==> scores[i] <= p) && exists i :: 0 <= i < |scores| && scores[i] == p) &&
    (river == 100 <==> winner == "Player") &&
    (river == 0 <==> exists i :: 0 <= i < |scores| && scores[i] > p)
  }

  lemma WinnerShown(p: nat, scores: seq<int>)
    ensures OutcomeShown(WinnerOf(p, scores), RiverEquity(WinnerOf(p, scores)), p, scores)
  {
    WinnerMeaning(p, scores);
    RiverEquityMeaning(p, scores);
  }

  /** Every street's equity is a percentage, and a street not yet dealt shows 0. */
  predicate EquitiesShown(e: Equities, boardSize: nat) {
    0 <= e.preflop <= 100 && 0 <= e.flop <= 100 && 0 <= e.turn <= 100 && 0 <= e.river <= 100 &&
    (boardSize < 3 ==> e.flop == 0) && (boardSize < 4 ==> e.turn == 0)
  }

  lemma EquitiesInRange(tallies: (Tally, Tally, Tally), boardSize: nat, winner: string)
    requires tallies.0.wins + tallies.0.splits <= Iterations && tallies.1.wins + tallies.1.splits <= Iterations &&
      tallies.2.wins + tallies.2.splits <= Iterations
    ensures EquitiesShown(StreetEquities(tallies, boardSize, winner), boardSize)
  {
    EquityPercentBounds(tallies.0, Iterations);
    EquityPercentBounds(tallies.1, Iterations);
    EquityPercentBounds(tallies.2, Iterations);
    RiverEquityRange(winner);
  }

  /**
   * The commentary names the winning seat and hand when an opponent wins,
   * calls a split a split, and praises a player's win by how the preflop
   * equity compared with a fair share.
   */
  lemma CommentaryMeaning(playerScore: nat, scores: seq<int>, winningDescription: string,
                          playerDescription: string, preflop: Tally, opponents: nat)
    ensures (forall i :: 0 <= i < |scores| ==> scores[i] < playerScore) ==>
      (Commentary(WinnerOf(playerScore, scores), winningDescription, playerDescription, preflop, opponents) == AmazingWin <==>
        (2 * preflop.wins + preflop.splits) * (opponents + 1) < 2 * Iterations)
    ensures ((forall i :: 0 <= i < |scores| ==> scores[i] < playerScore) &&
      !((2 * preflop.wins + preflop.splits) * (opponents + 1) < 2 * Iterations)) ==>
      Commentary(WinnerOf(playerScore, scores), winningDescription, playerDescription, preflop, opponents) ==
        if 10 * (2 * preflop.wins + preflop.splits) > 7 * 2 * Iterations then DominantWin
        else "Well played. Your " + playerDescription + " secured the pot."
    ensures WinnerOf(playerScore, scores) == "Split" ==>
      Commentary(WinnerOf(playerScore, scores), winningDescription, playerDescription, preflop, opponents) == SplitComment
    ensures forall k :: 0 <= k < |scores| && WinnerOf(playerScore, scores) == OpponentLabel(k) ==>
      Commentary(WinnerOf(playerScore, scores), winningDescription, playerDescription, preflop, opponents) ==
        OpponentLabel(k) + " takes it with " + winningDescription + ". Tough field today!"
  {
    WinnerMeaning(playerScore, scores);
    LabelsDistinct(0, 0);
    assert AmazingWin[0] == 'A' && DominantWin[0] == 'D';
    var wellPlayed := "Well played. Your " + playerDescription + " secured the pot.";
    assert wellPlayed[0] == 'W';
    forall k | 0 <= k < |scores| && WinnerOf(playerScore, scores) == OpponentLabel(k)
      ensures StartsWith(OpponentLabel(k), "Opponent")
    {
      LabelsDistinct(k, k);
    }
  }

  // ---------------------------------------------------------------------
  // The analysis's loops
  // ---------------------------------------------------------------------

  /** Each hand evaluated together with the board (`hands.map(...)`). */
  method EvaluateAll(hands: seq<seq<Card>>, board: seq<Card>) returns (finals: seq<HandResult>)
    requires |board| <= 5 && forall i :: 0 <= i < |hands| ==> |hands[i]| <= 2
    ensures finals == Finals(hands, board)
  {
    ghost var target := Finals(hands, board);
    finals := [];
    var i := 0;
    while i < |hands|
      invariant 0 <= i <= |hands|
      invariant finals == target[..i]
    {
      var r := EvaluateHand(hands[i] + board);
      PrefixSnoc(target, i, r);
      finals := finals + [r];
      i := i + 1;
    }
    WholePrefix(target);
  }

  lemma PrefixSnoc<T>(s: seq<T>, i: nat, x: T)
    requires i < |s| && x == s[i]
    ensures s[..i] + [x] == s[..i + 1]
  {
  }

  /** The scan for the best opponent (`forEach` keeping the first strictly larger score). */
  method FindBestOpponent(scores: seq<int>) returns (bestScore: int, bestIndex: int)
    ensures (bestScore, bestIndex) == BestOpponent(scores)
  {
    bestScore, bestIndex := -1, -1;
    var idx := 0;
    while idx < |scores|
      invariant 0 <= idx <= |scores|
      invariant (bestScore, bestIndex) == BestOpponent(scores[..idx])
    {
      assert scores[..idx + 1][..idx] == scores[..idx];
      if scores[idx] > bestScore {
        bestScore, bestIndex := scores[idx], idx;
      }
      idx := idx + 1;
    }
    assert scores[..|scores|] == scores;
  }

  /** The analysis of a finished deal, computed step by step. */
  method AnalyzeGame(playerHand: seq<Card>, opponentHands: seq<seq<Card>>, board: seq<Card>,
                     pre: seq<seq<nat>>, flop: seq<seq<nat>>, turn: seq<seq<nat>>) returns (a: Analysis)
    requires Fits(playerHand, opponentHands, board) && Draws(pre) && Draws(flop) && Draws(turn)
    ensures a == AnalysisOf(playerHand, opponentHands, board, pre, flop, turn)
  {
    var playerFinal := EvaluateHand(playerHand + board);
    EvaluateNonNegative(multiset(playerHand + board));
    var opponentFinals := EvaluateAll(opponentHands, board);
    var winner, winningHandDescription := DecideWinner(playerFinal, opponentFinals);
    var tallies := SimulateStreets(playerHand, opponentHands, board, pre, flop, turn);
    a := Analysis(winner, winningHandDescription, playerFinal.description, Descriptions(opponentFinals),
      StreetEquities(tallies, |board|, winner),
      Commentary(winner, winningHandDescription, playerFinal.description, tallies.0, |opponentHands|));
  }

  /** The winner and the winning hand's description, from the scan over the opponents. */
  method DecideWinner(playerFinal: HandResult, opponentFinals: seq<HandResult>)
    returns (winner: string, winningHandDescription: string)
    requires playerFinal.score >= 0
    ensures winner == WinnerOf(playerFinal.score, Scores(opponentFinals))
    ensures winningHandDescription == WinningDescriptionOf(playerFinal.score, playerFinal.description, opponentFinals)
  {
    var bestOpponentScore, bestOpponentIndex := FindBestOpponent(Scores(opponentFinals));
    if playerFinal.score > bestOpponentScore {
      winner, winningHandDescription := "Player", playerFinal.description;
    } else if playerFinal.score < bestOpponentScore {
      winner := OpponentLabel(bestOpponentIndex);
      winningHandDescription := opponentFinals[bestOpponentIndex].description;
    } else {
      winner, winningHandDescription := "Split", playerFinal.description;
    }
  }

  /** The three simulations, each run only once its street is dealt. */
  method SimulateStreets(playerHand: seq<Card>, opponentHands: seq<seq<Card>>, board: seq<Card>,
                         pre: seq<seq<nat>>, flop: seq<seq<nat>>, turn: seq<seq<nat>>)
    returns (tallies: (Tally, Tally, Tally))
    requires Fits(playerHand, opponentHands, board) && Draws(pre) && Draws(flop) && Draws(turn)
    ensures tallies == StreetTallies(playerHand, opponentHands, board, pre, flop, turn)
  {
    var eqPre := SimulateEquity(playerHand, opponentHands, [], pre);
    var eqFlop := SimulateStreet(playerHand, opponentHands, board, 3, flop);
    var eqTurn := SimulateStreet(playerHand, opponentHands, board, 4, turn);
    tallies := (eqPre, eqFlop, eqTurn);
  }

  /** The simulation on the first `street` board cards, if the board has that many. */
  method SimulateStreet(playerHand: seq<Card>, opponentHands: seq<seq<Card>>, board: seq<Card>,
                        street: nat, shuffles: seq<seq<nat>>) returns (tally: Tally)
    requires Fits(playerHand, opponentHands, board) && Draws(shuffles)
    ensures tally == if street <= |board| then TallyOf(playerHand, opponentHands, board[..street], shuffles) else Tally(0, 0)
  {
    tally := Tally(0, 0);
    if street <= |board| {
      var known := board[..street];
      tally := SimulateEquity(playerHand, opponentHands, known, shuffles);
    }
  }
}
