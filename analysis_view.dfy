/**
 * The results view opened after a showdown: one tab per street, the board
 * and the equity each tab shows, the header announcing the winner, and
 * which opponents are highlighted as winners.
 */
module AnalysisView {
  import opened Wrappers
  import opened Cards
  import opened HandEvaluator
  import opened ScoreOrder
  import opened Equity
  import opened Showdown

  // ---------------------------------------------------------------------
  // Street tabs
  // ---------------------------------------------------------------------

  datatype TabStage = PreflopTab | FlopTab | TurnTab | RiverTab

  /** The number of community cards on the board once a street is dealt. */
  function StreetCards(t: TabStage): nat {
    match t
    case PreflopTab => 0
    case FlopTab => 3
    case TurnTab => 4
    case RiverTab => 5
  }

  /** A tab can be opened exactly when the board has reached its street. */
  function IsStageAvailable(t: TabStage, boardSize: nat): (r: bool)
    ensures r <==> StreetCards(t) <= boardSize
  {
    match t
    case PreflopTab => true
    case FlopTab => boardSize >= 3
    case TurnTab => boardSize >= 4
    case RiverTab => boardSize >= 5
  }

  /**
   * The tab the view opens on: an available one, and for a board of at most
   * five cards the furthest street available.
   */
  function InitialTab(boardSize: nat): (t: TabStage)
    ensures IsStageAvailable(t, boardSize)
    ensures boardSize <= 5 ==>
      forall u :: IsStageAvailable(u, boardSize) ==> StreetCards(u) <= StreetCards(t)
  {
    if boardSize == 5 then RiverTab
    else if boardSize == 4 then TurnTab
    else if boardSize >= 3 then FlopTab
    else PreflopTab
  }

  // ---------------------------------------------------------------------
  // What a tab shows
  // ---------------------------------------------------------------------

  /** The first n elements of s, or all of s when it is shorter. */
  function Prefix<T>(s: seq<T>, n: nat): (r: seq<T>)
    ensures |r| == if n <= |s| then n else |s|
    ensures r == s[..|r|]
  {
    if n <= |s| then s[..n] else s
  }

  /**
   * The community cards a tab shows: the board as it stood on that street,
   * which is empty ("no community cards yet") exactly on the pre-flop tab or
   * before any card is dealt.
   */
  function VisibleBoard(t: TabStage, board: seq<Card>): (r: seq<Card>)
    ensures |r| == if StreetCards(t) <= |board| then StreetCards(t) else |board|
    ensures r == board[..|r|]
    ensures r == [] <==> t == PreflopTab || board == []
  {
    match t
    case PreflopTab => []
    case FlopTab => Prefix(board, 3)
    case TurnTab => Prefix(board, 4)
    case RiverTab => Prefix(board, 5)
  }

  /** A tab that can be opened shows exactly its street's cards. */
  lemma AvailableTabShowsStreet(t: TabStage, board: seq<Card>)
    requires IsStageAvailable(t, |board|)
    ensures VisibleBoard(t, board) == board[..StreetCards(t)]
  {
  }

  /** For a board as dealt (none, three, four or five cards) the view opens on the whole board. */
  lemma InitialTabShowsBoard(board: seq<Card>)
    requires |board| == 0 || 3 <= |board| <= 5
    ensures VisibleBoard(InitialTab(|board|), board) == board
  {
  }

  /** A tab's equity. */
  function TabEquity(e: Equities, t: TabStage): int {
    match t
    case PreflopTab => e.preflop
    case FlopTab => e.flop
    case TurnTab => e.turn
    case RiverTab => e.river
  }

  /** The equity a tab displays: its own, or none ("stage not reached") when unavailable. */
  function ShownEquity(e: Equities, t: TabStage, boardSize: nat): Option<int> {
    if IsStageAvailable(t, boardSize) then Some(TabEquity(e, t)) else None
  }

  /**
   * For the equities of an analysis, every tab's equity is a percentage; a
   * tab shows one exactly when its street was reached, and a tab whose
   * street was not reached holds 0 for the flop and the turn.
   */
  lemma TabEquityShown(e: Equities, t: TabStage, boardSize: nat)
    requires EquitiesShown(e, boardSize)
    ensures 0 <= TabEquity(e, t) <= 100
    ensures ShownEquity(e, t, boardSize).Some? <==> StreetCards(t) <= boardSize
    ensures ShownEquity(e, t, boardSize).Some? ==> ShownEquity(e, t, boardSize).value == TabEquity(e, t)
    ensures !IsStageAvailable(t, boardSize) && t != RiverTab ==> TabEquity(e, t) == 0
  {
  }

  /** The equities of any analysis display as the lemma above says. */
  lemma AnalysisTabEquity(playerHand: seq<Card>, opponentHands: seq<seq<Card>>, board: seq<Card>,
                          pre: seq<seq<nat>>, flop: seq<seq<nat>>, turn: seq<seq<nat>>, t: TabStage)
    requires |board| <= 5 && Draws(pre) && Draws(flop) && Draws(turn)
    ensures var e := AnalysisOf(playerHand, opponentHands, board, pre, flop, turn).equities;
      0 <= TabEquity(e, t) <= 100 && (!IsStageAvailable(t, |board|) && t != RiverTab ==> TabEquity(e, t) == 0)
  {
    TabEquityShown(AnalysisOf(playerHand, opponentHands, board, pre, flop, turn).equities, t, |board|);
  }

  /**
   * The open results view: the board it was opened on and the active tab,
   * which is always one whose street was reached.
   */
  class ResultsView {
    const board: seq<Card>
    var activeTab: TabStage

    ghost predicate Valid()
      reads this
    {
      IsStageAvailable(activeTab, |board|)
    }

    constructor (board: seq<Card>)
      ensures this.board == board && activeTab == InitialTab(|board|) && Valid()
    {
      this.board := board;
      activeTab := InitialTab(|board|);
    }

    /** A click on a tab opens it when its street was reached and is ignored otherwise. */
    method Click(t: TabStage)
      requires Valid()
      modifies this
      ensures Valid()
      ensures activeTab == if IsStageAvailable(t, |board|) then t else old(activeTab)
    {
      if IsStageAvailable(t, |board|) {
        activeTab := t;
      }
    }

    /** The cards the active tab shows. */
    method ShownBoard() returns (r: seq<Card>)
      requires Valid()
      ensures r == board[..StreetCards(activeTab)]
    {
      r := VisibleBoard(activeTab, board);
    }
  }

  // ---------------------------------------------------------------------
  // Header and highlighted opponents
  // ---------------------------------------------------------------------

  /** The header for a winner label. */
  function HeaderText(winner: string): string {
    if winner == "Player" then "You Won!"
    else if StartsWith(winner, "Opponent") then winner + " Won"
    else "Split Pot"
  }

  /**
   * The header says "You Won!" exactly when the player outscores every
   * opponent, "Split Pot" exactly when nobody outscores the player and some
   * opponent ties, and otherwise names the first seat holding the best score.
   */
  lemma HeaderMeaning(p: nat, scores: seq<int>)
    ensures HeaderText(WinnerOf(p, scores)) == "You Won!" <==>
      forall i :: 0 <= i < |scores| ==> scores[i] < p
    ensures HeaderText(WinnerOf(p, scores)) == "Split Pot" <==>
      (forall i :: 0 <= i < |scores| ==> scores[i] <= p) && exists i :: 0 <= i < |scores| && scores[i] == p
    ensures (exists i :: 0 <= i < |scores| && scores[i] > p) ==>
      exists k :: 0 <= k < |scores| && HeaderText(WinnerOf(p, scores)) == OpponentLabel(k) + " Won" &&
        FirstBest(scores, k) && scores[k] > p
  {
    WinnerMeaning(p, scores);
    LabelsDistinct(0, 0);
    var w := WinnerOf(p, scores);
    if exists i :: 0 <= i < |scores| && scores[i] > p {
      var k :| 0 <= k < |scores| && w == OpponentLabel(k) && scores[k] > p &&
        (forall j :: 0 <= j < |scores| ==> scores[j] <= scores[k]) &&
        (forall j :: 0 <= j < k ==> scores[j] < scores[k]);
      LabelsDistinct(k, k);
      assert HeaderText(w) == OpponentLabel(k) + " Won";
      assert |HeaderText(w)| > 9;
    }
  }

  /** Seat k holds the best score and no earlier seat ties it. */
  predicate FirstBest(scores: seq<int>, k: nat) {
    k < |scores| && (forall j :: 0 <= j < |scores| ==> scores[j] <= scores[k]) &&
    forall j :: 0 <= j < k ==> scores[j] < scores[k]
  }

  /** At most one seat is the first to hold the best score. */
  lemma FirstBestUnique(scores: seq<int>, k: nat, j: nat)
    requires FirstBest(scores, k) && FirstBest(scores, j)
    ensures k == j
  {
    assert scores[j] <= scores[k] && scores[k] <= scores[j];
  }

  /**
   * Whether the opponent in seat idx is highlighted as a winner: it is the
   * named winner, or the pot was split and its hand is described like the
   * winning hand.
   */
  function IsWinner(a: Analysis, idx: nat): bool {
    a.winner == OpponentLabel(idx) ||
    (a.winner == "Split" && idx < |a.opponentHandDescriptions| &&
     a.winningHandDescription == a.opponentHandDescriptions[idx])
  }

  /**
   * What the highlighting of seat j means, for a player scoring p against
   * opponents' final hands: no opponent is highlighted when the player wins;
   * when someone outscores the player, exactly the first seat with the best
   * score is; in a split pot exactly the seats described like the player's
   * hand are, so every seat that ties the player with that description is.
   */
  predicate HighlightShown(a: Analysis, p: nat, pDesc: string, finals: seq<HandResult>, j: nat) {
    ((forall i :: 0 <= i < |finals| ==> finals[i].score < p) ==> !IsWinner(a, j)) &&
    ((exists i :: 0 <= i < |finals| && finals[i].score > p) ==> (IsWinner(a, j) <==> FirstBest(Scores(finals), j))) &&
    (a.winner == "Split" ==> (IsWinner(a, j) <==> j < |finals| && finals[j].description == pDesc)) &&
    (TiesPlayer(p, pDesc, finals, j) ==> IsWinner(a, j))
  }

  /** Nobody outscores the player, and seat j ties the player with a hand described the same way. */
  predicate TiesPlayer(p: nat, pDesc: string, finals: seq<HandResult>, j: nat) {
    (forall i :: 0 <= i < |finals| ==> finals[i].score <= p) && j < |finals| && finals[j].score == p &&
    finals[j].description == pDesc
  }

  lemma HighlightOfOutcome(a: Analysis, p: nat, pDesc: string, finals: seq<HandResult>, j: nat)
    requires a.winner == WinnerOf(p, Scores(finals))
    requires a.winningHandDescription == WinningDescriptionOf(p, pDesc, finals)
    requires a.opponentHandDescriptions == Descriptions(finals)
    ensures HighlightShown(a, p, pDesc, finals, j)
  {
    var scores := Scores(finals);
    WinnerMeaning(p, scores);
    LabelsDistinct(j, j);
    if exists i :: 0 <= i < |finals| && finals[i].score > p {
      assert exists i :: 0 <= i < |scores| && scores[i] > p;
      var k :| 0 <= k < |scores| && a.winner == OpponentLabel(k) && scores[k] > p &&
        (forall i :: 0 <= i < |scores| ==> scores[i] <= scores[k]) &&
        (forall i :: 0 <= i < k ==> scores[i] < scores[k]);
      LabelsDistinct(k, j);
      if FirstBest(scores, j) {
        FirstBestUnique(scores, k, j);
      }
    }
    if a.winner == "Split" {
      assert a.winningHandDescription == pDesc;
      assert !(a.winner == OpponentLabel(j));
    }
    if TiesPlayer(p, pDesc, finals, j) {
      assert scores[j] == p;
      assert a.winner == "Split";
    }
  }

  /**
   * In any analysis, the Player wins with no opponent highlighted, an
   * opponent's win highlights exactly the first seat with the best score,
   * and a split highlights exactly the seats described like the player's hand.
   */
  lemma AnalysisHighlights(playerHand: seq<Card>, opponentHands: seq<seq<Card>>, board: seq<Card>,
                           pre: seq<seq<nat>>, flop: seq<seq<nat>>, turn: seq<seq<nat>>, j: nat)
    requires |board| <= 5 && Draws(pre) && Draws(flop) && Draws(turn)
    ensures var player := Evaluate(multiset(playerHand + board));
      player.score >= 0 &&
      HighlightShown(AnalysisOf(playerHand, opponentHands, board, pre, flop, turn), player.score,
                     player.description, Finals(opponentHands, board), j)
  {
    var player := Evaluate(multiset(playerHand + board));
    EvaluateNonNegative(multiset(playerHand + board));
    HighlightOfOutcome(AnalysisOf(playerHand, opponentHands, board, pre, flop, turn), player.score,
                       player.description, Finals(opponentHands, board), j);
  }

  /**
   * Once every pool has at least five cards, an opponent tying the player is
   * described like the player's hand, so that in a split pot (by
   * AnalysisHighlights) every tying opponent is highlighted.
   */
  lemma TiedHandsDescribedAlike(playerHand: seq<Card>, opponentHands: seq<seq<Card>>, board: seq<Card>, j: nat)
    requires j < |opponentHands| && |playerHand + board| >= 5 && |opponentHands[j] + board| >= 5
    requires Finals(opponentHands, board)[j].score == Evaluate(multiset(playerHand + board)).score
    ensures Finals(opponentHands, board)[j].description == Evaluate(multiset(playerHand + board)).description
  {
    assert Finals(opponentHands, board)[j] == Evaluate(multiset(opponentHands[j] + board));
    EqualScoresDescribedAlike(multiset(opponentHands[j] + board), multiset(playerHand + board));
  }
}
