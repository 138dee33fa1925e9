# Texas Hold'em simulator, modelled in Dafny

The simulator deals one hand of Texas Hold'em against one to four computer
opponents. The player bets, checks or folds street by street. At the showdown
the board is run out to five cards and every hand is evaluated. The analysis
names the winner and rebuilds the player's winning chances before the flop, on
the flop and on the turn by Monte-Carlo simulation. A results screen shows that
analysis street by street.

This project models that core and proves what it promises:

| module | file | models |
|---|---|---|
| `Cards` | `cards.dfy` | ranks, suits, cards and their ids, game stages, the rank and suit values the evaluator uses |
| `Deck` | `deck.dfy` | the ordered 52-card deck, the Fisher-Yates shuffle (as a function, a method on sequences and an in-place method on an array), removal of cards by id, and the biased opponent dealer |
| `HandEvaluator` | `evaluator.dfy` | `evaluateHand`: a specification over the pool of cards (a multiset) and the imperative evaluator with its tallies and straight scan, proved equal to it |
| `ScoreOrder` | `score_order.dfy` | what the evaluator's score means: for pools of five or more cards, scores compare exactly as the poker keys (type, main ranks, kickers) compare lexicographically |
| `Equity` | `equity.dfy` | `simulateEquity`: the cards not yet seen, the simulated board, one iteration's win/split/loss and the tally over all iterations |
| `Showdown` | `showdown.dfy` | `analyzeGame`: the winner, the winning description, the street equities and the commentary |
| `Game` | `game.dfy` | the application state and its handlers, as the class `Table` |
| `AnalysisView` | `analysis_view.dfy` | the results screen: tabs, visible board, shown equity, header and the winner highlight |

All randomness is an input:

- a shuffle takes a sequence `js` of natural numbers, and step `i` swaps with index `js[i] % (i + 1)` (the source's `Math.floor(Math.random() * (i + 1))`);
- an opponent deal takes an `OpponentDraw`: whether to aim for a strong hand, and which one;
- a strong player deal takes the index of the high rank;
- each simulation takes one shuffle sequence per iteration.

Every property below therefore holds for every outcome of the random choices.

Scores are numbers with two decimal places in the source, because the last kicker is weighted 0.01. The model keeps them as exact integers in hundredths. Equities are exact rationals rounded as `Math.round` rounds them.

Four facts about the code shape the model:

- Rank names in descriptions are the rank strings ("Full House, Ks full of 4s"), not words.
- A flush counts its first two ranks twice in the score.
- The biased opponent dealer can lose a card (`Deck.StrandedCardLost` below).
- On a split pot the results screen highlights every opponent whose hand is described like the player's, whether or not its score ties; the source marks this test as approximate.

## Model

| member | source | states |
|---|---|---|
| Cards.IdInjective | texas-hold-em-simulator/utils/deck.ts:13-17 | two cards have the same id exactly when they have the same rank and suit, so ids identify cards |
| Cards.RankValue | texas-hold-em-simulator/services/geminiService.ts:5-10 | every rank has a value from 0 (Two) to 12 (Ace) |
| Cards.RankAt | texas-hold-em-simulator/services/geminiService.ts:5-10 | every value from 0 to 12 is the value of a rank, so the value table is a bijection |
| Cards.SuitValue | texas-hold-em-simulator/services/geminiService.ts:12-14 | every suit has a value from 0 to 3 |
| Cards.RankName | texas-hold-em-simulator/services/geminiService.ts:152 | the reverse lookup of a rank's value prints that rank's string, and prints "undefined" exactly for values outside 0..12 |
| Deck.FullDeck | texas-hold-em-simulator/utils/deck.ts:3-21 | the deck has 52 cards |
| Deck.FullDeckAt | texas-hold-em-simulator/utils/deck.ts:9-21 | each card sits at position 13 × (suit position in spades, hearts, diamonds, clubs) + rank value |
| Deck.FullDeckComplete | texas-hold-em-simulator/utils/deck.ts:9-21 | every card is in the deck |
| Deck.FullDeckDistinct | texas-hold-em-simulator/utils/deck.ts:9-21 | no two positions of the deck hold the same card or the same id |
| Deck.FullDeckOnce | texas-hold-em-simulator/utils/deck.ts:9-21 | every card occurs in the deck exactly once |
| Deck.CreateDeck | texas-hold-em-simulator/utils/deck.ts:9-21 | the nested suit and rank loops build exactly the full deck |
| Deck.CardToString | texas-hold-em-simulator/utils/deck.ts:32 | the printed string is the id of exactly one card, the card printed |
| Deck.Draw | texas-hold-em-simulator/utils/deck.ts:26 | the swap partner of step i is at most i |
| Deck.FisherYatesPermutes | texas-hold-em-simulator/utils/deck.ts:25-28 | the shuffle from any step down is a permutation of its input |
| Deck.FisherYates | texas-hold-em-simulator/utils/deck.ts:23-30 | the shuffled deck has the same length and the same cards, counted with multiplicity |
| Deck.ShuffleDeck | texas-hold-em-simulator/utils/deck.ts:23-30 | the loop over a copy of the deck computes the Fisher-Yates shuffle and returns a permutation of the deck |
| Deck.ShuffleInPlace | texas-hold-em-simulator/utils/deck.ts:25-28 | the swaps done in place on an array leave the array holding the Fisher-Yates shuffle of its old contents |
| Deck.ShuffleStep | texas-hold-em-simulator/utils/deck.ts:26-27 | one in-place swap advances the shuffle by exactly one step |
| Deck.InIds | texas-hold-em-simulator/utils/deck.ts:35-38 | a card's id is among a hand's ids exactly when the card is in the hand |
| Deck.RemoveCards | texas-hold-em-simulator/utils/deck.ts:35-38 | removing cards never lengthens the deck |
| Deck.RemoveCardsCount | texas-hold-em-simulator/utils/deck.ts:35-38 | after removal a removed card occurs 0 times and every other card as often as before |
| Deck.RemoveCardsContents | texas-hold-em-simulator/utils/deck.ts:35-38 | a card is left exactly when it was in the deck and not among the removed cards |
| Deck.RemoveCardsAppend | texas-hold-em-simulator/utils/deck.ts:35-38 | removal distributes over concatenation of decks |
| Deck.RemoveAbsent | texas-hold-em-simulator/utils/deck.ts:35-38 | removing cards that are not in the deck leaves it unchanged |
| Deck.RemoveIdempotent | texas-hold-em-simulator/utils/deck.ts:35-38 | removing the same cards twice is removing them once |
| Deck.RemoveCardsSubsequence | texas-hold-em-simulator/utils/deck.ts:35-38 | the deck left keeps the order of the original deck (it is a subsequence) |
| Deck.FindIndex | texas-hold-em-simulator/utils/deck.ts:46-48 | the result is -1 or the position of a matching card, and no earlier card matches (none at all when -1) |
| Deck.FindCardIn | texas-hold-em-simulator/utils/deck.ts:46-48 | a card found is in the deck and has the rank, and the suit when one is asked for |
| Deck.PopPair | texas-hold-em-simulator/utils/deck.ts:50-55 | two pops take the last two cards; they and the rest make up the deck, and the rest keeps its order |
| Deck.SearchNineTen | texas-hold-em-simulator/utils/deck.ts:93-102 | the 9-10 suited search takes the first Ten and the first Nine of that Ten's suit out of the deck, or changes nothing when either is missing |
| Deck.SearchPair | texas-hold-em-simulator/utils/deck.ts:63-92 | the AA, QQ and AK search takes the first card of the first rank and then the first card of the partner rank; when the partner is missing, the deck stays without the first card and the hand is empty |
| Deck.SearchStrong | texas-hold-em-simulator/utils/deck.ts:58-103 | the search for the chosen strong hand gives the target hand and the deck without it, or no hand and the deck the failed search leaves |
| Deck.DealTakesFromDeck | texas-hold-em-simulator/utils/deck.ts:50-112 | every opponent hand has two cards; the hand and the deck left together are contained in the deck dealt from, and the deck left keeps its order |
| Deck.StrandedCardLost | texas-hold-em-simulator/utils/deck.ts:63-92 | when the Ace or Queen is found but its partner is not, that first card is in neither the fallback hand nor the deck left |
| Deck.OpponentHandFromDeck | texas-hold-em-simulator/utils/deck.ts:41-113 | the opponent's two cards and the deck left are disjoint parts of the deck without the player's cards, and the deck left holds none of the player's cards |
| Deck.OpponentHand | texas-hold-em-simulator/utils/deck.ts:41-113 | the dealer's result on the deck without the player's cards; `Deck.OpponentHandFromDeck`, `Deck.DealTakesFromDeck` and `Deck.StrandedCardLost` give its meaning |
| Deck.GenerateOpponentHand | texas-hold-em-simulator/utils/deck.ts:41-113 | the dealer's steps (random pop, targeted search, then the fallback pop when the search gave fewer than two cards) compute the specified deal |
| Deck.RemoveSize | texas-hold-em-simulator/utils/deck.ts:35-38 | from a deck without repeats, removing t cards takes away at most t cards |
| Deck.DealLeavesEnough | texas-hold-em-simulator/utils/deck.ts:50-112 | from a deck without repeats and at least 3 cards every pop finds a card, and the deal takes at most 3 cards |
| HandEvaluator.ExpandCount | texas-hold-em-simulator/services/geminiService.ts:41-46 | the sorted rank list holds each rank value exactly as often as the pool's count says |
| HandEvaluator.SortedUnique | texas-hold-em-simulator/services/geminiService.ts:35-39 | two descending lists with the same elements are equal, so the sorted ranks do not depend on the input order of the cards |
| HandEvaluator.SortByRank | texas-hold-em-simulator/services/geminiService.ts:35-39 | the sort puts the cards in descending rank order and keeps the same cards |
| HandEvaluator.BestStraight | texas-hold-em-simulator/services/geminiService.ts:63-70 | the result is the highest h with ranks h-4..h all present; no higher one exists; when there is none the result is 3 exactly for the wheel (A-2-3-4-5) and -1 otherwise |
| HandEvaluator.Descending | texas-hold-em-simulator/services/geminiService.ts:62 | the unique ranks are strictly descending and are exactly the rank values of the set |
| HandEvaluator.FirstWindowIsBest | texas-hold-em-simulator/services/geminiService.ts:64-66 | the first five consecutive entries the scan finds start the best straight |
| HandEvaluator.NoWindow | texas-hold-em-simulator/services/geminiService.ts:67-69 | when the scan finds no five in a row, only the wheel is a straight |
| HandEvaluator.GetStraightHigh | texas-hold-em-simulator/services/geminiService.ts:63-70 | the window scan then the wheel test return the high card of the best straight among the distinct ranks, or -1 |
| HandEvaluator.FirstWithCount | texas-hold-em-simulator/services/geminiService.ts:48 | the rank found four times is the lowest rank with that count, because record keys are visited in ascending order, and no lower rank has it |
| HandEvaluator.WithCount | texas-hold-em-simulator/services/geminiService.ts:49-50 | the trips and pairs lists are strictly descending and contain exactly the ranks occurring three (resp. two) times |
| HandEvaluator.TallyRanks | texas-hold-em-simulator/services/geminiService.ts:45-46 | the counting loop gives, for each rank value, how often it occurs |
| HandEvaluator.FindFlushSuit | texas-hold-em-simulator/services/geminiService.ts:53-58 | the suit loop finds -1 exactly when no suit has five cards, otherwise a suit with five or more, and no other suit reaches five |
| HandEvaluator.CountSuit | texas-hold-em-simulator/services/geminiService.ts:55-57 | one pass of the suit loop adds one to the card's suit and notes that suit once its count reaches five |
| HandEvaluator.RankFeatures | texas-hold-em-simulator/services/geminiService.ts:41-72 | the sorted ranks, the four of a kind, trips, pairs and straight the code computes are those of the pool's rank counts |
| HandEvaluator.FlushFeatures | texas-hold-em-simulator/services/geminiService.ts:53-81 | the flush cards' ranks and the straight-flush high card are those of the pool's flush suit, or none and -1 |
| HandEvaluator.ComputeFeatures | texas-hold-em-simulator/services/geminiService.ts:35-81 | everything the evaluator derives before the type decision depends only on the pool of cards, not on their order |
| HandEvaluator.Classify | texas-hold-em-simulator/services/geminiService.ts:84-124 | the hand type decision from straight flush down to high card, with its main ranks and kickers; its meaning is given by `ScoreOrder.PoolWellShaped` and `ScoreOrder.KeyDeterminesClassification` |
| HandEvaluator.Score | texas-hold-em-simulator/services/geminiService.ts:126-149 | the score built from type, main ranks and kickers; `ScoreOrder.ScoreDigits` and `ScoreOrder.ScoreOrdersKeys` say what it means |
| HandEvaluator.Describe | texas-hold-em-simulator/services/geminiService.ts:151-166 | the description of each hand type, with rank names from `Cards.RankName`; `ScoreOrder.EqualScoresDescribedAlike` relates it to the score |
| HandEvaluator.Evaluate | texas-hold-em-simulator/services/geminiService.ts:31-167 | the evaluation of a pool as a multiset, "Fold" with 0 for no cards; `HandEvaluator.EvaluateHand` computes it and `ScoreOrder.EvaluateOrdersHands` orders its scores |
| HandEvaluator.EvaluateHand | texas-hold-em-simulator/services/geminiService.ts:31-167 | the evaluator returns "Fold" with score 0 for no cards and otherwise the classified score and description of the pool; its result does not depend on the order of the cards |
| ScoreOrder.NumOrder | texas-hold-em-simulator/services/geminiService.ts:128-149 | base-100 numerals of equal length with digits in range compare exactly as their digit sequences do |
| ScoreOrder.ScoreDigits | texas-hold-em-simulator/services/geminiService.ts:128-149 | the score is the base-100 numeral of the type followed by five weighted rank digits |
| ScoreOrder.SpreadOrder | texas-hold-em-simulator/services/geminiService.ts:136-148 | laying the key's ranks out in the score's digit positions with positive weights keeps their lexicographic order |
| ScoreOrder.ScoreOrdersKeys | texas-hold-em-simulator/services/geminiService.ts:84-149 | for well-shaped hands, a score is below another exactly when the poker key is lexicographically below, and equal exactly when the keys are equal |
| ScoreOrder.PoolWellShaped | texas-hold-em-simulator/services/geminiService.ts:84-124 | every pool of five or more cards is classified with its type's number of main ranks and kickers, all in range |
| ScoreOrder.EvaluateOrdersHands | texas-hold-em-simulator/services/geminiService.ts:31-167 | two pools of five or more cards: one scores below the other exactly when it loses on type, then main ranks, then kickers, and they tie exactly when the keys are equal |
| ScoreOrder.EqualScoresDescribedAlike | texas-hold-em-simulator/services/geminiService.ts:153-166 | two such pools that score alike get the same description |
| ScoreOrder.KeyDeterminesClassification | texas-hold-em-simulator/services/geminiService.ts:84-124 | a well-shaped classification is determined by its key |
| ScoreOrder.EvaluateNonNegative | texas-hold-em-simulator/services/geminiService.ts:32-149 | every pool, including the empty one, scores at least 0, so a real hand always beats the initial -1 |
| Equity.Flatten | texas-hold-em-simulator/services/geminiService.ts:177 | a card is in the flattened hands exactly when it is in one of them |
| Equity.UnknownDeck | texas-hold-em-simulator/services/geminiService.ts:175-179 | the unknown deck holds exactly the cards held by nobody and not on the board |
| Equity.MaxScoreIsMax | texas-hold-em-simulator/services/geminiService.ts:196-202 | the running maximum bounds every opponent score and, unless -1, is one of them |
| Equity.Count | texas-hold-em-simulator/services/geminiService.ts:204-205 | wins plus splits never exceed the number of iterations |
| Equity.TallyOf | texas-hold-em-simulator/services/geminiService.ts:181-206 | the simulation's wins plus splits never exceed its iterations |
| Equity.SimBoardFacts | texas-hold-em-simulator/services/geminiService.ts:183-191 | the simulated board starts with the known board, has five cards when enough are unknown, and adds only cards nobody holds |
| Equity.CompareMeaning | texas-hold-em-simulator/services/geminiService.ts:196-205 | an iteration is a win exactly when the player outscores every opponent, and a split exactly when nobody outscores the player and someone ties |
| Equity.IterationMeaning | texas-hold-em-simulator/services/geminiService.ts:181-206 | the same for one simulated iteration on its own shuffled board |
| Equity.IterationOutcome | texas-hold-em-simulator/services/geminiService.ts:183-205 | one iteration's shuffle, completed board and comparison; `Equity.IterationMeaning` states when it is a win, a split or a loss |
| Equity.EquityPercent | texas-hold-em-simulator/services/geminiService.ts:208 | the rounded percentage of wins plus half the splits; `Equity.EquityPercentBounds` and `Equity.EquityPercentExtremes` bound it |
| Equity.EquityPercentBounds | texas-hold-em-simulator/services/geminiService.ts:208 | the rounded equity is between 0 and 100 and within half a point of (wins + splits/2) / iterations × 100 |
| Equity.EquityPercentExtremes | texas-hold-em-simulator/services/geminiService.ts:208 | winning every iteration shows 100, splitting every one 50, never winning nor splitting 0 |
| Equity.BestOpponentScore | texas-hold-em-simulator/services/geminiService.ts:196-202 | the opponent loop computes the largest opponent score on the board, -1 if there are none |
| Equity.SimulateOnce | texas-hold-em-simulator/services/geminiService.ts:183-205 | one iteration of the loop (shuffle, complete the board, compare) computes the specified outcome |
| Equity.SimulateEquity | texas-hold-em-simulator/services/geminiService.ts:171-209 | the simulation loop's win and split counters are the tally of the iterations' outcomes |
| Equity.CountIteration | texas-hold-em-simulator/services/geminiService.ts:181-206 | one pass extends the tally of the iterations so far by the next one |
| Equity.Tick | texas-hold-em-simulator/services/geminiService.ts:204-205 | a win adds one to the wins, a split one to the splits, a loss nothing |
| Equity.Unknown | texas-hold-em-simulator/services/geminiService.ts:176-179 | the fresh deck filtered by the known ids is the unknown deck |
| Showdown.NatToStringInjective | texas-hold-em-simulator/services/geminiService.ts:243 | different seat numbers print differently |
| Showdown.LabelsDistinct | texas-hold-em-simulator/services/geminiService.ts:240-253 | opponent labels start with "Opponent" and never equal "Player" or "Split", and two seats share a label only if they are the same seat |
| Showdown.BestOpponent | texas-hold-em-simulator/services/geminiService.ts:226-234 | the scan keeps the maximum score and the first seat that reached it; the seat is -1 exactly when the maximum is -1, which, since every score is at least 0 (`ScoreOrder.EvaluateNonNegative`), happens only when there are no opponents |
| Showdown.WinnerOf | texas-hold-em-simulator/services/geminiService.ts:239-256 | the winner label from the player's score and the best opponent's; `Showdown.WinnerMeaning` states it in terms of all scores |
| Showdown.Commentary | texas-hold-em-simulator/services/geminiService.ts:274-283 | the commentary chosen by winner and preflop equity; `Showdown.CommentaryMeaning` states every branch |
| Showdown.StreetEquities | texas-hold-em-simulator/services/geminiService.ts:258-295 | the rounded street equities and the river's 100/50/0; `Showdown.EquitiesInRange` bounds them |
| Showdown.WinnerMeaning | texas-hold-em-simulator/services/geminiService.ts:239-256 | "Player" exactly when every opponent scores less, "Split" exactly when none scores more and one ties, and otherwise the label of the first seat with the top score, which beats the player |
| Showdown.AnalysisOf | texas-hold-em-simulator/services/geminiService.ts:213-298 | every equity of the analysis is a percentage, and the flop and turn equities are 0 when the board has not reached them (the river shows 100, 50 or 0 by the winner on any board) |
| Showdown.StreetTallies | texas-hold-em-simulator/services/geminiService.ts:259-268 | each street's tally counts at most 800 iterations, and a street not reached counts nothing |
| Showdown.RiverEquityMeaning | texas-hold-em-simulator/services/geminiService.ts:271 | the river equity is 100 exactly when the player outscores everyone and 0 exactly when someone outscores the player |
| Showdown.AnalysisWinner | texas-hold-em-simulator/services/geminiService.ts:221-256 | the analysis names the player, a split or an opponent as the real scores of the hands on the board decide, and its river equity agrees |
| Showdown.WinnerShown | texas-hold-em-simulator/services/geminiService.ts:239-271 | the winner and river equity agree with the player's score against the opponents' scores |
| Showdown.EquitiesInRange | texas-hold-em-simulator/services/geminiService.ts:290-295 | the rounded equities are percentages, 0 for the flop and turn when not reached |
| Showdown.CommentaryMeaning | texas-hold-em-simulator/services/geminiService.ts:274-283 | a player's win is called "Amazing" exactly when the preflop equity was below a fair share; otherwise "Dominant" when it was above 70% and "Well played" with the player's hand otherwise; an opponent's win names that seat and the winning hand; a split is called a split |
| Showdown.EvaluateAll | texas-hold-em-simulator/services/geminiService.ts:224 | the loop evaluates each opponent's hand with the board |
| Showdown.FindBestOpponent | texas-hold-em-simulator/services/geminiService.ts:226-234 | the scan keeping the first strictly larger score computes the best opponent |
| Showdown.AnalyzeGame | texas-hold-em-simulator/services/geminiService.ts:213-298 | the analysis, computed step by step, is the specified analysis of the deal |
| Showdown.DecideWinner | texas-hold-em-simulator/services/geminiService.ts:239-256 | the winner and the winning hand's description chosen from the scan |
| Showdown.SimulateStreets | texas-hold-em-simulator/services/geminiService.ts:259-268 | each street is simulated only on the board cards out at that street, and only if the board reached it |
| Showdown.SimulateStreet | texas-hold-em-simulator/services/geminiService.ts:263-268 | one street's simulation on its first 3 or 4 board cards, or an empty tally |
| Game.OfRankFullDeck | texas-hold-em-simulator/App.tsx:61 | in a fresh deck the four cards of a rank come spade, heart, diamond, club |
| Game.PlayerDeal | texas-hold-em-simulator/App.tsx:47-72 | the player gets two cards and the deck keeps 50; together they are the full deck, with no card twice |
| Game.NormalPartition | texas-hold-em-simulator/App.tsx:67-71 | popping two cards off a shuffled full deck leaves 50, with no card lost or doubled |
| Game.StrongDeal | texas-hold-em-simulator/App.tsx:50-62 | a strong deal is the spade and heart of a rank from Ten to Ace |
| Game.StrongPartition | texas-hold-em-simulator/App.tsx:61-66 | taking the strong pair from a fresh deck leaves its other 50 cards |
| Game.DealOpponents | texas-hold-em-simulator/App.tsx:76-82 | one two-card hand per opponent, dealt from what the previous deals left; the hands and the deck left come out of the deck, and each deal costs at most three cards |
| Game.DealNext | texas-hold-em-simulator/App.tsx:78-81 | one more opponent's deal adds a two-card hand, keeps the hands and the deck left inside the original deck, and costs at most three cards |
| Game.Advance | texas-hold-em-simulator/App.tsx:105-132 | the bet/check step per stage: three cards for the flop, one for the turn and river, none at the river; `Game.AdvanceMovesCards` states what moves |
| Game.AdvanceMovesCards | texas-hold-em-simulator/App.tsx:105-132 | betting or checking moves the stage one street on and moves the top cards of the deck onto the end of the board, losing none |
| Game.FillBoard | texas-hold-em-simulator/App.tsx:142-145 | the run-out never shortens the board nor lengthens the deck, and keeps the total number of cards |
| Game.FillBoardFacts | texas-hold-em-simulator/App.tsx:139-148 | the run-out keeps the board already out, takes the top cards of the deck, loses none, and stops at five cards unless the deck runs dry |
| Game.DealtOnce | texas-hold-em-simulator/App.tsx:40-88 | after a deal every card is in at most one place |
| Game.NoCardTwice | texas-hold-em-simulator/App.tsx:40-148 | while the table is consistent no card is in the deck and a hand or the board, on the board and in a hand, or in two hands |
| Game.FoldConsistent | texas-hold-em-simulator/App.tsx:99-103 | folding from a betting stage leaves a consistent showdown with enough cards to run out the board |
| Game.AdvanceConsistent | texas-hold-em-simulator/App.tsx:105-132 | every street keeps the table consistent |
| Game.QuitConsistent | texas-hold-em-simulator/App.tsx:90-96 | quitting keeps the table consistent |
| Game.Table.constructor | texas-hold-em-simulator/App.tsx:18-25 | the start state: Idle, one opponent, nothing dealt, no analysis and no error |
| Game.Table.SetNumOpponents | texas-hold-em-simulator/App.tsx:19 | the selector sets the opponent count from 1 to 4 and changes nothing else |
| Game.Table.StartNewGame | texas-hold-em-simulator/App.tsx:40-88 | a new deal: PreFlop, empty board, no analysis or error, the player's deal, then the opponents' deals from the rest, with every card in at most one place |
| Game.Table.HandleAction | texas-hold-em-simulator/App.tsx:98-134 | a fold goes to the showdown and changes no cards; a bet or check advances one street; the hands, opponent count, analysis and error stay |
| Game.Table.StartAnalysis | texas-hold-em-simulator/App.tsx:136-159 | the board is run out to five cards; a successful analysis is the analysis of the final deal and shows the results; a failed one stays at the showdown with the error message |
| Game.Table.QuitGame | texas-hold-em-simulator/App.tsx:90-96 | back to Idle with no hands, no board and no analysis; the deck, the opponent count and the error stay |
| Game.Table.DismissError | texas-hold-em-simulator/App.tsx:421-426 | the error banner's button clears the error and nothing else |
| AnalysisView.IsStageAvailable | texas-hold-em-simulator/components/AnalysisModal.tsx:35-42 | a tab is available exactly when the board has that street's cards: 0, 3, 4 or 5 |
| AnalysisView.InitialTab | texas-hold-em-simulator/components/AnalysisModal.tsx:21 | the first tab shown is always available, and for boards of up to five cards it is the latest available street |
| AnalysisView.VisibleBoard | texas-hold-em-simulator/components/AnalysisModal.tsx:26-33 | a tab shows a prefix of the board of at most that street's length, empty exactly for preflop or an empty board |
| AnalysisView.AvailableTabShowsStreet | texas-hold-em-simulator/components/AnalysisModal.tsx:26-42 | an available tab shows exactly that street's cards |
| AnalysisView.InitialTabShowsBoard | texas-hold-em-simulator/components/AnalysisModal.tsx:21-33 | on a normal board (none, flop, turn or river) the initial tab shows the whole board |
| AnalysisView.ShownEquity | texas-hold-em-simulator/components/AnalysisModal.tsx:45-46 | a tab's equity, or none ("Stage not reached") when the tab is unavailable; `AnalysisView.TabEquityShown` states it |
| AnalysisView.TabEquityShown | texas-hold-em-simulator/components/AnalysisModal.tsx:105-111 | a tab shows a percentage exactly when it is available, and it is that street's equity; the flop and turn tabs hold 0 when not reached |
| AnalysisView.AnalysisTabEquity | texas-hold-em-simulator/components/AnalysisModal.tsx:24-46 | the same for the equities of the analysis of a deal |
| AnalysisView.ResultsView.constructor | texas-hold-em-simulator/components/AnalysisModal.tsx:21-22 | the screen opens on the initial tab, which is available |
| AnalysisView.ResultsView.Click | texas-hold-em-simulator/components/AnalysisModal.tsx:50-55 | clicking an available tab selects it, clicking an unavailable one changes nothing, and the active tab stays available |
| AnalysisView.ResultsView.ShownBoard | texas-hold-em-simulator/components/AnalysisModal.tsx:44 | the board shown is exactly the active street's cards |
| AnalysisView.HeaderText | texas-hold-em-simulator/components/AnalysisModal.tsx:79 | the header for a winner label; `AnalysisView.HeaderMeaning` states it in terms of the scores |
| AnalysisView.HeaderMeaning | texas-hold-em-simulator/components/AnalysisModal.tsx:79 | the header says "You Won!" exactly when the player outscores everyone and "Split Pot" exactly on a tie at the top; otherwise it names the first seat with the top score |
| AnalysisView.FirstBestUnique | texas-hold-em-simulator/services/geminiService.ts:226-234 | only one seat can be the first to hold the top score |
| AnalysisView.IsWinner | texas-hold-em-simulator/components/AnalysisModal.tsx:165-166 | the highlight test: the named winner, or on a split a hand described like the winning hand; `AnalysisView.HighlightOfOutcome` states what it means |
| AnalysisView.HighlightOfOutcome | texas-hold-em-simulator/components/AnalysisModal.tsx:164-166 | no opponent is highlighted when the player wins; when an opponent wins, exactly the first seat with the top score is; when the pot is split, exactly the opponents whose hands are described like the player's are, so every opponent tying the player in score and description is |
| AnalysisView.AnalysisHighlights | texas-hold-em-simulator/components/AnalysisModal.tsx:164-166 | the same for the analysis of a deal |
| AnalysisView.TiedHandsDescribedAlike | texas-hold-em-simulator/components/AnalysisModal.tsx:166 | on a full board an opponent tying the player's score has the player's description, so the split test highlights it |

## Left out

- Randomness: `Math.random()` is replaced by inputs. A shuffle index is `js[i] % (i + 1)`. An opponent deal is an `OpponentDraw`. A strong player deal is a rank index. A simulation gets one shuffle sequence per iteration. The model proves properties for every choice but says nothing about the distribution, such as the 50% strong-hand rate.
- Floating point: scores are integers in hundredths and equities are exact rationals rounded half up. The source's binary floats, which make `x * 0.01` inexact, are not modelled.
- Timers and `async`: `setTimeout` before `startAnalysis` and the 50 ms delay in `analyzeGame` are treated as immediate. A fold or the river moves the stage to Showdown; `Game.Table.StartAnalysis` is the later call. Its `requires stage == Showdown` leaves out a race in the source: if Quit is pressed during the 500 ms (fold) or 1000 ms (river) delay, the pending `startAnalysis` still runs on the old hand and ends at Results.
- The transient `Analyzing` stage that `startAnalysis` sets before the run-out is not modelled as its own step.
- The analysis failing is a boolean input to `Game.Table.StartAnalysis`. With the model's functions it cannot throw, and the source's `console.error` is output only.
- The React rendering is left out: `Card.tsx`, layout, styles, icons, the mobile-landscape check, `getOpponentClasses` and the modal's close buttons (they call `startNewGame` and `quitGame`, which are modelled).
- The `onClose` and `onHome` props of the results screen are the modelled `Game.Table.StartNewGame` and `Game.Table.QuitGame`.
- The last `else` of the winner decision in `analyzeGame` (scores neither above, below nor equal) cannot happen with numeric scores and is not modelled.
- `simulateEquity` with 0 or a non-numeric number of iterations is not modelled. Only the source's call with 800 iterations is.
- HandEvaluator.EvaluateHand: requires at most seven cards, the size of any pool the program builds. Past seven, two suits could reach five, and the order-independent specification would then differ from the source's "last suit to reach five".
- Equity.SimulateEquity: requires |board| ≤ 5 and two cards per hand at most, which every caller in the program meets.
- Game.Table.SetNumOpponents: requires 1 ≤ n ≤ 4, the values of the selector's buttons. The source would also let the setter change the count while a hand is in play; the selector is shown only on the start screen.
- Game.Table.StartNewGame: requires as many opponent draws as opponents and a rank index below 5, the choices the source makes at random.
- AnalysisView.InitialTab: for boards over five cards only availability is stated. The application never shows such a board.
- ScoreOrder.EvaluateOrdersHands: proved for pools of five or more cards. On a board of fewer than three cards with a one- or two-card hand, the evaluator's shapes differ and the key order is not claimed.
