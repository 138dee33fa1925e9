/**
 * The card vocabulary of the simulator: ranks, suits, cards, the game stages,
 * and the numeric values the evaluator gives ranks and suits.
 */
module Cards {

  datatype Suit = Hearts | Diamonds | Clubs | Spades

  datatype Rank = Two | Three | Four | Five | Six | Seven | Eight | Nine | Ten | Jack | Queen | King | Ace

  /** A card is its rank and suit; its string id is derived from them (see Id). */
  datatype Card = Card(rank: Rank, suit: Suit)

  datatype GameStage = Idle | PreFlop | Flop | Turn | River | Showdown | Analyzing | Results

  /** The string each rank enumerator stands for. */
  function RankString(r: Rank): string {
    match r
    case Two => "2"   case Three => "3" case Four => "4"  case Five => "5"
    case Six => "6"   case Seven => "7" case Eight => "8" case Nine => "9"
    case Ten => "10"  case Jack => "J"  case Queen => "Q" case King => "K"
    case Ace => "A"
  }

  /** The one-character string each suit enumerator stands for. */
  function SuitChar(s: Suit): char {
    match s
    case Hearts => '♥' case Diamonds => '♦' case Clubs => '♣' case Spades => '♠'
  }

  /** The id the deck gives a card: the rank string followed by the suit symbol. */
  function Id(c: Card): string {
    RankString(c.rank) + [SuitChar(c.suit)]
  }

  lemma IdParts(c: Card)
    ensures |Id(c)| >= 2 && Id(c)[|Id(c)| - 1] == SuitChar(c.suit) && Id(c)[..|Id(c)| - 1] == RankString(c.rank)
  {
    var r := RankString(c.rank);
    assert |r| >= 1 by { match c.rank case _ => }
    SnocParts(r, SuitChar(c.suit));
  }

  lemma SnocParts(r: string, x: char)
    ensures |r + [x]| == |r| + 1 && (r + [x])[|r|] == x && (r + [x])[..|r|] == r
  {
  }

  function RankFromString(s: string): Rank {
    if s == "2" then Two else if s == "3" then Three else if s == "4" then Four
    else if s == "5" then Five else if s == "6" then Six else if s == "7" then Seven
    else if s == "8" then Eight else if s == "9" then Nine else if s == "10" then Ten
    else if s == "J" then Jack else if s == "Q" then Queen else if s == "K" then King
    else Ace
  }

  function SuitFromChar(ch: char): Suit {
    if ch == '♥' then Hearts else if ch == '♦' then Diamonds else if ch == '♣' then Clubs else Spades
  }

  /** Two cards have the same id exactly when they are the same card. */
  lemma IdInjective(a: Card, b: Card)
    ensures Id(a) == Id(b) <==> a == b
  {
    IdParts(a);
    IdParts(b);
    if Id(a) == Id(b) {
      var ia, ib := Id(a), Id(b);
      assert RankFromString(RankString(a.rank)) == a.rank;
      assert RankFromString(RankString(b.rank)) == b.rank;
      assert SuitFromChar(SuitChar(a.suit)) == a.suit;
      assert SuitFromChar(SuitChar(b.suit)) == b.suit;
      assert ia[..|ia| - 1] == ib[..|ib| - 1];
    }
  }

  /** RANK_VALUE: Two is 0, ..., Ace is 12. */
  function RankValue(r: Rank): (v: int)
    ensures 0 <= v <= 12
  {
    match r
    case Two => 0  case Three => 1 case Four => 2  case Five => 3
    case Six => 4  case Seven => 5 case Eight => 6 case Nine => 7
    case Ten => 8  case Jack => 9  case Queen => 10 case King => 11
    case Ace => 12
  }

  /** The rank whose value is v. */
  function RankAt(v: int): (r: Rank)
    requires 0 <= v <= 12
    ensures RankValue(r) == v
  {
    [Two, Three, Four, Five, Six, Seven, Eight, Nine, Ten, Jack, Queen, King, Ace][v]
  }

  lemma RankAtValue(r: Rank)
    ensures RankAt(RankValue(r)) == r
  {
  }

  /** SUIT_VALUE: Clubs 0, Diamonds 1, Hearts 2, Spades 3. */
  function SuitValue(s: Suit): (v: int)
    ensures 0 <= v <= 3
  {
    match s
    case Clubs => 0 case Diamonds => 1 case Hearts => 2 case Spades => 3
  }

  /** The suit whose value is v. */
  function SuitAt(v: int): (s: Suit)
    requires 0 <= v <= 3
    ensures SuitValue(s) == v
  {
    [Clubs, Diamonds, Hearts, Spades][v]
  }

  lemma SuitAtValue(s: Suit)
    ensures SuitAt(SuitValue(s)) == s
  {
  }

  /**
   * getRankName: the rank string of a value, or "undefined" (what the
   * template literal prints when the lookup finds no key) for any other value.
   */
  function RankName(v: int): (name: string)
    ensures name == "undefined" <==> !(0 <= v <= 12)
    ensures forall r :: RankValue(r) == v ==> name == RankString(r)
  {
    RankNameOfValue(v);
    if 0 <= v <= 12 then RankString(RankAt(v)) else "undefined"
  }

  /** The value of a rank leads back to that rank's string. */
  lemma RankNameOfValue(v: int)
    ensures forall r :: RankValue(r) == v ==> 0 <= v <= 12 && RankString(RankAt(v)) == RankString(r)
  {
    forall r | RankValue(r) == v ensures 0 <= v <= 12 && RankString(RankAt(v)) == RankString(r) {
      RankAtValue(r);
    }
  }
}
