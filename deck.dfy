/**
 * Deck primitives: the 52-card deck in its fixed enumeration order, the
 * Fisher–Yates shuffle (Knuth, TAOCP Vol. 2, section 3.4.2, Algorithm P) with
 * its random indices supplied by the caller, removal of cards by id, and the
 * biased dealer of an opponent's two hole cards.
 */
module Deck {
  import opened Wrappers
  import opened Cards

  /** SUITS, in the order the deck is built. */
  const Suits: seq<Suit> := [Spades, Hearts, Diamonds, Clubs]

  /** The position of a suit in Suits. */
  function SuitIndex(s: Suit): (k: nat)
    ensures k < 4 && Suits[k] == s
  {
    match s
    case Spades => 0 case Hearts => 1 case Diamonds => 2 case Clubs => 3
  }

  /** The deck createDeck builds: suit-major, each suit with ranks Two to Ace. */
  function FullDeck(): (d: seq<Card>)
    ensures |d| == 52
  {
    seq(52, i requires 0 <= i < 52 => Card(RankAt(i % 13), Suits[i / 13]))
  }

  /** Where a card sits in the full deck. */
  lemma FullDeckAt(c: Card)
    ensures 13 * SuitIndex(c.suit) + RankValue(c.rank) < 52
    ensures FullDeck()[13 * SuitIndex(c.suit) + RankValue(c.rank)] == c
  {
    var i := 13 * SuitIndex(c.suit) + RankValue(c.rank);
    assert i % 13 == RankValue(c.rank) && i / 13 == SuitIndex(c.suit);
    RankAtValue(c.rank);
  }

  /** Every card is in the full deck. */
  lemma FullDeckComplete(c: Card)
    ensures c in FullDeck()
  {
    FullDeckAt(c);
  }

  /** The full deck holds 52 distinct cards with 52 distinct ids. */
  lemma FullDeckDistinct(i: int, j: int)
    requires 0 <= i < 52 && 0 <= j < 52 && i != j
    ensures FullDeck()[i] != FullDeck()[j]
    ensures Id(FullDeck()[i]) != Id(FullDeck()[j])
  {
    var a, b := FullDeck()[i], FullDeck()[j];
    assert RankValue(a.rank) == i % 13 && SuitIndex(a.suit) == i / 13;
    assert RankValue(b.rank) == j % 13 && SuitIndex(b.suit) == j / 13;
    assert 13 * SuitIndex(a.suit) + RankValue(a.rank) == i;
    assert 13 * SuitIndex(b.suit) + RankValue(b.rank) == j;
    IdInjective(a, b);
  }

  /** createDeck: nested loops pushing every rank of every suit. */
  method CreateDeck() returns (deck: seq<Card>)
    ensures deck == FullDeck()
  {
    deck := [];
    var si := 0;
    while si < 4
      invariant 0 <= si <= 4
      invariant deck == FullDeck()[..13 * si]
    {
      var ri := 0;
      while ri < 13
        invariant 0 <= ri <= 13
        invariant deck == FullDeck()[..13 * si + ri]
      {
        ghost var k := 13 * si + ri;
        assert k % 13 == ri && k / 13 == si;
        deck := deck + [Card(RankAt(ri), Suits[si])];
        ri := ri + 1;
      }
      si := si + 1;
    }
  }

  /** cardToString: the printed text names exactly one card, the one printed. */
  function CardToString(c: Card): (s: string)
    ensures forall d: Card :: Id(d) == s <==> d == c
  {
    IdNamesOne(c);
    RankString(c.rank) + [SuitChar(c.suit)]
  }

  /** No other card has the id of c. */
  lemma IdNamesOne(c: Card)
    ensures forall d: Card :: Id(d) == Id(c) <==> d == c
  {
    forall d: Card ensures Id(d) == Id(c) <==> d == c {
      IdInjective(d, c);
    }
  }

  // ---------------------------------------------------------------------------
  // Fisher–Yates shuffle

  /**
   * The random index of step i: Math.floor(Math.random() * (i + 1)) is some
   * j in [0, i]; the caller supplies it as js[i], read modulo i + 1.
   */
  function Draw(js: seq<nat>, i: nat): (j: nat)
    requires i < |js|
    ensures j <= i
  {
    js[i] % (i + 1)
  }

  function Swap<T>(s: seq<T>, i: nat, j: nat): seq<T>
    requires i < |s| && j < |s|
  {
    s[i := s[j]][j := s[i]]
  }

  lemma SwapPermutes<T>(s: seq<T>, i: nat, j: nat)
    requires i < |s| && j < |s|
    ensures |Swap(s, i, j)| == |s| && multiset(Swap(s, i, j)) == multiset(s)
  {
    var t := s[i := s[j]];
    assert multiset(t) == multiset(s) - multiset{s[i]} + multiset{s[j]};
  }

  /** The shuffle from step i down to step 1, the loop's remaining work. */
  function FisherYatesFrom<T>(s: seq<T>, js: seq<nat>, i: int): (r: seq<T>)
    requires i < |s| <= |js|
    ensures |r| == |s|
    decreases i
  {
    if i <= 0 then s
    else
      SwapPermutes(s, i, Draw(js, i));
      FisherYatesFrom(Swap(s, i, Draw(js, i)), js, i - 1)
  }

  /** Each swap permutes, so the shuffle does. */
  lemma {:induction false} FisherYatesPermutes<T>(s: seq<T>, js: seq<nat>, i: int)
    requires i < |s| <= |js|
    ensures multiset(FisherYatesFrom(s, js, i)) == multiset(s)
    decreases i
  {
    if i > 0 {
      SwapPermutes(s, i, Draw(js, i));
      FisherYatesPermutes(Swap(s, i, Draw(js, i)), js, i - 1);
    }
  }

  /** One swap of the shuffle leaves the rest of the work to the next step. */
  lemma FisherYatesStep<T>(before: seq<T>, after: seq<T>, js: seq<nat>, i: nat, j: nat)
    requires 0 < i < |before| <= |js| && j == js[i] % (i + 1) && after == Swap(before, i, j)
    ensures FisherYatesFrom(after, js, i - 1) == FisherYatesFrom(before, js, i)
  {
    assert j == Draw(js, i);
  }

  /** The deck shuffleDeck returns for the random indices js. */
  function FisherYates<T>(s: seq<T>, js: seq<nat>): (r: seq<T>)
    requires |s| <= |js|
    ensures |r| == |s| && multiset(r) == multiset(s)
  {
    FisherYatesPermutes(s, js, |s| - 1);
    FisherYatesFrom(s, js, |s| - 1)
  }

  /**
   * shuffleDeck: copies the deck into a fresh array and swaps position i with
   * a position j <= i, for i from the last position down to 1. The input is a
   * value and is left as it was.
   */
  method ShuffleDeck<T(0)>(deck: seq<T>, js: seq<nat>) returns (shuffled: seq<T>)
    requires |deck| <= |js|
    ensures shuffled == FisherYates(deck, js)
    ensures |shuffled| == |deck| && multiset(shuffled) == multiset(deck)
  {
    var a := new T[|deck|](k requires 0 <= k < |deck| => deck[k]);
    assert a[..] == deck;
    ShuffleInPlace(a, js);
    shuffled := a[..];
  }

  /** The loop of shuffleDeck, on the copied array. */
  method ShuffleInPlace<T>(a: array<T>, js: seq<nat>)
    requires a.Length <= |js|
    modifies a
    ensures a[..] == FisherYates(old(a[..]), js)
  {
    ghost var goal := FisherYatesFrom(a[..], js, a.Length - 1);
    var i := a.Length - 1;
    while i > 0
      invariant -1 <= i < a.Length
      invariant a.Length > 0 ==> i >= 0
      invariant FisherYatesFrom(a[..], js, i) == goal
    {
      ShuffleStep(a, js, i);
      i := i - 1;
    }
  }

  /** Step i of the shuffle: swap position i with the position its random index picks. */
  method ShuffleStep<T>(a: array<T>, js: seq<nat>, i: nat)
    requires 0 < i < a.Length <= |js|
    modifies a
    ensures FisherYatesFrom(a[..], js, i - 1) == FisherYatesFrom(old(a[..]), js, i)
  {
    var j := js[i] % (i + 1);
    a[i], a[j] := a[j], a[i];
    FisherYatesStep(old(a[..]), a[..], js, i, j);
  }

  // ---------------------------------------------------------------------------
  // Removal by id

  /** The ids of some cards (the Set built from cardsToRemove). */
  function Ids(cards: seq<Card>): set<string> {
    set c | c in cards :: Id(c)
  }

  /** A card's id is among the ids of some cards exactly when it is one of them. */
  lemma InIds(c: Card, cards: seq<Card>)
    ensures Id(c) in Ids(cards) <==> c in cards
  {
    if Id(c) in Ids(cards) {
      var d :| d in cards && Id(d) == Id(c);
      IdInjective(c, d);
    }
  }

  /** deck.filter(c => !ids.has(c.id)). */
  function FilterIds(deck: seq<Card>, ids: set<string>): (r: seq<Card>)
    ensures |r| <= |deck|
  {
    if deck == [] then []
    else if Id(deck[0]) in ids then FilterIds(deck[1..], ids)
    else [deck[0]] + FilterIds(deck[1..], ids)
  }

  lemma {:induction false} FilterIdsCount(deck: seq<Card>, ids: set<string>, c: Card)
    ensures multiset(FilterIds(deck, ids))[c] == if Id(c) in ids then 0 else multiset(deck)[c]
  {
    if deck != [] {
      FilterIdsCount(deck[1..], ids, c);
      var rest := FilterIds(deck[1..], ids);
      assert multiset(deck) == multiset{deck[0]} + multiset(deck[1..]) by {
        assert deck == [deck[0]] + deck[1..];
      }
      if Id(deck[0]) in ids {
        assert FilterIds(deck, ids) == rest;
      } else {
        assert multiset(FilterIds(deck, ids)) == multiset{deck[0]} + multiset(rest);
        assert Id(c) in ids ==> deck[0] != c;
      }
    }
  }

  lemma {:induction false} FilterIdsAppend(a: seq<Card>, b: seq<Card>, ids: set<string>)
    ensures FilterIds(a + b, ids) == FilterIds(a, ids) + FilterIds(b, ids)
  {
    if a == [] {
      assert a + b == b;
    } else {
      assert (a + b)[0] == a[0];
      assert (a + b)[1..] == a[1..] + b;
      FilterIdsAppend(a[1..], b, ids);
    }
  }

  /**
   * removeCardsFromDeck: the cards of the deck whose id is not among the ids
   * of the cards to remove, in their order in the deck.
   */
  function RemoveCards(deck: seq<Card>, toRemove: seq<Card>): (r: seq<Card>)
    ensures |r| <= |deck|
  {
    FilterIds(deck, Ids(toRemove))
  }

  /** A removed card is gone entirely; every other card keeps its multiplicity. */
  lemma RemoveCardsCount(deck: seq<Card>, toRemove: seq<Card>, c: Card)
    ensures multiset(RemoveCards(deck, toRemove))[c] == if c in toRemove then 0 else multiset(deck)[c]
  {
    FilterIdsCount(deck, Ids(toRemove), c);
    InIds(c, toRemove);
  }

  /** The cards left are exactly the deck's cards that were not to be removed. */
  lemma RemoveCardsContents(deck: seq<Card>, toRemove: seq<Card>)
    ensures forall c :: c in RemoveCards(deck, toRemove) <==> c in deck && c !in toRemove
  {
    forall c ensures c in RemoveCards(deck, toRemove) <==> c in deck && c !in toRemove {
      RemoveCardsCount(deck, toRemove, c);
    }
  }

  /** Removal keeps order: it works piecewise on a split deck. */
  lemma RemoveCardsAppend(a: seq<Card>, b: seq<Card>, toRemove: seq<Card>)
    ensures RemoveCards(a + b, toRemove) == RemoveCards(a, toRemove) + RemoveCards(b, toRemove)
  {
    FilterIdsAppend(a, b, Ids(toRemove));
  }

  lemma {:induction false} FilterIdsNoHit(deck: seq<Card>, ids: set<string>)
    requires forall c :: c in deck ==> Id(c) !in ids
    ensures FilterIds(deck, ids) == deck
  {
    if deck != [] {
      FilterIdsNoHit(deck[1..], ids);
      assert deck == [deck[0]] + deck[1..];
    }
  }

  /** Removing cards that are not in the deck changes nothing. */
  lemma RemoveAbsent(deck: seq<Card>, toRemove: seq<Card>)
    requires forall c :: c in toRemove ==> c !in deck
    ensures RemoveCards(deck, toRemove) == deck
  {
    forall c | c in deck ensures Id(c) !in Ids(toRemove) {
      InIds(c, toRemove);
    }
    FilterIdsNoHit(deck, Ids(toRemove));
  }

  /** Removing the same cards twice is removing them once. */
  lemma RemoveIdempotent(deck: seq<Card>, toRemove: seq<Card>)
    ensures RemoveCards(RemoveCards(deck, toRemove), toRemove) == RemoveCards(deck, toRemove)
  {
    RemoveCardsContents(deck, toRemove);
    RemoveAbsent(RemoveCards(deck, toRemove), toRemove);
  }

  // ---------------------------------------------------------------------------
  // Subsequences

  /** The entries of b whose mask bit is set, in order. */
  function Select<T>(b: seq<T>, mask: seq<bool>): (r: seq<T>)
    requires |mask| == |b|
    ensures |r| <= |b|
  {
    if b == [] then []
    else (if mask[0] then [b[0]] else []) + Select(b[1..], mask[1..])
  }

  /** a is b with some of its entries deleted, the rest in order. */
  ghost predicate IsSubsequence<T>(a: seq<T>, b: seq<T>) {
    exists mask: seq<bool> :: |mask| == |b| && Select(b, mask) == a
  }

  /** The mask of the entries b's selection keeps, and the mask m2 keeps of those. */
  function Compose(m1: seq<bool>, m2: seq<bool>): (m: seq<bool>)
    ensures |m| == |m1|
  {
    if m1 == [] then []
    else if m1[0] then [m2 != [] && m2[0]] + Compose(m1[1..], if m2 == [] then [] else m2[1..])
    else [false] + Compose(m1[1..], m2)
  }

  lemma {:induction false} SelectCompose<T>(c: seq<T>, m1: seq<bool>, m2: seq<bool>)
    requires |m1| == |c| && |m2| == |Select(c, m1)|
    ensures Select(Select(c, m1), m2) == Select(c, Compose(m1, m2))
  {
    if c != [] {
      var b := Select(c, m1);
      if m1[0] {
        assert b == [c[0]] + Select(c[1..], m1[1..]);
        assert b[1..] == Select(c[1..], m1[1..]);
        SelectCompose(c[1..], m1[1..], m2[1..]);
      } else {
        assert b == Select(c[1..], m1[1..]);
        SelectCompose(c[1..], m1[1..], m2);
        assert Compose(m1, m2) == [false] + Compose(m1[1..], m2);
      }
    }
  }

  lemma SubsequenceTransitive<T>(a: seq<T>, b: seq<T>, c: seq<T>)
    requires IsSubsequence(a, b) && IsSubsequence(b, c)
    ensures IsSubsequence(a, c)
  {
    var m2 :| |m2| == |b| && Select(b, m2) == a;
    var m1 :| |m1| == |c| && Select(c, m1) == b;
    SelectCompose(c, m1, m2);
  }

  /** The mask that keeps the first n of len entries. */
  function PrefixMask(len: nat, n: nat): (m: seq<bool>)
    ensures |m| == len
  {
    if len == 0 then [] else [n > 0] + PrefixMask(len - 1, if n == 0 then 0 else n - 1)
  }

  lemma {:induction false} SelectPrefix<T>(a: seq<T>, n: nat)
    requires n <= |a|
    ensures Select(a, PrefixMask(|a|, n)) == a[..n]
  {
    if a != [] {
      var k: nat := if n == 0 then 0 else n - 1;
      SelectPrefix(a[1..], k);
      assert PrefixMask(|a|, n)[1..] == PrefixMask(|a| - 1, k);
      if n > 0 {
        assert a[..n] == [a[0]] + a[1..][..k];
      }
    }
  }

  lemma SubsequenceRefl<T>(a: seq<T>)
    ensures IsSubsequence(a, a)
  {
    SelectPrefix(a, |a|);
  }

  lemma PrefixSubsequence<T>(a: seq<T>, n: nat)
    requires n <= |a|
    ensures IsSubsequence(a[..n], a)
  {
    SelectPrefix(a, n);
  }

  /** The mask that keeps the cards whose id is not in ids. */
  function KeepMask(deck: seq<Card>, ids: set<string>): (m: seq<bool>)
    ensures |m| == |deck|
  {
    if deck == [] then [] else [Id(deck[0]) !in ids] + KeepMask(deck[1..], ids)
  }

  lemma {:induction false} FilterIdsSelect(deck: seq<Card>, ids: set<string>)
    ensures FilterIds(deck, ids) == Select(deck, KeepMask(deck, ids))
  {
    if deck != [] {
      FilterIdsSelect(deck[1..], ids);
      assert KeepMask(deck, ids)[1..] == KeepMask(deck[1..], ids);
    }
  }

  /** What removeCardsFromDeck returns is a subsequence of the deck. */
  lemma RemoveCardsSubsequence(deck: seq<Card>, toRemove: seq<Card>)
    ensures IsSubsequence(RemoveCards(deck, toRemove), deck)
  {
    FilterIdsSelect(deck, Ids(toRemove));
  }

  // ---------------------------------------------------------------------------
  // The opponent dealer

  /** The strong starting hands the dealer aims for: AA, AK, QQ and 9-10 suited. */
  datatype StrongKind = PairOfAces | AceKing | PairOfQueens | NineTenSuited

  /** The random choices of one deal: whether to aim for a strong hand, and which one. */
  datatype OpponentDraw = OpponentDraw(isStrong: bool, kind: StrongKind)

  /** The rank searched for first, and the rank of its partner, for AA, AK and QQ. */
  function FirstRank(k: StrongKind): Rank {
    match k
    case PairOfAces => Ace case AceKing => Ace case PairOfQueens => Queen case NineTenSuited => Ten
  }

  function SecondRank(k: StrongKind): Rank {
    match k
    case PairOfAces => Ace case AceKing => King case PairOfQueens => Queen case NineTenSuited => Nine
  }

  /** findCard's test: the rank, and the suit when one is given. */
  predicate Matches(c: Card, r: Rank, s: Option<Suit>) {
    c.rank == r && (s.None? || c.suit == s.value)
  }

  /** The position of the first matching card, or -1 (Array.prototype.findIndex). */
  function FindIndex(deck: seq<Card>, r: Rank, s: Option<Suit>): (i: int)
    ensures -1 <= i < |deck|
    ensures i >= 0 ==> Matches(deck[i], r, s)
    ensures forall k :: 0 <= k < |deck| && (i < 0 || k < i) ==> !Matches(deck[k], r, s)
  {
    if deck == [] then -1
    else if Matches(deck[0], r, s) then 0
    else
      var i := FindIndex(deck[1..], r, s);
      if i < 0 then -1 else i + 1
  }

  /** findCard: the first card of the deck that matches, if any. */
  function FindCard(deck: seq<Card>, r: Rank, s: Option<Suit>): Option<Card> {
    var i := FindIndex(deck, r, s);
    if i < 0 then None else Some(deck[i])
  }

  /** Two pops from the end of a deck: the hand [last, second to last] and what is left. */
  function PopTwo(d: seq<Card>): (seq<Card>, seq<Card>)
    requires |d| >= 2
  {
    ([d[|d| - 1], d[|d| - 2]], d[..|d| - 2])
  }

  /**
   * The strong hand the targeted search completes, if it does. For AA, AK and
   * QQ: the first card of the first rank, then the first card of the second
   * rank once that card is out. For 9-10 suited: the first Ten only, with the
   * first Nine of that Ten's suit.
   */
  function TargetCards(deck: seq<Card>, kind: StrongKind): Option<seq<Card>> {
    if kind.NineTenSuited? then
      var ten := FindCard(deck, Ten, None);
      if ten.None? then None
      else
        var nine := FindCard(deck, Nine, Some(ten.value.suit));
        if nine.None? then None else Some([ten.value, nine.value])
    else
      var first := FindCard(deck, FirstRank(kind), None);
      if first.None? then None
      else
        var second := FindCard(RemoveCards(deck, [first.value]), SecondRank(kind), None);
        if second.None? then None else Some([first.value, second.value])
  }

  /** The deck a failed search leaves: without the first card, when AA, AK or QQ found one. */
  function SearchLeftover(deck: seq<Card>, kind: StrongKind): seq<Card> {
    var first := FindCard(deck, FirstRank(kind), None);
    if !kind.NineTenSuited? && first.Some? then RemoveCards(deck, [first.value]) else deck
  }

  /**
   * AA, AK or QQ: the first card is found and taken out of the deck, but its
   * partner is not there, so the fallback pops two more cards.
   */
  predicate StrandsFirstCard(rest: seq<Card>, draw: OpponentDraw) {
    draw.isStrong && !draw.kind.NineTenSuited? &&
    FindCard(rest, FirstRank(draw.kind), None).Some? && TargetCards(rest, draw.kind).None?
  }

  /** Every pop the dealer does finds a card (the `pop()!` assertions hold). */
  predicate EnoughToDeal(rest: seq<Card>, draw: OpponentDraw) {
    if !draw.isStrong then |rest| >= 2
    else TargetCards(rest, draw.kind).Some? || |SearchLeftover(rest, draw.kind)| >= 2
  }

  lemma FindCardIn(deck: seq<Card>, r: Rank, s: Option<Suit>)
    ensures FindCard(deck, r, s).Some? ==> FindCard(deck, r, s).value in deck
    ensures FindCard(deck, r, s).Some? ==> Matches(FindCard(deck, r, s).value, r, s)
  {
  }

  lemma PopTwoFacts(d: seq<Card>)
    requires |d| >= 2
    ensures multiset(PopTwo(d).0) + multiset(PopTwo(d).1) == multiset(d)
    ensures IsSubsequence(PopTwo(d).1, d)
  {
    PopTwoMultiset(d);
    PrefixSubsequence(d, |d| - 2);
  }

  lemma PopTwoMultiset(d: seq<Card>)
    requires |d| >= 2
    ensures multiset(PopTwo(d).0) + multiset(PopTwo(d).1) == multiset(d)
  {
    var n := |d|;
    var p := PopTwo(d);
    assert d == d[..n - 2] + [d[n - 2]] + [d[n - 1]];
    assert p.1 == d[..n - 2];
    assert multiset(p.0) == multiset{d[n - 1], d[n - 2]};
  }

  lemma AtMostOnce(xs: seq<Card>, c: Card)
    requires 1 <= |xs| <= 2 && (|xs| == 2 ==> xs[0] != xs[1])
    ensures multiset(xs)[c] <= 1
  {
    if |xs| == 1 {
      assert xs == [xs[0]];
    } else {
      assert xs == [xs[0]] + [xs[1]];
    }
  }

  /** Taking out one or two distinct cards that are in the deck. */
  lemma RemoveFound(d: seq<Card>, xs: seq<Card>)
    requires 1 <= |xs| <= 2 && (|xs| == 2 ==> xs[0] != xs[1])
    requires forall x :: x in xs ==> x in d
    ensures multiset(RemoveCards(d, xs)) + multiset(xs) <= multiset(d)
    ensures IsSubsequence(RemoveCards(d, xs), d)
    ensures forall x :: x in xs ==> x !in RemoveCards(d, xs)
  {
    RemoveCardsSubsequence(d, xs);
    var r := RemoveCards(d, xs);
    forall c ensures multiset(r)[c] + multiset(xs)[c] <= multiset(d)[c] {
      AtMostOnce(xs, c);
      RemoveCardsCount(d, xs, c);
    }
    RemoveCardsContents(d, xs);
  }

  /** Two `pop()` calls: the last card, then the new last card. */
  method PopPair(d: seq<Card>) returns (hand: seq<Card>, rest: seq<Card>)
    requires |d| >= 2
    ensures (hand, rest) == PopTwo(d)
    ensures multiset(hand) + multiset(rest) == multiset(d)
    ensures IsSubsequence(rest, d)
  {
    PopTwoFacts(d);
    ghost var n := |d|;
    rest := d;
    var c1 := rest[|rest| - 1];
    rest := rest[..|rest| - 1];
    var c2 := rest[|rest| - 1];
    rest := rest[..|rest| - 1];
    hand := [c1, c2];
    assert rest == d[..n - 2];
  }

  lemma {:induction false} FilterIdsTwice(d: seq<Card>, a: set<string>, b: set<string>)
    ensures FilterIds(FilterIds(d, a), b) == FilterIds(d, a + b)
  {
    if d != [] {
      FilterIdsTwice(d[1..], a, b);
      var r := FilterIds(d[1..], a);
      if Id(d[0]) !in a {
        assert FilterIds(d, a) == [d[0]] + r;
        assert ([d[0]] + r)[1..] == r;
      }
    }
  }

  /** Taking out one card, then another, is taking out both. */
  lemma RemoveTwice(d: seq<Card>, x: Card, y: Card)
    ensures RemoveCards(RemoveCards(d, [x]), [y]) == RemoveCards(d, [x, y])
  {
    assert Ids([x]) + Ids([y]) == Ids([x, y]);
    FilterIdsTwice(d, Ids([x]), Ids([y]));
  }

  lemma TwoStepInclusion(d: seq<Card>, d1: seq<Card>, d2: seq<Card>, x: Card, y: Card)
    requires multiset(d1) + multiset([x]) <= multiset(d)
    requires multiset(d2) + multiset([y]) <= multiset(d1)
    ensures multiset([x, y]) + multiset(d2) <= multiset(d)
  {
    assert multiset([x, y]) == multiset([x]) + multiset([y]);
  }

  /** What the 9-10 suited search takes comes out of the deck, once, in order. */
  lemma NineTenTargetFacts(deck: seq<Card>)
    ensures var t := TargetCards(deck, NineTenSuited);
      t.Some? ==>
        |t.value| == 2 && multiset(t.value) + multiset(RemoveCards(deck, t.value)) <= multiset(deck) &&
        IsSubsequence(RemoveCards(deck, t.value), deck)
  {
    var ten := FindCard(deck, Ten, None);
    if ten.Some? {
      var nine := FindCard(deck, Nine, Some(ten.value.suit));
      if nine.Some? {
        FindCardIn(deck, Ten, None);
        FindCardIn(deck, Nine, Some(ten.value.suit));
        RemoveFound(deck, [ten.value, nine.value]);
      }
    }
  }

  /** Taking out a card of the deck, then a card of what is left. */
  lemma TwoRemovals(d: seq<Card>, x: Card, y: Card)
    requires x in d && y in RemoveCards(d, [x])
    ensures multiset([x, y]) + multiset(RemoveCards(d, [x, y])) <= multiset(d)
    ensures IsSubsequence(RemoveCards(d, [x, y]), d)
  {
    RemoveFound(d, [x]);
    var d1 := RemoveCards(d, [x]);
    RemoveFound(d1, [y]);
    var d2 := RemoveCards(d1, [y]);
    SubsequenceTransitive(d2, d1, d);
    RemoveTwice(d, x, y);
    TwoStepInclusion(d, d1, d2, x, y);
  }

  /** What the AA, AK or QQ search takes comes out of the deck, once, in order. */
  lemma PairTargetFacts(deck: seq<Card>, kind: StrongKind)
    requires !kind.NineTenSuited?
    ensures var t := TargetCards(deck, kind);
      t.Some? ==>
        |t.value| == 2 && multiset(t.value) + multiset(RemoveCards(deck, t.value)) <= multiset(deck) &&
        IsSubsequence(RemoveCards(deck, t.value), deck)
  {
    var first := FindCard(deck, FirstRank(kind), None);
    if first.Some? {
      FindCardIn(deck, FirstRank(kind), None);
      var afterFirst := RemoveCards(deck, [first.value]);
      var second := FindCard(afterFirst, SecondRank(kind), None);
      if second.Some? {
        FindCardIn(afterFirst, SecondRank(kind), None);
        TwoRemovals(deck, first.value, second.value);
        assert TargetCards(deck, kind) == Some([first.value, second.value]);
      } else {
        assert TargetCards(deck, kind).None?;
      }
    } else {
      assert TargetCards(deck, kind).None?;
    }
  }

  /** A failed search leaves a subsequence of the deck. */
  lemma LeftoverFacts(deck: seq<Card>, kind: StrongKind)
    ensures multiset(SearchLeftover(deck, kind)) <= multiset(deck)
    ensures IsSubsequence(SearchLeftover(deck, kind), deck)
  {
    var first := FindCard(deck, FirstRank(kind), None);
    if !kind.NineTenSuited? && first.Some? {
      FindCardIn(deck, FirstRank(kind), None);
      RemoveFound(deck, [first.value]);
    } else {
      SubsequenceRefl(deck);
    }
  }

  /** The search for 9-10 suited: the first Ten, then a Nine of its suit. */
  method SearchNineTen(deck: seq<Card>) returns (hand: seq<Card>, rest: seq<Card>)
    ensures TargetCards(deck, NineTenSuited).Some? ==>
      hand == TargetCards(deck, NineTenSuited).value && rest == RemoveCards(deck, hand)
    ensures TargetCards(deck, NineTenSuited).None? ==> hand == [] && rest == deck
  {
    hand, rest := [], deck;
    var ten := FindCard(rest, Ten, None);
    if ten.Some? {
      var nine := FindCard(rest, Nine, Some(ten.value.suit));
      if nine.Some? {
        rest := RemoveCards(rest, [ten.value, nine.value]);
        hand := [ten.value, nine.value];
      }
    }
  }

  /** The search for AA, AK or QQ: the first card of one rank, then one of the other. */
  method SearchPair(deck: seq<Card>, kind: StrongKind) returns (hand: seq<Card>, rest: seq<Card>)
    requires !kind.NineTenSuited?
    ensures TargetCards(deck, kind).Some? ==> hand == TargetCards(deck, kind).value && rest == RemoveCards(deck, hand)
    ensures TargetCards(deck, kind).None? ==> hand == [] && rest == SearchLeftover(deck, kind)
  {
    hand, rest := [], deck;
    var first := FindCard(rest, FirstRank(kind), None);
    if first.Some? {
      rest := RemoveCards(rest, [first.value]);
      var second := FindCard(rest, SecondRank(kind), None);
      if second.Some? {
        rest := RemoveCards(rest, [second.value]);
        hand := [first.value, second.value];
        RemoveTwice(deck, first.value, second.value);
      }
    }
  }

  /**
   * The targeted search of the strong branch. It returns the strong hand and
   * the deck without its cards, or an empty hand and the deck with whatever the
   * search already took out.
   */
  method SearchStrong(deck: seq<Card>, kind: StrongKind) returns (hand: seq<Card>, rest: seq<Card>)
    ensures TargetCards(deck, kind).Some? ==> hand == TargetCards(deck, kind).value && rest == RemoveCards(deck, hand)
    ensures TargetCards(deck, kind).None? ==> hand == [] && rest == SearchLeftover(deck, kind)
  {
    if kind.NineTenSuited? {
      hand, rest := SearchNineTen(deck);
    } else {
      hand, rest := SearchPair(deck, kind);
    }
  }

  /**
   * The hand an opponent is dealt from `rest` (the deck without the player's
   * cards), and the deck left after it.
   */
  function Deal(rest: seq<Card>, draw: OpponentDraw): (seq<Card>, seq<Card>)
    requires EnoughToDeal(rest, draw)
  {
    if !draw.isStrong then PopTwo(rest)
    else
      var t := TargetCards(rest, draw.kind);
      if t.Some? then (t.value, RemoveCards(rest, t.value)) else PopTwo(SearchLeftover(rest, draw.kind))
  }

  /** Every hand dealt has two cards, and they and the cards left all come out of the deck. */
  lemma DealTakesFromDeck(rest: seq<Card>, draw: OpponentDraw)
    requires EnoughToDeal(rest, draw)
    ensures |Deal(rest, draw).0| == 2
    ensures multiset(Deal(rest, draw).0) + multiset(Deal(rest, draw).1) <= multiset(rest)
    ensures IsSubsequence(Deal(rest, draw).1, rest)
  {
    if !draw.isStrong {
      PopTwoFacts(rest);
    } else if TargetCards(rest, draw.kind).Some? {
      if draw.kind.NineTenSuited? {
        NineTenTargetFacts(rest);
      } else {
        PairTargetFacts(rest, draw.kind);
      }
    } else {
      var left := SearchLeftover(rest, draw.kind);
      LeftoverFacts(rest, draw.kind);
      PopTwoFacts(left);
      SubsequenceTransitive(PopTwo(left).1, left, rest);
    }
  }

  /**
   * When the search finds an Ace or Queen but not its partner, that first card
   * is in neither the fallback hand nor the deck left: it is lost for the game.
   */
  lemma StrandedCardLost(rest: seq<Card>, draw: OpponentDraw)
    requires EnoughToDeal(rest, draw) && StrandsFirstCard(rest, draw)
    ensures var first := FindCard(rest, FirstRank(draw.kind), None).value;
      first in rest && first !in Deal(rest, draw).0 && first !in Deal(rest, draw).1
  {
    var first := FindCard(rest, FirstRank(draw.kind), None).value;
    FindCardIn(rest, FirstRank(draw.kind), None);
    RemoveFound(rest, [first]);
    var left := SearchLeftover(rest, draw.kind);
    assert first !in left;
    PopTwoMultiset(left);
    assert multiset(left)[first] == 0;
  }

  /** generateOpponentHand, over the deck it is given and the player's hole cards. */
  function OpponentHand(deck: seq<Card>, playerHand: seq<Card>, draw: OpponentDraw): (seq<Card>, seq<Card>)
    requires EnoughToDeal(RemoveCards(deck, playerHand), draw)
  {
    Deal(RemoveCards(deck, playerHand), draw)
  }

  /**
   * The opponent's hand and the deck left are disjoint parts of the deck
   * without the player's cards; the deck left keeps the order of the deck.
   */
  lemma OpponentHandFromDeck(deck: seq<Card>, playerHand: seq<Card>, draw: OpponentDraw)
    requires EnoughToDeal(RemoveCards(deck, playerHand), draw)
    ensures var (hand, left) := OpponentHand(deck, playerHand, draw);
      |hand| == 2 && multiset(hand) + multiset(left) <= multiset(RemoveCards(deck, playerHand)) &&
      IsSubsequence(left, deck) && forall c :: c in left ==> c in deck && c !in playerHand
  {
    var rest := RemoveCards(deck, playerHand);
    DealTakesFromDeck(rest, draw);
    RemoveCardsSubsequence(deck, playerHand);
    RemoveCardsContents(deck, playerHand);
    var (hand, left) := Deal(rest, draw);
    PartOfPart(hand, left, rest, deck, playerHand);
  }

  lemma PartOfPart(hand: seq<Card>, left: seq<Card>, rest: seq<Card>, deck: seq<Card>, playerHand: seq<Card>)
    requires multiset(hand) + multiset(left) <= multiset(rest)
    requires IsSubsequence(left, rest) && IsSubsequence(rest, deck)
    requires forall c :: c in rest <==> c in deck && c !in playerHand
    ensures IsSubsequence(left, deck) && forall c :: c in left ==> c in deck && c !in playerHand
  {
    SubsequenceTransitive(left, rest, deck);
    forall c | c in left ensures c in rest {
      assert c in multiset(left);
      assert c in multiset(rest);
    }
  }

  /**
   * generateOpponentHand: draws an opponent's two hole cards from the deck
   * without the player's cards. Without the strong bias it pops the last two
   * cards. With it, it searches the deck for the chosen strong hand and takes
   * its cards out; when the hand cannot be completed it falls back to popping
   * the last two cards, and an Ace or Queen already taken out stays out.
   */
  method GenerateOpponentHand(deck: seq<Card>, playerHand: seq<Card>, draw: OpponentDraw)
      returns (hand: seq<Card>, remainingDeck: seq<Card>)
    requires EnoughToDeal(RemoveCards(deck, playerHand), draw)
    ensures (hand, remainingDeck) == OpponentHand(deck, playerHand, draw)
  {
    remainingDeck := RemoveCards(deck, playerHand);
    if !draw.isStrong {
      hand, remainingDeck := PopPair(remainingDeck);
    } else {
      hand, remainingDeck := SearchStrong(remainingDeck, draw.kind);
      if |hand| < 2 {
        hand, remainingDeck := PopPair(remainingDeck);
      }
    }
  }

  // ---------------------------------------------------------------------------
  // Deck sizes
  // ---------------------------------------------------------------------------

  /** No card occurs twice. */
  ghost predicate NoRepeats(d: seq<Card>) {
    forall c :: multiset(d)[c] <= 1
  }

  lemma {:induction false} PairwiseDistinctNoRepeats(s: seq<Card>)
    requires forall i, j :: 0 <= i < j < |s| ==> s[i] != s[j]
    ensures NoRepeats(s)
  {
    if s != [] {
      var init := s[..|s| - 1];
      PairwiseDistinctNoRepeats(init);
      assert s == init + [s[|s| - 1]];
      assert s[|s| - 1] !in init;
    }
  }

  /** The full deck holds every card exactly once. */
  lemma FullDeckOnce(c: Card)
    ensures multiset(FullDeck())[c] == 1
  {
    forall i, j | 0 <= i < j < 52 ensures FullDeck()[i] != FullDeck()[j] {
      FullDeckDistinct(i, j);
    }
    PairwiseDistinctNoRepeats(FullDeck());
    FullDeckComplete(c);
  }

  /** On a deck without repeats, removing the cards of a list removes at most that many cards. */
  lemma RemoveSize(d: seq<Card>, t: seq<Card>)
    requires NoRepeats(d)
    ensures |RemoveCards(d, t)| >= |d| - |t|
  {
    var r := RemoveCards(d, t);
    forall c ensures multiset(d)[c] <= (multiset(r) + multiset(t))[c] {
      RemoveCardsCount(d, t, c);
    }
    assert multiset(d) <= multiset(r) + multiset(t);
    MultisetSizeMono(multiset(d), multiset(r) + multiset(t));
  }

  lemma MultisetSizeMono(a: multiset<Card>, b: multiset<Card>)
    requires a <= b
    ensures |a| <= |b|
  {
    assert b == a + (b - a);
  }

  /**
   * On a deck of at least three cards without repeats the dealer always
   * completes a hand, and the deck it leaves has lost at most three cards.
   */
  lemma DealLeavesEnough(rest: seq<Card>, draw: OpponentDraw)
    requires NoRepeats(rest) && |rest| >= 3
    ensures EnoughToDeal(rest, draw)
    ensures |Deal(rest, draw).1| >= |rest| - 3
  {
    if draw.isStrong {
      var first := FindCard(rest, FirstRank(draw.kind), None);
      if !draw.kind.NineTenSuited? && first.Some? {
        RemoveSize(rest, [first.value]);
      }
      var t := TargetCards(rest, draw.kind);
      if t.Some? {
        if draw.kind.NineTenSuited? {
          NineTenTargetFacts(rest);
        } else {
          PairTargetFacts(rest, draw.kind);
        }
        RemoveSize(rest, t.value);
      }
    }
  }
}
