/**
 * What the evaluator's score promises: comparing scores compares hands.
 *
 * For the classification of any pool of five to seven cards, one score is
 * below another exactly when its key (hand type, then main ranks, then
 * kickers) is lexicographically below the other's, and two scores are equal
 * exactly when the keys are.
 */
module ScoreOrder {
  import opened Cards
  import opened HandEvaluator
  import opened Wrappers

  // ---------------------------------------------------------------------
  // Base-100 numerals
  // ---------------------------------------------------------------------

  function Pow100(n: nat): (p: nat)
    ensures p >= 1
  {
    if n == 0 then 1 else 100 * Pow100(n - 1)
  }

  /** The number whose base-100 digits, most significant first, are d. */
  function Num(d: seq<int>): int {
    if d == [] then 0 else d[0] * Pow100(|d| - 1) + Num(d[1..])
  }

  predicate DigitsInRange(d: seq<int>) {
    forall i :: 0 <= i < |d| ==> 0 <= d[i] <= 99
  }

  /** a is below b at the first position where they differ. */
  predicate LexLess(a: seq<int>, b: seq<int>) {
    |a| > 0 && |b| > 0 && (a[0] < b[0] || (a[0] == b[0] && LexLess(a[1..], b[1..])))
  }

  lemma {:induction false} NumBounds(d: seq<int>)
    requires DigitsInRange(d)
    ensures 0 <= Num(d) < Pow100(|d|)
  {
    if d != [] {
      NumBounds(d[1..]);
      DigitStep(d[0], Pow100(|d| - 1), Num(d[1..]));
    }
  }

  lemma DigitStep(x: int, p: nat, r: int)
    requires 0 <= x <= 99 && 0 <= r < p
    ensures 0 <= x * p + r < 100 * p
  {
    assert x * p <= 99 * p;
  }

  lemma {:induction false} MulGap(x: int, y: int, p: nat)
    requires x < y
    ensures x * p + p <= y * p
  {
    if p > 0 {
      MulGap(x, y, p - 1);
      assert x * p == x * (p - 1) + x;
      assert y * p == y * (p - 1) + y;
    }
  }

  /** Numerals of equal length compare as their digit sequences do. */
  lemma {:induction false} NumOrder(a: seq<int>, b: seq<int>)
    requires |a| == |b| && DigitsInRange(a) && DigitsInRange(b)
    ensures Num(a) < Num(b) <==> LexLess(a, b)
    ensures Num(a) == Num(b) <==> a == b
  {
    if a != [] {
      var p := Pow100(|a| - 1);
      NumBounds(a[1..]);
      NumBounds(b[1..]);
      NumOrder(a[1..], b[1..]);
      assert Num(a) == a[0] * p + Num(a[1..]);
      assert Num(b) == b[0] * p + Num(b[1..]);
      if a[0] < b[0] {
        MulGap(a[0], b[0], p);
      } else if a[0] > b[0] {
        MulGap(b[0], a[0], p);
      } else {
        assert a == [a[0]] + a[1..] && b == [b[0]] + b[1..];
      }
    }
  }

  // ---------------------------------------------------------------------
  // The score's digits
  // ---------------------------------------------------------------------

  /** The score in base 100: type, then five digits from the ranks. */
  function Digits(c: Classification): seq<int> {
    var mr := c.mainRanks;
    var kr := c.kickers;
    if c.typeIndex == 5 then [5, 2 * At(mr, 0), 2 * At(mr, 1), At(mr, 2), At(mr, 3), At(mr, 4)]
    else if c.typeIndex == 0 then [0, At(kr, 0), At(kr, 1), At(kr, 2), At(kr, 3), At(kr, 4)]
    else [c.typeIndex, At(mr, 0), At(mr, 1), At(kr, 0), At(kr, 1), At(kr, 2)]
  }

  /** The score is the numeral of its digits. */
  lemma ScoreDigits(c: Classification)
    requires c.typeIndex == 0 ==> c.mainRanks == []
    ensures Score(c) == Num(Digits(c))
  {
    NumSix(Digits(c));
  }

  /** A six-digit numeral, written out. */
  lemma NumSix(d: seq<int>)
    requires |d| == 6
    ensures Num(d) == d[0] * 10_000_000_000 + d[1] * 100_000_000 + d[2] * 1_000_000 + d[3] * 10_000 + d[4] * 100 + d[5]
  {
    assert Pow100(1) == 100 && Pow100(2) == 10_000 && Pow100(3) == 1_000_000;
    assert Pow100(4) == 100_000_000 && Pow100(5) == 10_000_000_000;
    assert d[5..][1..] == [];
    assert Num(d[5..]) == d[5];
    assert Num(d[4..]) == d[4] * 100 + d[5];
    assert Num(d[3..]) == d[3] * 10_000 + d[4] * 100 + d[5];
    assert Num(d[2..]) == d[2] * 1_000_000 + d[3] * 10_000 + d[4] * 100 + d[5];
    assert Num(d[1..]) == d[1] * 100_000_000 + d[2] * 1_000_000 + d[3] * 10_000 + d[4] * 100 + d[5];
  }

  // ---------------------------------------------------------------------
  // Keys and the shapes the evaluator produces
  // ---------------------------------------------------------------------

  /** The poker order of a classification: type, then main ranks, then kickers. */
  function Key(c: Classification): seq<int> {
    [c.typeIndex as int] + c.mainRanks + c.kickers
  }

  /** How many main ranks and kickers each hand type has for a pool of five to seven cards. */
  function MainCount(t: nat): nat {
    if t == 5 then 5 else if t == 0 then 0 else if t == 6 || t == 2 then 2 else 1
  }

  function KickerCount(t: nat): nat {
    if t == 0 then 5 else if t == 1 then 3 else if t == 3 then 2 else if t == 7 || t == 2 then 1 else 0
  }

  /** The shape of every classification of a pool of five to seven cards. */
  predicate WellShaped(c: Classification) {
    c.typeIndex <= 8 &&
    |c.mainRanks| == MainCount(c.typeIndex) && |c.kickers| == KickerCount(c.typeIndex) &&
    InRankRange(c.mainRanks) && InRankRange(c.kickers)
  }

  /** A digit position: always 0, or an entry of the key's tail times a weight. */
  datatype Slot = Zero | Entry(weight: nat)

  /** Where each type puts its main ranks and kickers among the five lower digits. */
  function Pattern(t: nat): seq<Slot> {
    if t == 5 then [Entry(2), Entry(2), Entry(1), Entry(1), Entry(1)]
    else if t == 0 then [Entry(1), Entry(1), Entry(1), Entry(1), Entry(1)]
    else if t == 7 then [Entry(1), Zero, Entry(1), Zero, Zero]
    else if t == 6 then [Entry(1), Entry(1), Zero, Zero, Zero]
    else if t == 3 then [Entry(1), Zero, Entry(1), Entry(1), Zero]
    else if t == 2 then [Entry(1), Entry(1), Entry(1), Zero, Zero]
    else if t == 1 then [Entry(1), Zero, Entry(1), Entry(1), Entry(1)]
    else [Entry(1), Zero, Zero, Zero, Zero]
  }

  function Entries(pat: seq<Slot>): nat {
    if pat == [] then 0 else (if pat[0].Entry? then 1 else 0) + Entries(pat[1..])
  }

  predicate PositiveWeights(pat: seq<Slot>) {
    forall i :: 0 <= i < |pat| && pat[i].Entry? ==> pat[i].weight > 0
  }

  /** The digits a pattern makes of the entries x. */
  function Spread(pat: seq<Slot>, x: seq<int>): seq<int>
    requires |x| == Entries(pat)
  {
    if pat == [] then []
    else if pat[0].Zero? then [0] + Spread(pat[1..], x)
    else [pat[0].weight * x[0]] + Spread(pat[1..], x[1..])
  }

  lemma WeightOrder(w: nat, a: int, b: int)
    requires w > 0
    ensures (w * a < w * b <==> a < b) && (w * a == w * b <==> a == b)
  {
    if a < b {
      MulGap(a, b, w);
    } else if b < a {
      MulGap(b, a, w);
    }
  }

  /** Spreading entries with positive weights keeps their order. */
  lemma {:induction false} SpreadOrder(pat: seq<Slot>, x: seq<int>, y: seq<int>)
    requires |x| == Entries(pat) && |y| == Entries(pat) && PositiveWeights(pat)
    ensures LexLess(Spread(pat, x), Spread(pat, y)) <==> LexLess(x, y)
    ensures Spread(pat, x) == Spread(pat, y) <==> x == y
  {
    if pat == [] {
    } else if pat[0].Zero? {
      SpreadOrder(pat[1..], x, y);
      assert Spread(pat, x)[1..] == Spread(pat[1..], x);
      assert Spread(pat, y)[1..] == Spread(pat[1..], y);
    } else {
      SpreadOrder(pat[1..], x[1..], y[1..]);
      var w := pat[0].weight;
      assert Spread(pat, x)[1..] == Spread(pat[1..], x[1..]);
      assert Spread(pat, y)[1..] == Spread(pat[1..], y[1..]);
      WeightOrder(w, x[0], y[0]);
      if x[1..] == y[1..] && x[0] == y[0] {
        assert x == [x[0]] + x[1..] && y == [y[0]] + y[1..];
      }
    }
  }

  /** For a well-shaped classification the digits are the type and the spread key tail. */
  lemma DigitsAsSpread(c: Classification)
    requires WellShaped(c)
    ensures |c.mainRanks + c.kickers| == Entries(Pattern(c.typeIndex))
    ensures Digits(c) == [c.typeIndex as int] + Spread(Pattern(c.typeIndex), c.mainRanks + c.kickers)
    ensures DigitsInRange(Digits(c))
  {
    match c.typeIndex
    case 8 => DigitsStraightFlush(c);
    case 7 => DigitsFourOfAKind(c);
    case 6 => DigitsFullHouse(c);
    case 5 => DigitsFlush(c);
    case 4 => DigitsStraight(c);
    case 3 => DigitsThreeOfAKind(c);
    case 2 => DigitsTwoPair(c);
    case 1 => DigitsPair(c);
    case _ => DigitsHighCard(c);
  }

  lemma DigitsStraightFlush(c: Classification)
    requires WellShaped(c) && c.typeIndex == 8
    ensures |c.mainRanks + c.kickers| == Entries(Pattern(c.typeIndex))
    ensures Digits(c) == [c.typeIndex as int] + Spread(Pattern(c.typeIndex), c.mainRanks + c.kickers)
  {
    var x := c.mainRanks + c.kickers;
    SpreadStraightFlush(x);
  }

  lemma SpreadStraightFlush(x: seq<int>)
    requires |x| == 1
    ensures Entries(Pattern(8)) == 1 && Spread(Pattern(8), x) == [x[0], 0, 0, 0, 0]
  {
    LeadShape(Pattern(8), x);
  }

  lemma DigitsFourOfAKind(c: Classification)
    requires WellShaped(c) && c.typeIndex == 7
    ensures |c.mainRanks + c.kickers| == Entries(Pattern(c.typeIndex))
    ensures Digits(c) == [c.typeIndex as int] + Spread(Pattern(c.typeIndex), c.mainRanks + c.kickers)
  {
    var x := c.mainRanks + c.kickers;
    SpreadFourOfAKind(x);
  }

  lemma SpreadFourOfAKind(x: seq<int>)
    requires |x| == 2
    ensures Entries(Pattern(7)) == 2 && Spread(Pattern(7), x) == [x[0], 0, x[1], 0, 0]
  {
    FourOfAKindShape(Pattern(7), x);
  }

  lemma DigitsFullHouse(c: Classification)
    requires WellShaped(c) && c.typeIndex == 6
    ensures |c.mainRanks + c.kickers| == Entries(Pattern(c.typeIndex))
    ensures Digits(c) == [c.typeIndex as int] + Spread(Pattern(c.typeIndex), c.mainRanks + c.kickers)
  {
    var x := c.mainRanks + c.kickers;
    SpreadFullHouse(x);
  }

  lemma SpreadFullHouse(x: seq<int>)
    requires |x| == 2
    ensures Entries(Pattern(6)) == 2 && Spread(Pattern(6), x) == [x[0], x[1], 0, 0, 0]
  {
    FullHouseShape(Pattern(6), x);
  }

  lemma DigitsFlush(c: Classification)
    requires WellShaped(c) && c.typeIndex == 5
    ensures |c.mainRanks + c.kickers| == Entries(Pattern(c.typeIndex))
    ensures Digits(c) == [c.typeIndex as int] + Spread(Pattern(c.typeIndex), c.mainRanks + c.kickers)
  {
    var x := c.mainRanks + c.kickers;
    assert x == c.mainRanks;
    SpreadFlush(x);
  }

  lemma SpreadFlush(x: seq<int>)
    requires |x| == 5
    ensures Entries(Pattern(5)) == 5 && Spread(Pattern(5), x) == [2 * x[0], 2 * x[1], x[2], x[3], x[4]]
  {
    FlushShape(Pattern(5), x);
  }

  lemma DigitsStraight(c: Classification)
    requires WellShaped(c) && c.typeIndex == 4
    ensures |c.mainRanks + c.kickers| == Entries(Pattern(c.typeIndex))
    ensures Digits(c) == [c.typeIndex as int] + Spread(Pattern(c.typeIndex), c.mainRanks + c.kickers)
  {
    var x := c.mainRanks + c.kickers;
    SpreadStraight(x);
  }

  lemma SpreadStraight(x: seq<int>)
    requires |x| == 1
    ensures Entries(Pattern(4)) == 1 && Spread(Pattern(4), x) == [x[0], 0, 0, 0, 0]
  {
    LeadShape(Pattern(4), x);
  }

  lemma DigitsThreeOfAKind(c: Classification)
    requires WellShaped(c) && c.typeIndex == 3
    ensures |c.mainRanks + c.kickers| == Entries(Pattern(c.typeIndex))
    ensures Digits(c) == [c.typeIndex as int] + Spread(Pattern(c.typeIndex), c.mainRanks + c.kickers)
  {
    var x := c.mainRanks + c.kickers;
    SpreadThreeOfAKind(x);
  }

  lemma SpreadThreeOfAKind(x: seq<int>)
    requires |x| == 3
    ensures Entries(Pattern(3)) == 3 && Spread(Pattern(3), x) == [x[0], 0, x[1], x[2], 0]
  {
    ThreeOfAKindShape(Pattern(3), x);
  }

  lemma DigitsTwoPair(c: Classification)
    requires WellShaped(c) && c.typeIndex == 2
    ensures |c.mainRanks + c.kickers| == Entries(Pattern(c.typeIndex))
    ensures Digits(c) == [c.typeIndex as int] + Spread(Pattern(c.typeIndex), c.mainRanks + c.kickers)
  {
    var x := c.mainRanks + c.kickers;
    SpreadTwoPair(x);
  }

  lemma SpreadTwoPair(x: seq<int>)
    requires |x| == 3
    ensures Entries(Pattern(2)) == 3 && Spread(Pattern(2), x) == [x[0], x[1], x[2], 0, 0]
  {
    TwoPairShape(Pattern(2), x);
  }

  lemma DigitsPair(c: Classification)
    requires WellShaped(c) && c.typeIndex == 1
    ensures |c.mainRanks + c.kickers| == Entries(Pattern(c.typeIndex))
    ensures Digits(c) == [c.typeIndex as int] + Spread(Pattern(c.typeIndex), c.mainRanks + c.kickers)
  {
    var x := c.mainRanks + c.kickers;
    SpreadPair(x);
  }

  lemma SpreadPair(x: seq<int>)
    requires |x| == 4
    ensures Entries(Pattern(1)) == 4 && Spread(Pattern(1), x) == [x[0], 0, x[1], x[2], x[3]]
  {
    PairShape(Pattern(1), x);
  }

  // The digits of each pattern shape, computed slot by slot from the last.

  lemma LeadShape(pat: seq<Slot>, x: seq<int>)
    requires |pat| == 5 && |x| == 1
    requires pat[0] == Entry(1) && pat[1] == Zero && pat[2] == Zero && pat[3] == Zero && pat[4] == Zero
    ensures Entries(pat) == 1 && Spread(pat, x) == [x[0], 0, 0, 0, 0]
  {
    assert pat[5..] == [];
    SlotStep(pat, x, 4, 1, []);
    SlotStep(pat, x, 3, 1, [0]);
    SlotStep(pat, x, 2, 1, [0, 0]);
    SlotStep(pat, x, 1, 1, [0, 0, 0]);
    SlotStep(pat, x, 0, 0, [0, 0, 0, 0]);
    assert pat[0..] == pat && x[0..] == x;
  }

  lemma FourOfAKindShape(pat: seq<Slot>, x: seq<int>)
    requires |pat| == 5 && |x| == 2
    requires pat[0] == Entry(1) && pat[1] == Zero && pat[2] == Entry(1) && pat[3] == Zero && pat[4] == Zero
    ensures Entries(pat) == 2 && Spread(pat, x) == [x[0], 0, x[1], 0, 0]
  {
    assert pat[5..] == [];
    SlotStep(pat, x, 4, 2, []);
    SlotStep(pat, x, 3, 2, [0]);
    SlotStep(pat, x, 2, 1, [0, 0]);
    SlotStep(pat, x, 1, 1, [x[1], 0, 0]);
    SlotStep(pat, x, 0, 0, [0, x[1], 0, 0]);
    assert pat[0..] == pat && x[0..] == x;
  }

  lemma FullHouseShape(pat: seq<Slot>, x: seq<int>)
    requires |pat| == 5 && |x| == 2
    requires pat[0] == Entry(1) && pat[1] == Entry(1) && pat[2] == Zero && pat[3] == Zero && pat[4] == Zero
    ensures Entries(pat) == 2 && Spread(pat, x) == [x[0], x[1], 0, 0, 0]
  {
    assert pat[5..] == [];
    SlotStep(pat, x, 4, 2, []);
    SlotStep(pat, x, 3, 2, [0]);
    SlotStep(pat, x, 2, 2, [0, 0]);
    SlotStep(pat, x, 1, 1, [0, 0, 0]);
    SlotStep(pat, x, 0, 0, [x[1], 0, 0, 0]);
    assert pat[0..] == pat && x[0..] == x;
  }

  lemma FlushShape(pat: seq<Slot>, x: seq<int>)
    requires |pat| == 5 && |x| == 5
    requires pat[0] == Entry(2) && pat[1] == Entry(2) && pat[2] == Entry(1) && pat[3] == Entry(1) && pat[4] == Entry(1)
    ensures Entries(pat) == 5 && Spread(pat, x) == [2 * x[0], 2 * x[1], x[2], x[3], x[4]]
  {
    assert pat[5..] == [];
    SlotStep(pat, x, 4, 4, []);
    SlotStep(pat, x, 3, 3, [x[4]]);
    SlotStep(pat, x, 2, 2, [x[3], x[4]]);
    SlotStep(pat, x, 1, 1, [x[2], x[3], x[4]]);
    SlotStep(pat, x, 0, 0, [2 * x[1], x[2], x[3], x[4]]);
    assert pat[0..] == pat && x[0..] == x;
  }

  lemma ThreeOfAKindShape(pat: seq<Slot>, x: seq<int>)
    requires |pat| == 5 && |x| == 3
    requires pat[0] == Entry(1) && pat[1] == Zero && pat[2] == Entry(1) && pat[3] == Entry(1) && pat[4] == Zero
    ensures Entries(pat) == 3 && Spread(pat, x) == [x[0], 0, x[1], x[2], 0]
  {
    assert pat[5..] == [];
    SlotStep(pat, x, 4, 3, []);
    SlotStep(pat, x, 3, 2, [0]);
    SlotStep(pat, x, 2, 1, [x[2], 0]);
    SlotStep(pat, x, 1, 1, [x[1], x[2], 0]);
    SlotStep(pat, x, 0, 0, [0, x[1], x[2], 0]);
    assert pat[0..] == pat && x[0..] == x;
  }

  lemma TwoPairShape(pat: seq<Slot>, x: seq<int>)
    requires |pat| == 5 && |x| == 3
    requires pat[0] == Entry(1) && pat[1] == Entry(1) && pat[2] == Entry(1) && pat[3] == Zero && pat[4] == Zero
    ensures Entries(pat) == 3 && Spread(pat, x) == [x[0], x[1], x[2], 0, 0]
  {
    assert pat[5..] == [];
    SlotStep(pat, x, 4, 3, []);
    SlotStep(pat, x, 3, 3, [0]);
    SlotStep(pat, x, 2, 2, [0, 0]);
    SlotStep(pat, x, 1, 1, [x[2], 0, 0]);
    SlotStep(pat, x, 0, 0, [x[1], x[2], 0, 0]);
    assert pat[0..] == pat && x[0..] == x;
  }

  lemma HighCardShape(pat: seq<Slot>, x: seq<int>)
    requires |pat| == 5 && |x| == 5
    requires pat[0] == Entry(1) && pat[1] == Entry(1) && pat[2] == Entry(1) && pat[3] == Entry(1) && pat[4] == Entry(1)
    ensures Entries(pat) == 5 && Spread(pat, x) == [x[0], x[1], x[2], x[3], x[4]]
  {
    assert pat[5..] == [];
    SlotStep(pat, x, 4, 4, []);
    SlotStep(pat, x, 3, 3, [x[4]]);
    SlotStep(pat, x, 2, 2, [x[3], x[4]]);
    SlotStep(pat, x, 1, 1, [x[2], x[3], x[4]]);
    SlotStep(pat, x, 0, 0, [x[1], x[2], x[3], x[4]]);
    assert pat[0..] == pat && x[0..] == x;
  }

  lemma PairShape(pat: seq<Slot>, x: seq<int>)
    requires |pat| == 5 && pat[0] == Entry(1) && pat[1] == Zero && pat[2] == Entry(1)
    requires pat[3] == Entry(1) && pat[4] == Entry(1) && |x| == 4
    ensures Entries(pat) == 4 && Spread(pat, x) == [x[0], 0, x[1], x[2], x[3]]
  {
    assert pat[5..] == [];
    SlotStep(pat, x, 4, 3, []);
    SlotStep(pat, x, 3, 2, [x[3]]);
    SlotStep(pat, x, 2, 1, [x[2], x[3]]);
    SlotStep(pat, x, 1, 1, [x[1], x[2], x[3]]);
    SlotStep(pat, x, 0, 0, [0, x[1], x[2], x[3]]);
    assert pat[0..] == pat && x[0..] == x;
  }

  /** Slot k of a pattern adds a zero digit, or the next entry times its weight, before the rest. */
  lemma SlotStep(pat: seq<Slot>, x: seq<int>, k: nat, j: nat, rest: seq<int>)
    requires k < |pat| && j <= |x| && |x| - j == (if pat[k].Entry? then 1 else 0) + Entries(pat[k + 1..])
    requires Spread(pat[k + 1..], x[j + (if pat[k].Entry? then 1 else 0)..]) == rest
    ensures Entries(pat[k..]) == |x| - j
    ensures Spread(pat[k..], x[j..]) == (if pat[k].Entry? then [pat[k].weight * x[j]] else [0]) + rest
  {
    assert pat[k..][1..] == pat[k + 1..];
    assert x[j..][(if pat[k].Entry? then 1 else 0)..] == x[j + (if pat[k].Entry? then 1 else 0)..];
  }

  lemma DigitsHighCard(c: Classification)
    requires WellShaped(c) && c.typeIndex == 0
    ensures |c.mainRanks + c.kickers| == Entries(Pattern(c.typeIndex))
    ensures Digits(c) == [c.typeIndex as int] + Spread(Pattern(c.typeIndex), c.mainRanks + c.kickers)
  {
    var x := c.mainRanks + c.kickers;
    SpreadHighCard(x);
  }

  lemma SpreadHighCard(x: seq<int>)
    requires |x| == 5
    ensures Entries(Pattern(0)) == 5 && Spread(Pattern(0), x) == [x[0], x[1], x[2], x[3], x[4]]
  {
    HighCardShape(Pattern(0), x);
  }

  lemma LexCons(x: int, a: seq<int>, y: int, b: seq<int>)
    ensures LexLess([x] + a, [y] + b) <==> x < y || (x == y && LexLess(a, b))
    ensures [x] + a == [y] + b <==> x == y && a == b
  {
    assert ([x] + a)[1..] == a && ([y] + b)[1..] == b;
    if [x] + a == [y] + b {
      assert ([x] + a)[0] == ([y] + b)[0];
    }
  }

  /** The digits of two hands compare as their keys do. */
  lemma DigitsOrderKeys(a: Classification, b: Classification)
    requires WellShaped(a) && WellShaped(b)
    ensures LexLess(Digits(a), Digits(b)) <==> LexLess(Key(a), Key(b))
    ensures Digits(a) == Digits(b) <==> Key(a) == Key(b)
  {
    DigitsAsSpread(a);
    DigitsAsSpread(b);
    assert Key(a) == [a.typeIndex as int] + (a.mainRanks + a.kickers);
    assert Key(b) == [b.typeIndex as int] + (b.mainRanks + b.kickers);
    SpreadKeys(a.typeIndex, a.mainRanks + a.kickers, b.typeIndex, b.mainRanks + b.kickers);
  }

  /** Spreading the entries of a key over its hand type's pattern keeps the key order. */
  lemma SpreadKeys(ta: nat, xa: seq<int>, tb: nat, xb: seq<int>)
    requires ta <= 8 && tb <= 8
    requires |xa| == Entries(Pattern(ta)) && |xb| == Entries(Pattern(tb))
    ensures LexLess([ta as int] + Spread(Pattern(ta), xa), [tb as int] + Spread(Pattern(tb), xb))
      <==> LexLess([ta as int] + xa, [tb as int] + xb)
    ensures [ta as int] + Spread(Pattern(ta), xa) == [tb as int] + Spread(Pattern(tb), xb)
      <==> [ta as int] + xa == [tb as int] + xb
  {
    if ta == tb {
      SpreadOrder(Pattern(ta), xa, xb);
    }
    HeadThenTail(ta, Spread(Pattern(ta), xa), xa, tb, Spread(Pattern(tb), xb), xb);
  }

  /** Two sequences headed by the same pair of values compare as their tails do. */
  lemma HeadThenTail(ta: int, sa: seq<int>, xa: seq<int>, tb: int, sb: seq<int>, xb: seq<int>)
    requires ta == tb ==> (LexLess(sa, sb) <==> LexLess(xa, xb)) && (sa == sb <==> xa == xb)
    ensures LexLess([ta] + sa, [tb] + sb) <==> LexLess([ta] + xa, [tb] + xb)
    ensures [ta] + sa == [tb] + sb <==> [ta] + xa == [tb] + xb
  {
    LexCons(ta, sa, tb, sb);
    LexCons(ta, xa, tb, xb);
  }

  /** For classifications of pools, comparing scores is comparing keys. */
  lemma ScoreOrdersKeys(a: Classification, b: Classification)
    requires WellShaped(a) && WellShaped(b)
    ensures Score(a) < Score(b) <==> LexLess(Key(a), Key(b))
    ensures Score(a) == Score(b) <==> Key(a) == Key(b)
  {
    ScoreDigits(a);
    ScoreDigits(b);
    DigitsAsSpread(a);
    DigitsAsSpread(b);
    NumOrder(Digits(a), Digits(b));
    DigitsOrderKeys(a, b);
  }

  // ---------------------------------------------------------------------
  // Every pool of five or more cards is classified into a well-shaped hand
  // ---------------------------------------------------------------------

  lemma {:induction false} SumSnoc(xs: seq<nat>, k: nat)
    requires k < |xs|
    ensures Sum(xs[..k + 1]) == Sum(xs[..k]) + xs[k]
  {
    if k > 0 {
      SumSnoc(xs[1..], k - 1);
      assert xs[..k + 1][1..] == xs[1..][..k];
      assert xs[..k][1..] == xs[1..][..k - 1];
    } else {
      assert xs[..1][1..] == [];
    }
  }

  lemma {:induction false} ExpandFromLength(counts: seq<nat>, v: int)
    requires |counts| == 13 && -1 <= v <= 12
    ensures |ExpandFrom(counts, v)| == Sum(counts[..v + 1])
    decreases v + 1
  {
    if v >= 0 {
      ExpandFromLength(counts, v - 1);
      SumSnoc(counts, v);
    } else {
      assert counts[..0] == [];
    }
  }

  /** The expansion has one entry per card counted. */
  lemma ExpandLength(counts: seq<nat>)
    requires |counts| == 13
    ensures |Expand(counts)| == Sum(counts)
  {
    ExpandFromLength(counts, 12);
    assert counts[..13] == counts;
  }

  /** The rank counts of a pool add up to its size. */
  lemma {:induction false} RankCountsTotal(m: multiset<Card>)
    ensures Sum(RankCounts(m)) == |m|
    decreases |m|
  {
    if |m| == 0 {
      assert m == multiset{};
      RankCountsEmpty();
    } else {
      var c :| c in m;
      var rest := m - multiset{c};
      assert m == rest + multiset{c};
      RankCountsTotal(rest);
      RankCountsAddOne(rest, c);
      SumIncrement(RankCounts(rest), RankValue(c.rank));
    }
  }

  lemma RankCountsEmpty()
    ensures Sum(RankCounts(multiset{})) == 0
  {
    assert RankCounts(multiset{}) == seq(13, _ => 0);
    ZeroSum(13);
  }

  /** Adding one card raises the count of its rank by one. */
  lemma RankCountsAddOne(rest: multiset<Card>, c: Card)
    ensures var v := RankValue(c.rank);
      RankCounts(rest + multiset{c}) == RankCounts(rest)[v := RankCounts(rest)[v] + 1]
  {
    var v := RankValue(c.rank);
    var counts := RankCounts(rest);
    forall w | 0 <= w < 13 ensures RankCounts(rest + multiset{c})[w] == counts[v := counts[v] + 1][w] {
      RankCountAdd(rest, c, w);
    }
  }

  lemma {:induction false} WithoutCount(s: seq<int>, x: int, y: int)
    ensures multiset(Without(s, x))[y] == if y == x then 0 else multiset(s)[y]
    ensures |Without(s, x)| == |s| - multiset(s)[x]
  {
    if s != [] {
      WithoutCount(s[1..], x, y);
      assert s == [s[0]] + s[1..];
      var head := if s[0] == x then [] else [s[0]];
      assert Without(s, x) == head + Without(s[1..], x);
    }
  }

  lemma WithoutInRange(s: seq<int>, x: int)
    requires InRankRange(s)
    ensures InRankRange(Without(s, x))
  {
    var r := Without(s, x);
    forall i | 0 <= i < |r| ensures 0 <= r[i] <= 12 {
      assert r[i] in r;
    }
  }

  /** What the shape of a classification depends on. */
  predicate Consistent(f: Features) {
    |f.ranks| >= 5 && InRankRange(f.ranks) && InRankRange(f.three) && InRankRange(f.pairs) &&
    (f.four.Some? ==> 0 <= f.four.value <= 12 && multiset(f.ranks)[f.four.value] == 4) &&
    (forall i :: 0 <= i < |f.three| ==> multiset(f.ranks)[f.three[i]] == 3) &&
    (forall i :: 0 <= i < |f.pairs| ==> multiset(f.ranks)[f.pairs[i]] == 2) &&
    (|f.pairs| >= 2 ==> f.pairs[0] != f.pairs[1]) &&
    (f.flushRanks.Some? ==> |f.flushRanks.value| >= 5 && InRankRange(f.flushRanks.value)) &&
    -1 <= f.straightHigh <= 12 && -1 <= f.straightFlushHigh <= 12
  }

  lemma TakeInRange(s: seq<int>, n: nat)
    requires InRankRange(s)
    ensures InRankRange(Take(s, n))
  {
  }

  lemma KickersAfter(ranks: seq<int>, x: int, k: nat, n: nat)
    requires InRankRange(ranks) && |ranks| >= n + k && multiset(ranks)[x] == k
    ensures |Take(Without(ranks, x), n)| == n && InRankRange(Take(Without(ranks, x), n))
  {
    WithoutCount(ranks, x, x);
    WithoutInRange(ranks, x);
    TakeInRange(Without(ranks, x), n);
  }

  /** Consistent features classify into a well-shaped hand. */
  lemma ConsistentWellShaped(f: Features)
    requires Consistent(f)
    ensures WellShaped(Classify(f))
  {
    var ranks := f.ranks;
    if f.straightFlushHigh != -1 {
    } else if f.four.Some? {
      KickersAfter(ranks, f.four.value, 4, 1);
    } else if |f.three| >= 1 && |f.pairs| >= 1 {
    } else if |f.three| >= 2 {
    } else if f.flushRanks.Some? {
      TakeInRange(f.flushRanks.value, 5);
    } else if f.straightHigh != -1 {
    } else if |f.three| == 1 {
      KickersAfter(ranks, f.three[0], 3, 2);
    } else if |f.pairs| >= 2 {
      var p0, p1 := f.pairs[0], f.pairs[1];
      WithoutCount(ranks, p0, p1);
      WithoutInRange(ranks, p0);
      KickersAfter(Without(ranks, p0), p1, 2, 1);
      WithoutCount(ranks, p0, p0);
    } else if |f.pairs| == 1 {
      KickersAfter(ranks, f.pairs[0], 2, 3);
    } else {
      TakeInRange(ranks, 5);
    }
  }

  /** The features of a pool of five or more cards are consistent. */
  lemma PoolConsistent(m: multiset<Card>)
    requires |m| >= 5
    ensures Consistent(FeaturesOf(m))
  {
    var counts := RankCounts(m);
    var f := FeaturesOf(m);
    RanksFacts(m);
    GroupFacts(counts);
    FlushFacts(m);
    assert f.ranks == Expand(counts);
    assert f.four == FirstWithCount(counts, 4, 0);
    assert f.three == WithCount(counts, 3, 12) && f.pairs == WithCount(counts, 2, 12);
    ConsistentParts(f, counts);
  }

  lemma RanksFacts(m: multiset<Card>)
    ensures |Expand(RankCounts(m))| == |m|
    ensures forall x :: 0 <= x <= 12 ==> multiset(Expand(RankCounts(m)))[x] == RankCounts(m)[x]
  {
    ExpandLength(RankCounts(m));
    RankCountsTotal(m);
    forall x | 0 <= x <= 12 ensures multiset(Expand(RankCounts(m)))[x] == RankCounts(m)[x] {
      ExpandCount(RankCounts(m), x);
    }
  }

  lemma GroupFacts(counts: seq<nat>)
    requires |counts| == 13
    ensures var four := FirstWithCount(counts, 4, 0);
      four.Some? ==> 0 <= four.value <= 12 && counts[four.value] == 4
    ensures var three := WithCount(counts, 3, 12);
      InRankRange(three) && forall i :: 0 <= i < |three| ==> counts[three[i]] == 3
    ensures var pairs := WithCount(counts, 2, 12);
      InRankRange(pairs) && (|pairs| >= 2 ==> pairs[0] != pairs[1]) &&
      forall i :: 0 <= i < |pairs| ==> counts[pairs[i]] == 2
  {
    WithCountEntries(counts, 3);
    WithCountEntries(counts, 2);
  }

  lemma WithCountEntries(counts: seq<nat>, k: nat)
    requires |counts| == 13
    ensures var r := WithCount(counts, k, 12);
      InRankRange(r) && (|r| >= 2 ==> r[0] != r[1]) &&
      forall i :: 0 <= i < |r| ==> counts[r[i]] == k
  {
    var r := WithCount(counts, k, 12);
    forall i | 0 <= i < |r| ensures counts[r[i]] == k {
      assert r[i] in r;
    }
  }

  lemma FlushFacts(m: multiset<Card>)
    ensures var fs := FlushSuit(m);
      fs.Some? ==> |Expand(SuitRanks(m, fs.value))| >= 5
  {
    var fs := FlushSuit(m);
    if fs.Some? {
      ExpandLength(SuitRanks(m, fs.value));
    }
  }

  lemma ConsistentParts(f: Features, counts: seq<nat>)
    requires |counts| == 13 && |f.ranks| >= 5 && InRankRange(f.ranks)
    requires forall x :: 0 <= x <= 12 ==> multiset(f.ranks)[x] == counts[x]
    requires f.four.Some? ==> 0 <= f.four.value <= 12 && counts[f.four.value] == 4
    requires InRankRange(f.three) && forall i :: 0 <= i < |f.three| ==> counts[f.three[i]] == 3
    requires InRankRange(f.pairs) && forall i :: 0 <= i < |f.pairs| ==> counts[f.pairs[i]] == 2
    requires |f.pairs| >= 2 ==> f.pairs[0] != f.pairs[1]
    requires f.flushRanks.Some? ==> |f.flushRanks.value| >= 5 && InRankRange(f.flushRanks.value)
    requires -1 <= f.straightHigh <= 12 && -1 <= f.straightFlushHigh <= 12
    ensures Consistent(f)
  {
  }

  /** The classification of a pool of five or more cards has its type's shape. */
  lemma PoolWellShaped(m: multiset<Card>)
    requires |m| >= 5
    ensures WellShaped(Classify(FeaturesOf(m)))
  {
    PoolConsistent(m);
    ConsistentWellShaped(FeaturesOf(m));
  }

  /** The key by which a pool's hand ranks: type, then main ranks, then kickers. */
  function PoolKey(m: multiset<Card>): seq<int> {
    Key(Classify(FeaturesOf(m)))
  }

  /**
   * Two pools of five or more cards compare by their evaluated scores exactly
   * as their keys compare lexicographically, and tie exactly when the keys agree.
   */
  lemma EvaluateOrdersHands(m1: multiset<Card>, m2: multiset<Card>)
    requires |m1| >= 5 && |m2| >= 5
    ensures Evaluate(m1).score < Evaluate(m2).score <==> LexLess(PoolKey(m1), PoolKey(m2))
    ensures Evaluate(m1).score == Evaluate(m2).score <==> PoolKey(m1) == PoolKey(m2)
  {
    PoolWellShaped(m1);
    PoolWellShaped(m2);
    ScoreOrdersKeys(Classify(FeaturesOf(m1)), Classify(FeaturesOf(m2)));
  }

  /** Two pools of five or more cards that score alike are described alike. */
  lemma EqualScoresDescribedAlike(m1: multiset<Card>, m2: multiset<Card>)
    requires |m1| >= 5 && |m2| >= 5 && Evaluate(m1).score == Evaluate(m2).score
    ensures Evaluate(m1).description == Evaluate(m2).description
  {
    EvaluateOrdersHands(m1, m2);
    PoolWellShaped(m1);
    PoolWellShaped(m2);
    KeyDeterminesClassification(Classify(FeaturesOf(m1)), Classify(FeaturesOf(m2)));
  }

  /** A well-shaped classification is determined by its key. */
  lemma KeyDeterminesClassification(a: Classification, b: Classification)
    requires WellShaped(a) && WellShaped(b) && Key(a) == Key(b)
    ensures a == b
  {
    assert a.typeIndex == b.typeIndex by { assert Key(a)[0] == Key(b)[0]; }
    var n := |a.mainRanks|;
    assert a.mainRanks == Key(a)[1..1 + n] == Key(b)[1..1 + n] == b.mainRanks;
    assert a.kickers == Key(a)[1 + n..] == Key(b)[1 + n..] == b.kickers;
  }

  // ---------------------------------------------------------------------
  // Scores are never negative
  // ---------------------------------------------------------------------

  /** The ranges every pool's features keep, whatever its size. */
  predicate InRanges(f: Features) {
    InRankRange(f.ranks) && InRankRange(f.three) && InRankRange(f.pairs) &&
    (f.four.Some? ==> 0 <= f.four.value <= 12) &&
    (f.flushRanks.Some? ==> InRankRange(f.flushRanks.value)) &&
    -1 <= f.straightHigh <= 12 && -1 <= f.straightFlushHigh <= 12
  }

  lemma PoolInRanges(m: multiset<Card>)
    ensures InRanges(FeaturesOf(m))
  {
    var counts := RankCounts(m);
    var fs := FlushSuit(m);
    GroupFacts(counts);
    PartsInRanges(counts,
      if fs.Some? then Some(Expand(SuitRanks(m, fs.value))) else None,
      BestStraight(Present(counts)),
      if fs.Some? then BestStraight(Present(SuitRanks(m, fs.value))) else -1);
  }

  /** The features built from rank counts and in-range flush and straight parts are in range. */
  lemma PartsInRanges(counts: seq<nat>, flushRanks: Option<seq<int>>, straightHigh: int, straightFlushHigh: int)
    requires |counts| == 13
    requires flushRanks.Some? ==> InRankRange(flushRanks.value)
    requires -1 <= straightHigh <= 12 && -1 <= straightFlushHigh <= 12
    requires var four := FirstWithCount(counts, 4, 0); four.Some? ==> 0 <= four.value <= 12
    requires InRankRange(WithCount(counts, 3, 12)) && InRankRange(WithCount(counts, 2, 12))
    ensures InRanges(Features(Expand(counts), FirstWithCount(counts, 4, 0), WithCount(counts, 3, 12),
      WithCount(counts, 2, 12), flushRanks, straightHigh, straightFlushHigh))
  {
  }

  lemma ClassifyInRanges(f: Features)
    requires InRanges(f)
    ensures var c := Classify(f); InRankRange(c.mainRanks) && InRankRange(c.kickers)
  {
    if f.four.Some? {
      WithoutInRange(f.ranks, f.four.value);
      TakeInRange(Without(f.ranks, f.four.value), 1);
    }
    if |f.three| >= 1 {
      WithoutInRange(f.ranks, f.three[0]);
      TakeInRange(Without(f.ranks, f.three[0]), 2);
    }
    if |f.pairs| >= 1 {
      WithoutInRange(f.ranks, f.pairs[0]);
      TakeInRange(Without(f.ranks, f.pairs[0]), 3);
      if |f.pairs| >= 2 {
        WithoutInRange(Without(f.ranks, f.pairs[0]), f.pairs[1]);
        TakeInRange(Without(Without(f.ranks, f.pairs[0]), f.pairs[1]), 1);
      }
    }
    if f.flushRanks.Some? {
      TakeInRange(f.flushRanks.value, 5);
    }
    TakeInRange(f.ranks, 5);
  }

  lemma ScoreNonNegative(c: Classification)
    requires InRankRange(c.mainRanks) && InRankRange(c.kickers)
    ensures Score(c) >= 0
  {
  }

  /** Every pool scores at least 0. */
  lemma EvaluateNonNegative(m: multiset<Card>)
    ensures Evaluate(m).score >= 0
  {
    if |m| > 0 {
      var c := Classify(FeaturesOf(m));
      PoolInRanges(m);
      ClassifyInRanges(FeaturesOf(m));
      ScoreNonNegative(c);
      assert Evaluate(m) == ResultOf(c);
    }
  }
}
