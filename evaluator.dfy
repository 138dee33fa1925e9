/**
 * evaluateHand: classifies a pool of cards (hole cards plus board, at most
 * seven) into a hand type with main ranks and kickers, scores the
 * classification, and describes it.
 *
 * The specification, Evaluate, depends only on the multiset of cards in the
 * pool. The method EvaluateHand follows the source's steps (sort, tally the
 * ranks, tally the suits, scan for straights) and is proved to agree with it.
 */
module HandEvaluator {
  import opened Wrappers
  import opened Cards

  // ---------------------------------------------------------------------
  // Tallies of a pool
  // ---------------------------------------------------------------------

  /** The number of cards of rank value v in a pool. */
  function RankCount(m: multiset<Card>, v: int): nat {
    if 0 <= v <= 12 then
      var r := RankAt(v);
      m[Card(r, Clubs)] + m[Card(r, Diamonds)] + m[Card(r, Hearts)] + m[Card(r, Spades)]
    else 0
  }

  /** The rank counts of a pool, indexed by rank value. */
  function RankCounts(m: multiset<Card>): (counts: seq<nat>)
    ensures |counts| == 13
  {
    seq(13, v requires 0 <= v < 13 => RankCount(m, v))
  }

  /** For one suit, the number of cards of each rank value. */
  function SuitRanks(m: multiset<Card>, s: Suit): (counts: seq<nat>)
    ensures |counts| == 13
  {
    seq(13, v requires 0 <= v < 13 => m[Card(RankAt(v), s)])
  }

  function Sum(xs: seq<nat>): nat {
    if xs == [] then 0 else xs[0] + Sum(xs[1..])
  }

  /** The number of cards of one suit in a pool. */
  function SuitCount(m: multiset<Card>, s: Suit): nat {
    Sum(SuitRanks(m, s))
  }

  /** The suit with five or more cards, if there is one (the first by suit value). */
  function FlushSuit(m: multiset<Card>): Option<Suit> {
    if SuitCount(m, Clubs) >= 5 then Some(Clubs)
    else if SuitCount(m, Diamonds) >= 5 then Some(Diamonds)
    else if SuitCount(m, Hearts) >= 5 then Some(Hearts)
    else if SuitCount(m, Spades) >= 5 then Some(Spades)
    else None
  }

  lemma RankCountAdd(m: multiset<Card>, c: Card, v: int)
    ensures RankCount(m + multiset{c}, v) == RankCount(m, v) + (if RankValue(c.rank) == v then 1 else 0)
  {
    if 0 <= v <= 12 {
      RankAtValue(c.rank);
      var r := RankAt(v);
      if RankValue(c.rank) == v {
        assert c.rank == r;
        var m' := m + multiset{c};
        assert m'[Card(r, Clubs)] == m[Card(r, Clubs)] + (if c.suit == Clubs then 1 else 0);
        assert m'[Card(r, Diamonds)] == m[Card(r, Diamonds)] + (if c.suit == Diamonds then 1 else 0);
        assert m'[Card(r, Hearts)] == m[Card(r, Hearts)] + (if c.suit == Hearts then 1 else 0);
        assert m'[Card(r, Spades)] == m[Card(r, Spades)] + (if c.suit == Spades then 1 else 0);
      } else {
        assert c != Card(r, Clubs) && c != Card(r, Diamonds) && c != Card(r, Hearts) && c != Card(r, Spades);
      }
    }
  }

  lemma {:induction false} SumIncrement(xs: seq<nat>, i: nat)
    requires i < |xs|
    ensures Sum(xs[i := xs[i] + 1]) == Sum(xs) + 1
  {
    if i > 0 {
      SumIncrement(xs[1..], i - 1);
      assert xs[i := xs[i] + 1][1..] == xs[1..][i - 1 := xs[i] + 1];
    }
  }

  lemma SuitCountAdd(m: multiset<Card>, c: Card, s: Suit)
    ensures SuitCount(m + multiset{c}, s) == SuitCount(m, s) + (if c.suit == s then 1 else 0)
  {
    var v := RankValue(c.rank);
    RankAtValue(c.rank);
    if c.suit == s {
      assert SuitRanks(m + multiset{c}, s) == SuitRanks(m, s)[v := SuitRanks(m, s)[v] + 1];
      SumIncrement(SuitRanks(m, s), v);
    } else {
      assert SuitRanks(m + multiset{c}, s) == SuitRanks(m, s);
    }
  }

  // ---------------------------------------------------------------------
  // Descending rank lists
  // ---------------------------------------------------------------------

  predicate NonIncreasing(s: seq<int>) {
    forall i, j :: 0 <= i < j < |s| ==> s[i] >= s[j]
  }

  predicate Decreasing(s: seq<int>) {
    forall i, j :: 0 <= i < j < |s| ==> s[i] > s[j]
  }

  predicate InRankRange(s: seq<int>) {
    forall i :: 0 <= i < |s| ==> 0 <= s[i] <= 12
  }

  /** Rank values v down to 0, each repeated as often as counts says. */
  function ExpandFrom(counts: seq<nat>, v: int): (r: seq<int>)
    requires |counts| == 13 && -1 <= v <= 12
    ensures forall i :: 0 <= i < |r| ==> 0 <= r[i] <= v
    ensures NonIncreasing(r)
    decreases v + 1
  {
    if v < 0 then [] else seq(counts[v], _ => v) + ExpandFrom(counts, v - 1)
  }

  /** The ranks of a pool with their multiplicities, highest first. */
  function Expand(counts: seq<nat>): (r: seq<int>)
    requires |counts| == 13
    ensures InRankRange(r) && NonIncreasing(r)
  {
    ExpandFrom(counts, 12)
  }

  lemma {:induction false} ExpandFromCount(counts: seq<nat>, v: int, x: int)
    requires |counts| == 13 && -1 <= v <= 12
    ensures multiset(ExpandFrom(counts, v))[x] == if 0 <= x <= v then counts[x] else 0
    decreases v + 1
  {
    if v >= 0 {
      ExpandFromCount(counts, v - 1, x);
      var rep := seq(counts[v], _ => v);
      assert multiset(rep)[x] == if x == v then counts[v] else 0 by {
        RepeatCount(v, counts[v], x);
      }
      assert ExpandFrom(counts, v) == rep + ExpandFrom(counts, v - 1);
    }
  }

  lemma {:induction false} RepeatCount(v: int, n: nat, x: int)
    ensures multiset(seq(n, _ => v))[x] == if x == v then n else 0
  {
    if n > 0 {
      RepeatCount(v, n - 1, x);
      assert seq(n, _ => v) == seq(n - 1, _ => v) + [v];
    }
  }

  /** Every value of the expansion occurs as often as counts says. */
  lemma ExpandCount(counts: seq<nat>, x: int)
    requires |counts| == 13
    ensures multiset(Expand(counts))[x] == if 0 <= x <= 12 then counts[x] else 0
  {
    ExpandFromCount(counts, 12, x);
  }

  /** Two non-increasing sequences with the same elements are equal. */
  lemma {:induction false} SortedUnique(a: seq<int>, b: seq<int>)
    requires NonIncreasing(a) && NonIncreasing(b) && multiset(a) == multiset(b)
    ensures a == b
  {
    if a != [] {
      SameHead(a, b);
      SortedUnique(a[1..], b[1..]);
      SameParts(a, b);
    } else {
      assert |multiset(b)| == 0;
    }
  }

  /** Two non-increasing sequences with the same elements start alike and agree on their tails' elements. */
  lemma SameHead(a: seq<int>, b: seq<int>)
    requires a != [] && NonIncreasing(a) && NonIncreasing(b) && multiset(a) == multiset(b)
    ensures b != [] && a[0] == b[0]
    ensures NonIncreasing(a[1..]) && NonIncreasing(b[1..]) && multiset(a[1..]) == multiset(b[1..])
  {
    assert a[0] in multiset(b);
    HeadIsLargest(b, a[0]);
    assert b[0] in multiset(a);
    HeadIsLargest(a, b[0]);
    TailMultiset(a);
    TailMultiset(b);
  }

  lemma SameParts(a: seq<int>, b: seq<int>)
    requires a != [] && b != [] && a[0] == b[0] && a[1..] == b[1..]
    ensures a == b
  {
    assert a == [a[0]] + a[1..] && b == [b[0]] + b[1..];
  }

  lemma HeadIsLargest(s: seq<int>, x: int)
    requires NonIncreasing(s) && x in multiset(s)
    ensures s != [] && x <= s[0]
  {
    var i :| 0 <= i < |s| && s[i] == x;
    assert i == 0 || s[0] >= s[i];
  }

  lemma TailMultiset(s: seq<int>)
    requires s != []
    ensures multiset(s[1..]) == multiset(s) - multiset{s[0]}
  {
    assert s == [s[0]] + s[1..];
  }

  // ---------------------------------------------------------------------
  // The sorted pool and the sequences derived from it
  // ---------------------------------------------------------------------

  predicate SortedByRank(cs: seq<Card>) {
    forall i, j :: 0 <= i < j < |cs| ==> RankValue(cs[i].rank) >= RankValue(cs[j].rank)
  }

  function Insert(c: Card, sorted: seq<Card>): (r: seq<Card>)
    requires SortedByRank(sorted)
    ensures multiset(r) == multiset(sorted) + multiset{c}
    ensures SortedByRank(r)
    ensures forall i :: 0 <= i < |r| ==> r[i] == c || r[i] in sorted
  {
    if sorted == [] || RankValue(c.rank) >= RankValue(sorted[0].rank) then
      InsertFront(c, sorted);
      [c] + sorted
    else
      SortedTail(sorted);
      var rest := Insert(c, sorted[1..]);
      InsertBehind(c, sorted, rest);
      [sorted[0]] + rest
  }

  lemma InsertFront(c: Card, sorted: seq<Card>)
    requires SortedByRank(sorted)
    requires sorted == [] || RankValue(c.rank) >= RankValue(sorted[0].rank)
    ensures SortedByRank([c] + sorted)
  {
    var r := [c] + sorted;
    forall i, j | 0 <= i < j < |r| ensures RankValue(r[i].rank) >= RankValue(r[j].rank) {
      if i == 0 {
        assert r[j] == sorted[j - 1];
        assert j - 1 == 0 || RankValue(sorted[0].rank) >= RankValue(sorted[j - 1].rank);
      } else {
        assert r[i] == sorted[i - 1] && r[j] == sorted[j - 1];
      }
    }
  }

  lemma SortedTail(sorted: seq<Card>)
    requires SortedByRank(sorted) && sorted != []
    ensures SortedByRank(sorted[1..])
  {
    forall i, j | 0 <= i < j < |sorted| - 1
      ensures RankValue(sorted[1..][i].rank) >= RankValue(sorted[1..][j].rank)
    {
      assert sorted[1..][i] == sorted[i + 1] && sorted[1..][j] == sorted[j + 1];
    }
  }

  /** Putting the head back in front of the insertion into the tail. */
  lemma InsertBehind(c: Card, sorted: seq<Card>, rest: seq<Card>)
    requires SortedByRank(sorted) && sorted != [] && RankValue(c.rank) < RankValue(sorted[0].rank)
    requires multiset(rest) == multiset(sorted[1..]) + multiset{c}
    requires SortedByRank(rest)
    requires forall i :: 0 <= i < |rest| ==> rest[i] == c || rest[i] in sorted[1..]
    ensures multiset([sorted[0]] + rest) == multiset(sorted) + multiset{c}
    ensures SortedByRank([sorted[0]] + rest)
    ensures forall i :: 0 <= i < |[sorted[0]] + rest| ==> ([sorted[0]] + rest)[i] == c || ([sorted[0]] + rest)[i] in sorted
  {
    assert sorted == [sorted[0]] + sorted[1..];
    var r := [sorted[0]] + rest;
    forall i | 0 <= i < |rest| ensures RankValue(sorted[0].rank) >= RankValue(rest[i].rank) {
      if rest[i] != c {
        var k :| 0 <= k < |sorted[1..]| && sorted[1..][k] == rest[i];
        assert rest[i] == sorted[k + 1];
      }
    }
    forall i, j | 0 <= i < j < |r| ensures RankValue(r[i].rank) >= RankValue(r[j].rank) {
      if i == 0 {
        assert r[j] == rest[j - 1];
      } else {
        assert r[i] == rest[i - 1] && r[j] == rest[j - 1];
      }
    }
    forall i | 0 <= i < |r| ensures r[i] == c || r[i] in sorted {
      if i > 0 {
        assert r[i] == rest[i - 1];
      }
    }
  }

  /**
   * The cards ordered by rank, highest first; cards of equal rank keep their
   * order (the stable library sort).
   */
  function SortByRank(cs: seq<Card>): (r: seq<Card>)
    ensures multiset(r) == multiset(cs)
    ensures SortedByRank(r)
  {
    if cs == [] then []
    else
      assert cs == [cs[0]] + cs[1..];
      Insert(cs[0], SortByRank(cs[1..]))
  }

  /** The rank value of each card, in order (the `ranks` of the source). */
  function RanksOf(cs: seq<Card>): (r: seq<int>)
    ensures |r| == |cs| && forall k :: 0 <= k < |cs| ==> r[k] == RankValue(cs[k].rank)
  {
    seq(|cs|, k requires 0 <= k < |cs| => RankValue(cs[k].rank))
  }

  /** The suit value of each card, in order (the `suits` of the source). */
  function SuitsOf(cs: seq<Card>): (r: seq<int>)
    ensures |r| == |cs| && forall k :: 0 <= k < |cs| ==> r[k] == SuitValue(cs[k].suit)
  {
    seq(|cs|, k requires 0 <= k < |cs| => SuitValue(cs[k].suit))
  }

  /** The rank value of each card of suit s, in order (the flush cards' ranks). */
  function SuitRanksOf(cs: seq<Card>, s: Suit): (r: seq<int>)
    ensures InRankRange(r)
  {
    if cs == [] then []
    else (if cs[0].suit == s then [RankValue(cs[0].rank)] else []) + SuitRanksOf(cs[1..], s)
  }

  lemma {:induction false} RanksOfCount(cs: seq<Card>, x: int)
    ensures multiset(RanksOf(cs))[x] == RankCount(multiset(cs), x)
  {
    if cs != [] {
      var n := |cs|;
      RanksOfCount(cs[..n - 1], x);
      assert cs == cs[..n - 1] + [cs[n - 1]];
      assert RanksOf(cs) == RanksOf(cs[..n - 1]) + [RankValue(cs[n - 1].rank)];
      RankCountAdd(multiset(cs[..n - 1]), cs[n - 1], x);
    } else {
      assert multiset(cs) == multiset{};
    }
  }

  lemma {:induction false} SuitsOfCount(cs: seq<Card>, s: Suit)
    ensures multiset(SuitsOf(cs))[SuitValue(s)] == SuitCount(multiset(cs), s)
  {
    if cs != [] {
      var n := |cs|;
      SuitsOfCount(cs[..n - 1], s);
      assert cs == cs[..n - 1] + [cs[n - 1]];
      assert SuitsOf(cs) == SuitsOf(cs[..n - 1]) + [SuitValue(cs[n - 1].suit)];
      SuitCountAdd(multiset(cs[..n - 1]), cs[n - 1], s);
    } else {
      assert multiset(cs) == multiset{};
      assert SuitRanks(multiset{}, s) == seq(13, _ => 0);
      ZeroSum(13);
    }
  }

  lemma {:induction false} ZeroSum(n: nat)
    ensures Sum(seq(n, _ => 0)) == 0
  {
    if n > 0 {
      ZeroSum(n - 1);
      assert seq(n, _ => 0)[1..] == seq(n - 1, _ => 0);
    }
  }

  lemma {:induction false} SuitRanksOfCount(cs: seq<Card>, s: Suit, x: int)
    requires 0 <= x <= 12
    ensures multiset(SuitRanksOf(cs, s))[x] == multiset(cs)[Card(RankAt(x), s)]
  {
    if cs != [] {
      SuitRanksOfCount(cs[1..], s, x);
      assert cs == [cs[0]] + cs[1..];
      assert multiset(cs) == multiset{cs[0]} + multiset(cs[1..]);
      RankAtValue(cs[0].rank);
      var head := if cs[0].suit == s then [RankValue(cs[0].rank)] else [];
      assert SuitRanksOf(cs, s) == head + SuitRanksOf(cs[1..], s);
      assert multiset(head)[x] == multiset{cs[0]}[Card(RankAt(x), s)];
    } else {
      assert multiset(cs) == multiset{};
    }
  }

  lemma {:induction false} SuitRanksOfBounded(cs: seq<Card>, s: Suit, bound: int)
    requires forall k :: 0 <= k < |cs| ==> RankValue(cs[k].rank) <= bound
    ensures forall k :: 0 <= k < |SuitRanksOf(cs, s)| ==> SuitRanksOf(cs, s)[k] <= bound
  {
    if cs != [] {
      SuitRanksOfBounded(cs[1..], s, bound);
    }
  }

  lemma {:induction false} SuitRanksOfSorted(cs: seq<Card>, s: Suit)
    requires SortedByRank(cs)
    ensures NonIncreasing(SuitRanksOf(cs, s))
  {
    if cs != [] {
      SuitRanksOfSorted(cs[1..], s);
      SuitRanksOfBounded(cs[1..], s, RankValue(cs[0].rank));
    }
  }

  /** The sorted ranks of a pool are its expansion. */
  lemma SortedRanks(cs: seq<Card>)
    requires SortedByRank(cs)
    ensures RanksOf(cs) == Expand(RankCounts(multiset(cs)))
  {
    RanksMultiset(cs);
    assert NonIncreasing(RanksOf(cs));
    SortedUnique(RanksOf(cs), Expand(RankCounts(multiset(cs))));
  }

  lemma RanksMultiset(cs: seq<Card>)
    ensures multiset(RanksOf(cs)) == multiset(Expand(RankCounts(multiset(cs))))
  {
    var counts := RankCounts(multiset(cs));
    var e := Expand(counts);
    var r := RanksOf(cs);
    forall x ensures multiset(r)[x] == multiset(e)[x] {
      RanksOfCount(cs, x);
      ExpandCount(counts, x);
      if 0 <= x <= 12 {
        assert counts[x] == RankCount(multiset(cs), x);
      }
    }
  }

  /** The sorted ranks of one suit's cards are the expansion of that suit's counts. */
  lemma SortedSuitRanks(cs: seq<Card>, s: Suit)
    requires SortedByRank(cs)
    ensures SuitRanksOf(cs, s) == Expand(SuitRanks(multiset(cs), s))
  {
    SuitRanksMultiset(cs, s);
    SuitRanksOfSorted(cs, s);
    SortedUnique(SuitRanksOf(cs, s), Expand(SuitRanks(multiset(cs), s)));
  }

  lemma SuitRanksMultiset(cs: seq<Card>, s: Suit)
    ensures multiset(SuitRanksOf(cs, s)) == multiset(Expand(SuitRanks(multiset(cs), s)))
  {
    SuitRanksCountsAgree(cs, s);
    SameMultiset(multiset(SuitRanksOf(cs, s)), multiset(Expand(SuitRanks(multiset(cs), s))));
  }

  lemma SuitRanksCountsAgree(cs: seq<Card>, s: Suit)
    ensures forall x :: multiset(SuitRanksOf(cs, s))[x] == multiset(Expand(SuitRanks(multiset(cs), s)))[x]
  {
    forall x ensures multiset(SuitRanksOf(cs, s))[x] == multiset(Expand(SuitRanks(multiset(cs), s)))[x] {
      SuitRanksCountAt(cs, s, x);
    }
  }

  lemma SameMultiset(a: multiset<int>, b: multiset<int>)
    requires forall x :: a[x] == b[x]
    ensures a == b
  {
    forall x ensures a[x] == b[x] {
    }
    assert a == b;
  }

  lemma SuitRanksCountAt(cs: seq<Card>, s: Suit, x: int)
    ensures multiset(SuitRanksOf(cs, s))[x] == multiset(Expand(SuitRanks(multiset(cs), s)))[x]
  {
    ExpandCount(SuitRanks(multiset(cs), s), x);
    if 0 <= x <= 12 {
      SuitRanksOfCount(cs, s, x);
    } else {
      assert x !in SuitRanksOf(cs, s);
    }
  }

  // ---------------------------------------------------------------------
  // Straights
  // ---------------------------------------------------------------------

  /** The rank values of a sequence, as a set. */
  function Values(s: seq<int>): set<int> {
    set x | x in s
  }

  /** The rank values present in a pool, given its counts. */
  function Present(counts: seq<nat>): set<int>
    requires |counts| == 13
  {
    set v | 0 <= v < 13 && counts[v] > 0
  }

  /** The five rank values h - 4 .. h are all present. */
  predicate Window(S: set<int>, h: int) {
    h in S && h - 1 in S && h - 2 in S && h - 3 in S && h - 4 in S
  }

  /** Ace, Two, Three, Four and Five are all present: the five-high straight. */
  predicate Wheel(S: set<int>) {
    12 in S && 0 in S && 1 in S && 2 in S && 3 in S
  }

  function BestStraightFrom(S: set<int>, h: int): (r: int)
    requires 3 <= h <= 12
    ensures r == -1 || r == 3 || 4 <= r <= h
    ensures r >= 4 ==> Window(S, r)
    ensures forall k :: 4 <= k <= h && r < k ==> !Window(S, k)
    ensures r < 4 ==> (r == 3 <==> Wheel(S))
    decreases h
  {
    if h == 3 then (if Wheel(S) then 3 else -1)
    else if Window(S, h) then h
    else BestStraightFrom(S, h - 1)
  }

  /**
   * The high card of the best straight among a set of rank values: the
   * highest h whose five ranks down to h - 4 are present, else 3 (five high)
   * for the wheel, else -1 for none.
   */
  function BestStraight(S: set<int>): (r: int)
    ensures r == -1 || r == 3 || 4 <= r <= 12
    ensures r >= 4 ==> Window(S, r)
    ensures forall k :: 4 <= k <= 12 && r < k ==> !Window(S, k)
    ensures r < 4 ==> (r == 3 <==> Wheel(S))
  {
    BestStraightFrom(S, 12)
  }

  function DescendingFrom(S: set<int>, v: int): (r: seq<int>)
    requires -1 <= v <= 12
    ensures Decreasing(r) && InRankRange(r)
    ensures forall i :: 0 <= i < |r| ==> r[i] <= v
    ensures forall x :: x in r <==> x in S && 0 <= x <= v
    decreases v + 1
  {
    if v < 0 then [] else (if v in S then [v] else []) + DescendingFrom(S, v - 1)
  }

  /** The distinct rank values of a set, highest first (a set turned into a sorted array). */
  function Descending(S: set<int>): (r: seq<int>)
    ensures Decreasing(r) && InRankRange(r)
    ensures forall x :: x in r <==> x in S && 0 <= x <= 12
  {
    DescendingFrom(S, 12)
  }

  /** Sorting the distinct values of a sequence of rank values keeps its values. */
  lemma DescendingValues(rs: seq<int>)
    requires InRankRange(rs)
    ensures Values(Descending(Values(rs))) == Values(rs)
  {
    var d := Descending(Values(rs));
    forall x | x in Values(rs) ensures x in Values(d) {
      var k :| 0 <= k < |rs| && rs[k] == x;
    }
  }

  /** In a decreasing sequence, the value one below an entry, if present, comes right after it. */
  lemma NextBelow(rks: seq<int>, p: int)
    requires Decreasing(rks) && 0 <= p < |rks| && rks[p] - 1 in rks
    ensures p + 1 < |rks| && rks[p + 1] == rks[p] - 1
  {
    var q :| 0 <= q < |rks| && rks[q] == rks[p] - 1;
    assert p < q;
  }

  /** A window of five present values sits at five consecutive positions. */
  lemma WindowAt(rks: seq<int>, p: int)
    requires Decreasing(rks) && 0 <= p < |rks| && Window(Values(rks), rks[p])
    ensures p + 4 < |rks| && rks[p] - rks[p + 4] == 4
  {
    var h := rks[p];
    assert h - 1 in rks && h - 2 in rks && h - 3 in rks && h - 4 in rks;
    NextBelow(rks, p);
    NextBelow(rks, p + 1);
    NextBelow(rks, p + 2);
    NextBelow(rks, p + 3);
  }

  /** Five decreasing values spanning four are a window. */
  lemma SpanFour(rks: seq<int>, i: int)
    requires Decreasing(rks) && 0 <= i && i + 4 < |rks| && rks[i] - rks[i + 4] == 4
    ensures Window(Values(rks), rks[i])
  {
    assert rks[i + 1] == rks[i] - 1 && rks[i + 2] == rks[i] - 2 && rks[i + 3] == rks[i] - 3;
    assert rks[i + 1] in rks && rks[i + 2] in rks && rks[i + 3] in rks && rks[i + 4] in rks;
  }

  /** The first window found by the scan is the best straight. */
  lemma FirstWindowIsBest(rks: seq<int>, i: int)
    requires Decreasing(rks) && InRankRange(rks)
    requires 0 <= i && i + 4 < |rks| && rks[i] - rks[i + 4] == 4
    requires forall p :: 0 <= p < i && p + 4 < |rks| ==> rks[p] - rks[p + 4] != 4
    ensures rks[i] == BestStraight(Values(rks))
  {
    SpanFour(rks, i);
    forall k | rks[i] < k <= 12 && Window(Values(rks), k) ensures false {
      var p :| 0 <= p < |rks| && rks[p] == k;
      WindowAt(rks, p);
    }
  }

  /** Without five consecutive entries, only the wheel can be a straight. */
  lemma NoWindow(rks: seq<int>)
    requires Decreasing(rks) && InRankRange(rks)
    requires forall p :: 0 <= p && p + 4 < |rks| ==> rks[p] - rks[p + 4] != 4
    ensures BestStraight(Values(rks)) == if Wheel(Values(rks)) then 3 else -1
  {
    forall k | 4 <= k <= 12 && Window(Values(rks), k) ensures false {
      var p :| 0 <= p < |rks| && rks[p] == k;
      WindowAt(rks, p);
    }
  }

  /**
   * getStraightHigh: scans the distinct ranks, highest first, for five in a
   * row, then checks the wheel.
   */
  method GetStraightHigh(rks: seq<int>) returns (high: int)
    requires Decreasing(rks) && InRankRange(rks)
    ensures high == BestStraight(Values(rks))
  {
    var i := 0;
    while i <= |rks| - 5
      invariant 0 <= i
      invariant forall p :: 0 <= p < i && p + 4 < |rks| ==> rks[p] - rks[p + 4] != 4
    {
      if rks[i] - rks[i + 4] == 4 {
        FirstWindowIsBest(rks, i);
        return rks[i];
      }
      i := i + 1;
    }
    NoWindow(rks);
    if 12 in rks && 0 in rks && 1 in rks && 2 in rks && 3 in rks {
      return 3;
    }
    return -1;
  }

  // ---------------------------------------------------------------------
  // Classification
  // ---------------------------------------------------------------------

  /**
   * The lowest rank value that occurs exactly k times, searching upward from
   * v (the integer keys of a record are visited in ascending order).
   */
  function FirstWithCount(counts: seq<nat>, k: nat, v: nat): (r: Option<int>)
    requires |counts| == 13 && v <= 13
    ensures r.Some? ==> v <= r.value < 13 && counts[r.value] == k
    ensures forall w :: v <= w < 13 && (r.None? || w < r.value) ==> counts[w] != k
    decreases 13 - v
  {
    if v == 13 then None
    else if counts[v] == k then Some(v)
    else FirstWithCount(counts, k, v + 1)
  }

  /** The rank values from v down that occur exactly k times, highest first. */
  function WithCount(counts: seq<nat>, k: nat, v: int): (r: seq<int>)
    requires |counts| == 13 && -1 <= v <= 12
    ensures Decreasing(r) && InRankRange(r)
    ensures forall i :: 0 <= i < |r| ==> r[i] <= v
    ensures forall x :: x in r <==> 0 <= x <= v && counts[x] == k
    decreases v + 1
  {
    if v < 0 then []
    else
      var rest := WithCount(counts, k, v - 1);
      if counts[v] == k then [v] + rest else rest
  }

  /** The first n entries (a slice from 0 to n). */
  function Take(s: seq<int>, n: nat): (r: seq<int>)
    ensures |r| == if |s| < n then |s| else n
    ensures r == s[..|r|]
  {
    if |s| <= n then s else s[..n]
  }

  /** The entries different from x, in order. */
  function Without(s: seq<int>, x: int): (r: seq<int>)
    ensures forall y :: y in r <==> y in s && y != x
  {
    if s == [] then [] else (if s[0] == x then [] else [s[0]]) + Without(s[1..], x)
  }

  /** What the evaluator derives from a pool before it decides the hand type. */
  datatype Features = Features(
    ranks: seq<int>,               // all rank values, highest first
    four: Option<int>,             // a rank value occurring four times
    three: seq<int>,               // rank values occurring three times, highest first
    pairs: seq<int>,               // rank values occurring twice, highest first
    flushRanks: Option<seq<int>>,  // the ranks of the flush suit, highest first, if any
    straightHigh: int,             // high card of the best straight, or -1
    straightFlushHigh: int)        // high card of the best straight in the flush suit, or -1

  /** A hand type (an index into the hand type names), its main ranks and its kickers. */
  datatype Classification = Classification(typeIndex: nat, mainRanks: seq<int>, kickers: seq<int>)

  /** The features the evaluator derives, as functions of the pool. */
  function FeaturesOf(m: multiset<Card>): Features {
    var counts := RankCounts(m);
    var fs := FlushSuit(m);
    Features(
      Expand(counts),
      FirstWithCount(counts, 4, 0),
      WithCount(counts, 3, 12),
      WithCount(counts, 2, 12),
      if fs.Some? then Some(Expand(SuitRanks(m, fs.value))) else None,
      BestStraight(Present(counts)),
      if fs.Some? then BestStraight(Present(SuitRanks(m, fs.value))) else -1)
  }

  /** The hand type decision, from straight flush down to high card. */
  function Classify(f: Features): Classification {
    if f.straightFlushHigh != -1 then
      Classification(8, [f.straightFlushHigh], [])
    else if f.four.Some? then
      Classification(7, [f.four.value], Take(Without(f.ranks, f.four.value), 1))
    else if |f.three| >= 1 && |f.pairs| >= 1 then
      Classification(6, [f.three[0], f.pairs[0]], [])
    else if |f.three| >= 2 then
      Classification(6, [f.three[0], f.three[1]], [])
    else if f.flushRanks.Some? then
      Classification(5, Take(f.flushRanks.value, 5), [])
    else if f.straightHigh != -1 then
      Classification(4, [f.straightHigh], [])
    else if |f.three| == 1 then
      Classification(3, [f.three[0]], Take(Without(f.ranks, f.three[0]), 2))
    else if |f.pairs| >= 2 then
      Classification(2, [f.pairs[0], f.pairs[1]], Take(Without(Without(f.ranks, f.pairs[0]), f.pairs[1]), 1))
    else if |f.pairs| == 1 then
      Classification(1, [f.pairs[0]], Take(Without(f.ranks, f.pairs[0]), 3))
    else
      Classification(0, [], Take(f.ranks, 5))
  }

  // ---------------------------------------------------------------------
  // Score and description
  // ---------------------------------------------------------------------

  /** An entry, or 0 where the entry is missing (`x[i] || 0`). */
  function At(s: seq<int>, i: nat): int {
    if i < |s| then s[i] else 0
  }

  /**
   * The score, in hundredths of the source's number: type times 10^8, the
   * first main rank times 10^6, the second times 10^4; for a flush or a high
   * card the five ranks again with weights 10^6, 10^4, 100, 1 and 0.01
   * (so a flush counts its first two ranks twice); for the other types the
   * kickers with weights 100, 1 and 0.01.
   */
  function Score(c: Classification): int {
    var typePart := c.typeIndex * 10_000_000_000;
    var mainPart :=
      (if |c.mainRanks| > 0 then c.mainRanks[0] * 100_000_000 else 0) +
      (if |c.mainRanks| > 1 then c.mainRanks[1] * 1_000_000 else 0);
    var restPart :=
      if c.typeIndex == 5 || c.typeIndex == 0 then
        var sr := if c.typeIndex == 5 then c.mainRanks else c.kickers;
        At(sr, 0) * 100_000_000 + At(sr, 1) * 1_000_000 + At(sr, 2) * 10_000 + At(sr, 3) * 100 + At(sr, 4)
      else
        (if |c.kickers| > 0 then c.kickers[0] * 10_000 else 0) +
        (if |c.kickers| > 1 then c.kickers[1] * 100 else 0) +
        (if |c.kickers| > 2 then c.kickers[2] else 0);
    typePart + mainPart + restPart
  }

  /** The rank name of an entry; a missing entry prints as "undefined". */
  function NameAt(s: seq<int>, i: nat): string {
    if i < |s| then RankName(s[i]) else "undefined"
  }

  /** The description of a classified hand. */
  function Describe(c: Classification): string {
    var m0 := NameAt(c.mainRanks, 0);
    var m1 := NameAt(c.mainRanks, 1);
    match c.typeIndex
    case 8 => m0 + "-High Straight Flush"
    case 7 => "Four of a Kind, " + m0 + "s"
    case 6 => "Full House, " + m0 + "s full of " + m1 + "s"
    case 5 => "Flush, " + m0 + " High"
    case 4 => "Straight, " + m0 + " High"
    case 3 => "Three of a Kind, " + m0 + "s"
    case 2 => "Two Pair, " + m0 + "s and " + m1 + "s"
    case 1 => "Pair of " + m0 + "s"
    case _ => "High Card " + NameAt(c.kickers, 0)
  }

  datatype HandResult = HandResult(score: int, typeIndex: nat, description: string, kickers: seq<int>)

  function ResultOf(c: Classification): HandResult {
    HandResult(Score(c), c.typeIndex, Describe(c), c.kickers)
  }

  /** The result of evaluating a pool: "Fold" with score 0 for no cards. */
  function Evaluate(m: multiset<Card>): HandResult {
    if |m| == 0 then HandResult(0, 0, "Fold", [])
    else ResultOf(Classify(FeaturesOf(m)))
  }

  // ---------------------------------------------------------------------
  // The evaluator's loops
  // ---------------------------------------------------------------------

  /** The rank tally: how often each rank value occurs. */
  method TallyRanks(ranks: seq<int>) returns (counts: seq<nat>)
    requires InRankRange(ranks)
    ensures |counts| == 13
    ensures forall v :: 0 <= v < 13 ==> counts[v] == multiset(ranks)[v]
  {
    counts := seq(13, _ => 0);
    var i := 0;
    while i < |ranks|
      invariant 0 <= i <= |ranks| && |counts| == 13
      invariant forall v :: 0 <= v < 13 ==> counts[v] == multiset(ranks[..i])[v]
    {
      var r := ranks[i];
      assert ranks[..i + 1] == ranks[..i] + [r];
      counts := counts[r := counts[r] + 1];
      i := i + 1;
    }
    assert ranks[..i] == ranks;
  }

  /** The suit tally after the suits seen: their counts, and a suit that reached five if one did. */
  predicate SuitTally(suitCounts: seq<nat>, flushSuit: int, seen: seq<int>) {
    |suitCounts| == 4 &&
    (forall v :: 0 <= v < 4 ==> suitCounts[v] == multiset(seen)[v]) &&
    suitCounts[0] + suitCounts[1] + suitCounts[2] + suitCounts[3] == |seen| &&
    -1 <= flushSuit <= 3 &&
    (flushSuit == -1 ==> forall v :: 0 <= v < 4 ==> suitCounts[v] < 5) &&
    (flushSuit != -1 ==> suitCounts[flushSuit] >= 5)
  }

  /**
   * The suit tally: the suit value that reaches five cards, or -1. The source
   * keeps the last suit to reach five; with at most seven cards there is at
   * most one.
   */
  method FindFlushSuit(suits: seq<int>) returns (flushSuit: int)
    requires |suits| <= 7 && forall i :: 0 <= i < |suits| ==> 0 <= suits[i] <= 3
    ensures -1 <= flushSuit <= 3
    ensures flushSuit == -1 <==> forall v :: 0 <= v < 4 ==> multiset(suits)[v] < 5
    ensures flushSuit != -1 ==> multiset(suits)[flushSuit] >= 5
    ensures forall v :: 0 <= v < 4 && v != flushSuit ==> multiset(suits)[v] < 5
  {
    var suitCounts: seq<nat> := [0, 0, 0, 0];
    flushSuit := -1;
    var i := 0;
    while i < |suits|
      invariant 0 <= i <= |suits| && SuitTally(suitCounts, flushSuit, suits[..i])
    {
      suitCounts, flushSuit := CountSuit(suitCounts, flushSuit, suits, i);
      i := i + 1;
    }
    assert suits[..i] == suits;
    FlushOfTally(suitCounts, flushSuit, suits);
  }

  /** One card of the suit tally: count its suit, and note the suit once it reaches five. */
  method CountSuit(suitCounts: seq<nat>, flushSuit: int, suits: seq<int>, i: nat)
      returns (suitCounts': seq<nat>, flushSuit': int)
    requires i < |suits| && 0 <= suits[i] <= 3 && SuitTally(suitCounts, flushSuit, suits[..i])
    ensures suitCounts' == suitCounts[suits[i] := suitCounts[suits[i]] + 1]
    ensures flushSuit' == if suitCounts'[suits[i]] >= 5 then suits[i] else flushSuit
    ensures SuitTally(suitCounts', flushSuit', suits[..i + 1])
  {
    var s := suits[i];
    assert suits[..i + 1] == suits[..i] + [s];
    suitCounts' := suitCounts[s := suitCounts[s] + 1];
    flushSuit' := flushSuit;
    if suitCounts'[s] >= 5 {
      flushSuit' := s;
    }
  }

  /** What the finished tally says about the suits. */
  lemma FlushOfTally(suitCounts: seq<nat>, flushSuit: int, suits: seq<int>)
    requires |suits| <= 7 && SuitTally(suitCounts, flushSuit, suits)
    ensures -1 <= flushSuit <= 3
    ensures flushSuit == -1 <==> forall v :: 0 <= v < 4 ==> multiset(suits)[v] < 5
    ensures flushSuit != -1 ==> multiset(suits)[flushSuit] >= 5
    ensures forall v :: 0 <= v < 4 && v != flushSuit ==> multiset(suits)[v] < 5
  {
    AtMostOneFive(suitCounts);
  }

  /** Four counts summing to at most seven: at most one of them reaches five. */
  lemma AtMostOneFive(sc: seq<nat>)
    requires |sc| == 4 && sc[0] + sc[1] + sc[2] + sc[3] <= 7
    ensures forall v, w :: 0 <= v < 4 && 0 <= w < 4 && v != w && sc[v] >= 5 ==> sc[w] < 5
  {
  }

  /** The loop's rank tally of the sorted pool is the pool's rank counts. */
  lemma TallyIsRankCounts(nums: seq<Card>, counts: seq<nat>)
    requires |counts| == 13 && forall v :: 0 <= v < 13 ==> counts[v] == multiset(RanksOf(nums))[v]
    ensures counts == RankCounts(multiset(nums))
  {
    forall v | 0 <= v < 13 ensures counts[v] == RankCounts(multiset(nums))[v] {
      RanksOfCount(nums, v);
    }
  }

  /** The values of a sequence of rank values are those with a non-zero count. */
  lemma ValuesPresent(rs: seq<int>, counts: seq<nat>)
    requires InRankRange(rs) && |counts| == 13
    requires forall v :: 0 <= v < 13 ==> counts[v] == multiset(rs)[v]
    ensures Values(rs) == Present(counts)
  {
    forall x ensures x in Values(rs) <==> x in Present(counts) {
      if x in rs {
        var k :| 0 <= k < |rs| && rs[k] == x;
        assert multiset(rs)[x] > 0;
      }
      if 0 <= x < 13 && counts[x] > 0 {
        assert x in multiset(rs);
      }
    }
  }

  /** The suit value the suit tally finds is the one of the pool's flush suit. */
  lemma FlushSuitAgrees(nums: seq<Card>, flushSuit: int)
    requires -1 <= flushSuit <= 3
    requires flushSuit == -1 <==> forall v :: 0 <= v < 4 ==> multiset(SuitsOf(nums))[v] < 5
    requires flushSuit != -1 ==> multiset(SuitsOf(nums))[flushSuit] >= 5
    requires forall v :: 0 <= v < 4 && v != flushSuit ==> multiset(SuitsOf(nums))[v] < 5
    ensures var fs := FlushSuit(multiset(nums));
      flushSuit == if fs.Some? then SuitValue(fs.value) else -1
  {
    SuitsOfCount(nums, Clubs);
    SuitsOfCount(nums, Diamonds);
    SuitsOfCount(nums, Hearts);
    SuitsOfCount(nums, Spades);
  }

  /** The flush cards' ranks are the flush suit's expansion, and their values the ranks present in it. */
  lemma FlushRanksAgree(nums: seq<Card>, s: Suit)
    requires SortedByRank(nums)
    ensures SuitRanksOf(nums, s) == Expand(SuitRanks(multiset(nums), s))
    ensures Values(SuitRanksOf(nums, s)) == Present(SuitRanks(multiset(nums), s))
  {
    SortedSuitRanks(nums, s);
    var fr := SuitRanksOf(nums, s);
    var counts := SuitRanks(multiset(nums), s);
    forall v | 0 <= v < 13 ensures counts[v] == multiset(fr)[v] {
      SuitRanksOfCount(nums, s, v);
    }
    ValuesPresent(fr, counts);
  }

  /** The rank tally, the groups of equal ranks, and the straight. */
  method RankFeatures(nums: seq<Card>)
      returns (ranks: seq<int>, four: Option<int>, three: seq<int>, pairs: seq<int>, straightHigh: int)
    requires SortedByRank(nums)
    ensures var counts := RankCounts(multiset(nums));
      ranks == Expand(counts) && four == FirstWithCount(counts, 4, 0) &&
      three == WithCount(counts, 3, 12) && pairs == WithCount(counts, 2, 12) &&
      straightHigh == BestStraight(Present(counts))
  {
    ranks := RanksOf(nums);
    var counts := TallyRanks(ranks);
    TallyIsRankCounts(nums, counts);
    SortedRanks(nums);
    four := FirstWithCount(counts, 4, 0);
    three := WithCount(counts, 3, 12);
    pairs := WithCount(counts, 2, 12);
    var uniqueRanks := Descending(Values(ranks));
    ValuesPresent(ranks, counts);
    DescendingValues(ranks);
    straightHigh := GetStraightHigh(uniqueRanks);
  }

  /** The suit tally, the flush cards and the straight flush. */
  method FlushFeatures(nums: seq<Card>) returns (flushRanks: Option<seq<int>>, straightFlushHigh: int)
    requires SortedByRank(nums) && |nums| <= 7
    ensures var m := multiset(nums);
      var fs := FlushSuit(m);
      flushRanks == (if fs.Some? then Some(Expand(SuitRanks(m, fs.value))) else None) &&
      straightFlushHigh == (if fs.Some? then BestStraight(Present(SuitRanks(m, fs.value))) else -1)
  {
    var suits := SuitsOf(nums);
    var flushSuit := FindFlushSuit(suits);
    FlushSuitAgrees(nums, flushSuit);
    ghost var fs := FlushSuit(multiset(nums));
    flushRanks := None;
    straightFlushHigh := -1;
    if flushSuit != -1 {
      var suit := SuitAt(flushSuit);
      SuitAtValue(fs.value);
      assert suit == fs.value;
      var fr := SuitRanksOf(nums, suit);
      FlushRanksAgree(nums, suit);
      flushRanks := Some(fr);
      var uniqueFlushRanks := Descending(Values(fr));
      DescendingValues(fr);
      straightFlushHigh := GetStraightHigh(uniqueFlushRanks);
    }
  }

  /** The steps of evaluateHand up to the hand type decision. */
  method ComputeFeatures(cards: seq<Card>) returns (f: Features)
    requires |cards| <= 7
    ensures f == FeaturesOf(multiset(cards))
  {
    var nums := SortByRank(cards);
    var ranks, four, three, pairs, straightHigh := RankFeatures(nums);
    var flushRanks, straightFlushHigh := FlushFeatures(nums);
    f := Features(ranks, four, three, pairs, flushRanks, straightHigh, straightFlushHigh);
  }

  /**
   * evaluateHand: "Fold" with score 0 for an empty pool; otherwise the
   * features, the hand type decision, the score and the description.
   */
  method EvaluateHand(cards: seq<Card>) returns (result: HandResult)
    requires |cards| <= 7
    ensures result == Evaluate(multiset(cards))
  {
    if |cards| == 0 {
      return HandResult(0, 0, "Fold", []);
    }
    var f := ComputeFeatures(cards);
    var c := Classify(f);
    result := HandResult(Score(c), c.typeIndex, Describe(c), c.kickers);
  }
}
