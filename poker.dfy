/**
  Three-card poker table: the 52-card deck, the Fisher-Yates shuffle, the
  hand classifier, dealer qualification and payouts, and the table session
  (betting -> dealt -> result -> betting).

  A card's rank is stored as its numeric rank value: 2..10, then 11 for J,
  12 for Q, 13 for K and 14 for A. The shuffle's random index choices are
  supplied as a sequence `draws`.
*/
module ThreeCardPoker {

  datatype Option<T> = None | Some(value: T)

  datatype Suit = Spades | Hearts | Diamonds | Clubs

  /** A rank by its value: 2..10, J = 11, Q = 12, K = 13, A = 14. */
  type Rank = r: int | 2 <= r <= 14 witness 2

  datatype Card = Card(suit: Suit, rank: Rank)

  const SUITS: seq<Suit> := [Spades, Hearts, Diamonds, Clubs]
  const RANKS: seq<Rank> := [2, 3, 4, 5, 6, 7, 8, 9, 10, 11, 12, 13, 14]

  /** The chip and ante inputs never go below this amount. */
  const MIN_INPUT: int := 1000
  const INITIAL_CHIPS: int := 100000
  const INITIAL_ANTE: int := 1000

  predicate Distinct<T(==)>(s: seq<T>)
  {
    forall i, j :: 0 <= i < j < |s| ==> s[i] != s[j]
  }

  // ---------------------------------------------------------------------
  // Deck
  // ---------------------------------------------------------------------

  function SuitIndex(s: Suit): (k: nat)
    ensures k < |SUITS| && SUITS[k] == s
  {
    match s
    case Spades => 0
    case Hearts => 1
    case Diamonds => 2
    case Clubs => 3
  }

  /** Position i of a deck built suit by suit, ranks ascending within a suit. */
  function DeckCard(i: nat): Card
    requires i < 52
  {
    Card(SUITS[i / 13], RANKS[i % 13])
  }

  /** A deck laid out suit-major has every card exactly once. */
  lemma {:induction false} SuitMajorLayout(deck: seq<Card>)
    requires |deck| == 52
    requires forall i :: 0 <= i < 52 ==> deck[i] == DeckCard(i)
    ensures Distinct(deck)
    ensures forall c: Card :: c in deck
  {
    forall i, j | 0 <= i < j < 52
      ensures deck[i] != deck[j]
    {
      if i / 13 == j / 13 {
        assert i % 13 != j % 13;
        assert RANKS[i % 13] != RANKS[j % 13];
      } else {
        assert SUITS[i / 13] != SUITS[j / 13];
      }
    }
    forall c: Card
      ensures c in deck
    {
      var k := SuitIndex(c.suit) * 13 + (c.rank - 2);
      assert k / 13 == SuitIndex(c.suit) && k % 13 == c.rank - 2;
      assert deck[k] == c;
    }
  }

  /** Builds the deck suit by suit (spades, hearts, diamonds, clubs), ranks 2 to A within each suit. */
  method CreateDeck() returns (deck: seq<Card>)
    ensures |deck| == 52
    ensures forall i :: 0 <= i < 52 ==> deck[i] == DeckCard(i)
    ensures Distinct(deck)
    ensures forall c: Card :: c in deck
  {
    deck := [];
    for s := 0 to |SUITS|
      invariant |deck| == 13 * s
      invariant forall i :: 0 <= i < |deck| ==> deck[i] == DeckCard(i)
    {
      for r := 0 to |RANKS|
        invariant |deck| == 13 * s + r
        invariant forall i :: 0 <= i < |deck| ==> deck[i] == DeckCard(i)
      {
        assert (13 * s + r) / 13 == s && (13 * s + r) % 13 == r;
        deck := deck + [Card(SUITS[s], RANKS[r])];
      }
    }
    SuitMajorLayout(deck);
  }

  // ---------------------------------------------------------------------
  // Shuffle
  // ---------------------------------------------------------------------

  /** The draws a Fisher-Yates pass over n cards needs: the k-th chooses a position in [0, n - 1 - k]. */
  predicate ValidDraws(n: nat, draws: seq<int>)
  {
    |draws| >= n - 1 && forall k :: 0 <= k < n - 1 ==> 0 <= draws[k] <= n - 1 - k
  }

  /**
    Shuffles a copy of the deck in place: for i from the last position down
    to 1, swaps position i with the drawn position j in [0, i].
  */
  method ShuffleDeck(deck: seq<Card>, draws: seq<int>) returns (shuffled: seq<Card>)
    requires ValidDraws(|deck|, draws)
    ensures |shuffled| == |deck|
    ensures multiset(shuffled) == multiset(deck)
    ensures |deck| >= 2 ==> shuffled[|deck| - 1] == deck[draws[0]]
  {
    var a := new Card[|deck|](k requires 0 <= k < |deck| => deck[k]);
    assert a[..] == deck;
    var i := a.Length - 1;
    while i > 0
      invariant -1 <= i < a.Length
      invariant a.Length == 0 ==> i == -1
      invariant i == a.Length - 1 ==> a[..] == deck
      invariant multiset(a[..]) == multiset(deck)
      invariant |deck| >= 2 && i < |deck| - 1 ==> a[|deck| - 1] == deck[draws[0]]
    {
      var j := draws[a.Length - 1 - i];
      ghost var before := a[..];
      a[i], a[j] := a[j], a[i];
      assert a[..] == before[i := before[j]][j := before[i]];
      SwapKeepsMultiset(before, i, j);
      i := i - 1;
    }
    shuffled := a[..];
  }

  lemma SwapKeepsMultiset<T>(s: seq<T>, i: nat, j: nat)
    requires i < |s| && j < |s|
    ensures multiset(s[i := s[j]][j := s[i]]) == multiset(s)
  {
  }

  /** Multiplicity of an element that occurs at two positions. */
  lemma {:induction false} TwiceInSeq<T>(s: seq<T>, i: nat, j: nat)
    requires i < j < |s| && s[i] == s[j]
    ensures multiset(s)[s[i]] >= 2
  {
    assert s == s[..j] + s[j..];
    assert s[i] in s[..j];
    assert s[j] in s[j..];
    assert multiset(s) == multiset(s[..j]) + multiset(s[j..]);
  }

  lemma {:induction false} DistinctAtMostOnce<T>(s: seq<T>)
    requires Distinct(s)
    ensures forall x :: multiset(s)[x] <= 1
  {
    if s != [] {
      assert Distinct(s[1..]);
      DistinctAtMostOnce(s[1..]);
      assert s == [s[0]] + s[1..];
      assert s[0] !in s[1..];
    }
  }

  /** A permutation of a sequence without repeats has no repeats. */
  lemma PermutationKeepsDistinct<T>(a: seq<T>, b: seq<T>)
    requires Distinct(a) && multiset(a) == multiset(b)
    ensures Distinct(b)
  {
    DistinctAtMostOnce(a);
    forall i, j | 0 <= i < j < |b|
      ensures b[i] != b[j]
    {
      if b[i] == b[j] {
        TwiceInSeq(b, i, j);
      }
    }
  }

  // ---------------------------------------------------------------------
  // Hand ranking
  // ---------------------------------------------------------------------

  function Max3(a: int, b: int, c: int): int
  {
    if a >= b && a >= c then a else if b >= c then b else c
  }

  function Min3(a: int, b: int, c: int): int
  {
    if a <= b && a <= c then a else if b <= c then b else c
  }

  /** Three values in descending order. */
  function SortDescending(a: int, b: int, c: int): (r: seq<int>)
    ensures |r| == 3 && r[0] >= r[1] >= r[2]
    ensures r == [a, b, c] || r == [a, c, b] || r == [b, a, c] || r == [b, c, a] || r == [c, a, b] || r == [c, b, a]
  {
    var (x, y) := if a >= b then (a, b) else (b, a);
    if c <= y then [x, y, c] else if c <= x then [x, c, y] else [c, x, y]
  }

  /** The rank values of a hand, highest first. */
  function SortedRanks(cards: seq<Card>): (r: seq<int>)
    requires |cards| == 3
    ensures |r| == 3
  {
    SortDescending(cards[0].rank, cards[1].rank, cards[2].rank)
  }

  /** A hand's category (0 = high card .. 5 = straight flush) and its tiebreak value within the category. */
  datatype HandRank = HandRank(category: int, value: int)

  /** The flush and high-card tiebreak: r0 * 1000 + r1 * 10 + r2 on the descending ranks. */
  function Composite(ranks: seq<int>): int
    requires |ranks| == 3
  {
    ranks[0] * 1000 + ranks[1] * 10 + ranks[2]
  }

  /** Classifies three cards. An A-2-3 straight takes the ace's value, 14, as its tiebreak. */
  function GetHandRank(cards: seq<Card>): (h: HandRank)
    requires |cards| == 3
    ensures 0 <= h.category <= 5
  {
    var ranks := SortedRanks(cards);
    var isFlush := cards[1].suit == cards[0].suit && cards[2].suit == cards[0].suit;
    var isStraight := ranks[0] - ranks[1] == 1 && ranks[1] - ranks[2] == 1;
    var isAceLowStraight := ranks[0] == 14 && ranks[1] == 3 && ranks[2] == 2;
    if isFlush && (isStraight || isAceLowStraight) then HandRank(5, ranks[0])
    else if ranks[0] == ranks[1] && ranks[1] == ranks[2] then HandRank(4, ranks[0])
    else if isStraight || isAceLowStraight then HandRank(3, ranks[0])
    else if isFlush then HandRank(2, Composite(ranks))
    else if ranks[0] == ranks[1] || ranks[1] == ranks[2] then
      var pairRank := if ranks[0] == ranks[1] then ranks[0] else ranks[1];
      // the one rank that differs from the pair's
      var kicker := if ranks[0] == ranks[1] then ranks[2] else ranks[0];
      HandRank(1, pairRank * 100 + kicker)
    else HandRank(0, Composite(ranks))
  }

  // Reference definitions of the hand shapes, on the cards as dealt (unsorted).

  predicate IsFlush(cards: seq<Card>)
    requires |cards| == 3
  {
    cards[0].suit == cards[1].suit == cards[2].suit
  }

  predicate IsTrips(cards: seq<Card>)
    requires |cards| == 3
  {
    cards[0].rank == cards[1].rank == cards[2].rank
  }

  predicate HasPair(cards: seq<Card>)
    requires |cards| == 3
  {
    cards[0].rank == cards[1].rank || cards[1].rank == cards[2].rank || cards[0].rank == cards[2].rank
  }

  function HighRank(cards: seq<Card>): int
    requires |cards| == 3
  {
    Max3(cards[0].rank, cards[1].rank, cards[2].rank)
  }

  function LowRank(cards: seq<Card>): int
    requires |cards| == 3
  {
    Min3(cards[0].rank, cards[1].rank, cards[2].rank)
  }

  /** Three different ranks in a row, or A-2-3 with the ace low. */
  predicate IsRun(cards: seq<Card>)
    requires |cards| == 3
  {
    || (!HasPair(cards) && HighRank(cards) - LowRank(cards) == 2)
    || {cards[0].rank as int, cards[1].rank as int, cards[2].rank as int} == {2, 3, 14}
  }

  /** The ranks as the classifier sees them, sorted, against the reference shapes on the dealt cards. */
  lemma SortedShape(cards: seq<Card>)
    requires |cards| == 3
    ensures var r := SortedRanks(cards);
            && r[0] == HighRank(cards) && r[2] == LowRank(cards)
            && (IsTrips(cards) <==> r[0] == r[1] == r[2])
            && (HasPair(cards) <==> r[0] == r[1] || r[1] == r[2])
            && (IsRun(cards) <==> (r[0] - r[1] == 1 && r[1] - r[2] == 1) || (r[0] == 14 && r[1] == 3 && r[2] == 2))
  {
    var a, b, d := cards[0].rank as int, cards[1].rank as int, cards[2].rank as int;
    var r := SortedRanks(cards);
    var aceLow := r[0] == 14 && r[1] == 3 && r[2] == 2;
    assert r[0] in {a, b, d} && r[1] in {a, b, d} && r[2] in {a, b, d};
    if aceLow {
      assert {a, b, d} == {2, 3, 14};
    }
    if {a, b, d} == {2, 3, 14} {
      assert a in {2, 3, 14} && b in {2, 3, 14} && d in {2, 3, 14};
      assert 2 in {a, b, d} && 3 in {a, b, d} && 14 in {a, b, d};
    }
  }

  /**
    The category is decided by precedence: straight flush, then three of a
    kind, straight, flush, pair, and high card.
  */
  lemma CategoryByPrecedence(cards: seq<Card>)
    requires |cards| == 3
    ensures var c := GetHandRank(cards).category;
            && (c == 5 <==> IsFlush(cards) && IsRun(cards))
            && (c == 4 <==> IsTrips(cards))
            && (c == 3 <==> IsRun(cards) && !IsFlush(cards))
            && (c == 2 <==> IsFlush(cards) && !IsRun(cards) && !IsTrips(cards))
            && (c == 1 <==> HasPair(cards) && !IsTrips(cards) && !IsFlush(cards))
            && (c == 0 <==> !HasPair(cards) && !IsRun(cards) && !IsFlush(cards))
  {
    SortedShape(cards);
  }

  /** Straight flushes, trips and straights are valued by their highest rank, which is 14 for A-2-3. */
  lemma RunAndTripsValue(cards: seq<Card>)
    requires |cards| == 3
    requires GetHandRank(cards).category >= 3
    ensures GetHandRank(cards).value == HighRank(cards)
  {
  }

  /** Flushes and high cards are valued by the composite of their descending ranks; pairs by pair rank * 100 + kicker. */
  lemma CompositeAndPairValue(cards: seq<Card>)
    requires |cards| == 3
    ensures var h := GetHandRank(cards);
            var r := SortedRanks(cards);
            && (h.category == 2 || h.category == 0 ==> h.value == Composite(r))
            && (h.category == 1 ==> h.value == PairRank(cards) * 100 + Kicker(cards))
  {
  }

  /** The rank that appears twice in a hand (meaningful for a pair). */
  function PairRank(cards: seq<Card>): int
    requires |cards| == 3
  {
    if cards[0].rank == cards[1].rank || cards[0].rank == cards[2].rank then cards[0].rank else cards[1].rank
  }

  /** The rank that appears once in a hand with a pair. */
  function Kicker(cards: seq<Card>): int
    requires |cards| == 3
  {
    if cards[0].rank == cards[1].rank then cards[2].rank
    else if cards[0].rank == cards[2].rank then cards[1].rank
    else cards[0].rank
  }

  /** The ace-low straight A-2-3 is valued 14 and so outranks the six-high straight 4-5-6. */
  lemma AceLowStraightValuedAsAce(aceLow: seq<Card>, sixHigh: seq<Card>)
    requires aceLow == [Card(Spades, 14), Card(Hearts, 2), Card(Diamonds, 3)]
    requires sixHigh == [Card(Spades, 4), Card(Hearts, 5), Card(Diamonds, 6)]
    ensures GetHandRank(aceLow) == HandRank(3, 14)
    ensures GetHandRank(sixHigh) == HandRank(3, 6)
    ensures Beats(GetHandRank(aceLow), GetHandRank(sixHigh))
  {
  }

  predicate StrictlyDescending(r: seq<int>)
  {
    |r| == 3 && 14 >= r[0] > r[1] > r[2] >= 2
  }

  predicate LexLess(x: seq<int>, y: seq<int>)
    requires |x| == 3 && |y| == 3
  {
    x[0] < y[0] || (x[0] == y[0] && (x[1] < y[1] || (x[1] == y[1] && x[2] < y[2])))
  }

  /** On ranks without repeats the composite tiebreak orders hands exactly as a lexicographic comparison of their descending ranks. */
  lemma CompositeIsLexicographic(x: seq<int>, y: seq<int>)
    requires StrictlyDescending(x) && StrictlyDescending(y)
    ensures Composite(x) < Composite(y) <==> LexLess(x, y)
    ensures Composite(x) == Composite(y) <==> x == y
  {
    assert x[1] * 10 + x[2] < 1000 && y[1] * 10 + y[2] < 1000;
    assert x[1] <= 13 && x[2] <= 12 && y[1] <= 13 && y[2] <= 12;
    assert x[1] > y[1] ==> x[1] * 10 + x[2] > y[1] * 10 + y[2];
    assert y[1] > x[1] ==> y[1] * 10 + y[2] > x[1] * 10 + x[2];
  }

  /** Two high-card hands compare by value exactly as their descending ranks compare lexicographically. */
  lemma HighCardValueOrder(c1: seq<Card>, c2: seq<Card>)
    requires |c1| == 3 && |c2| == 3
    requires GetHandRank(c1).category == 0 && GetHandRank(c2).category == 0
    ensures GetHandRank(c1).value < GetHandRank(c2).value <==> LexLess(SortedRanks(c1), SortedRanks(c2))
    ensures GetHandRank(c1).value == GetHandRank(c2).value <==> SortedRanks(c1) == SortedRanks(c2)
  {
    CategoryByPrecedence(c1);
    CategoryByPrecedence(c2);
    SortedShape(c1);
    SortedShape(c2);
    CompositeIsLexicographic(SortedRanks(c1), SortedRanks(c2));
  }

  /** The pair tiebreak orders by pair rank first, then by kicker. */
  lemma PairValueOrder(pair1: int, kicker1: int, pair2: int, kicker2: int)
    requires 2 <= pair1 <= 14 && 2 <= kicker1 <= 14 && 2 <= pair2 <= 14 && 2 <= kicker2 <= 14
    ensures pair1 * 100 + kicker1 < pair2 * 100 + kicker2 <==> pair1 < pair2 || (pair1 == pair2 && kicker1 < kicker2)
  {
  }

  /** A hand beats another by a higher category, or by a higher value within the same category. */
  predicate Beats(p: HandRank, d: HandRank)
  {
    p.category > d.category || (p.category == d.category && p.value > d.value)
  }

  /** Comparing hands is a strict total order with exact ties as its only incomparable pairs. */
  lemma BeatsIsStrictOrder(x: HandRank, y: HandRank, z: HandRank)
    ensures !Beats(x, x)
    ensures Beats(x, y) ==> !Beats(y, x)
    ensures Beats(x, y) && Beats(y, z) ==> Beats(x, z)
    ensures Beats(x, y) || Beats(y, x) || x == y
  {
  }

  // ---------------------------------------------------------------------
  // Qualification and payout
  // ---------------------------------------------------------------------

  /** The dealer plays on with a made hand, or with a Queen or better as its highest card. */
  predicate DealerQualifies(dealerCards: seq<Card>)
    requires |dealerCards| == 3
    ensures DealerQualifies(dealerCards) <==>
              GetHandRank(dealerCards).category > 0 || exists k :: 0 <= k < 3 && dealerCards[k].rank >= 12
  {
    GetHandRank(dealerCards).category > 0 || SortedRanks(dealerCards)[0] >= 12
  }

  lemma QualificationExamples()
    ensures !DealerQualifies([Card(Clubs, 2), Card(Diamonds, 5), Card(Hearts, 9)])
    ensures DealerQualifies([Card(Clubs, 2), Card(Diamonds, 5), Card(Hearts, 12)])
  {
    assert [Card(Clubs, 2), Card(Diamonds, 5), Card(Hearts, 12)][2].rank >= 12;
  }

  /** The ante bonus for a winning player hand: 5x, 4x or 1x the ante for a straight flush, three of a kind or straight. */
  function AnteBonus(ante: int, category: int): int
  {
    if category == 5 then ante * 5
    else if category == 4 then ante * 4
    else if category == 3 then ante * 1
    else 0
  }

  /** What a played hand returns, ante and play bet together. */
  function WinAmount(ante: int, player: HandRank, dealerQualifies: bool, dealer: HandRank): int
  {
    if !dealerQualifies then ante * 2
    else if Beats(player, dealer) then ante * 4 + AnteBonus(ante, player.category)
    else if player.category == dealer.category && player.value == dealer.value then ante * 2
    else 0
  }

  /**
    The payout cases: twice the ante when the dealer does not qualify or on
    an exact tie; four times the ante plus a bonus when the player's hand is
    better; nothing when the dealer's hand is better.
  */
  lemma WinAmountCases(ante: int, player: HandRank, q: bool, dealer: HandRank)
    requires ante > 0
    ensures var w := WinAmount(ante, player, q, dealer);
            && (w > ante * 2 <==> q && Beats(player, dealer))
            && (w == ante * 2 <==> !q || player == dealer)
            && (w == 0 <==> q && Beats(dealer, player))
            && (q && Beats(player, dealer) ==> w == ante * 4 + AnteBonus(ante, player.category))
            && (q && Beats(player, dealer) && player.category == 4 ==> w == ante * 8)
            && 0 <= w <= ante * 9
  {
    BeatsIsStrictOrder(player, dealer, dealer);
  }

  // ---------------------------------------------------------------------
  // Table session
  // ---------------------------------------------------------------------

  datatype Phase = Betting | Dealt | Result

  datatype ResultKind = Folded | Won | Pushed | Lost

  datatype LastResult = LastResult(kind: ResultKind, amount: int)

  /** A number widget's value: at least 1000, and 1000 when the text is not a number. */
  function ClampInput(parsed: Option<int>): (v: int)
    ensures v >= MIN_INPUT
    ensures parsed.Some? && parsed.value >= MIN_INPUT ==> v == parsed.value
    ensures parsed.None? || parsed.value <= MIN_INPUT ==> v == MIN_INPUT
  {
    var n := if parsed.Some? && parsed.value != 0 then parsed.value else MIN_INPUT;
    if n >= MIN_INPUT then n else MIN_INPUT
  }

  /** The kind recorded for a played hand, from what it returned. */
  function PlayedKind(ante: int, winAmount: int): ResultKind
  {
    if winAmount > ante * 2 then Won else if winAmount == ante * 2 then Pushed else Lost
  }

  class Table {
    var chips: int
    var ante: int
    var phase: Phase
    var playerCards: seq<Card>
    var dealerCards: seq<Card>
    var showDealerCards: bool
    var lastResult: Option<LastResult>

    /** The session invariant: no negative chips, an ante of at least 1000, and two disjoint three-card hands once dealt. */
    ghost predicate Valid()
      reads this
    {
      && chips >= 0
      && ante >= MIN_INPUT
      && (phase == Betting ==> playerCards == [] && dealerCards == [])
      && (phase != Betting ==>
            |playerCards| == 3 && |dealerCards| == 3 && Distinct(playerCards + dealerCards))
    }

    constructor ()
      ensures Valid()
      ensures chips == INITIAL_CHIPS && ante == INITIAL_ANTE && phase == Betting
      ensures playerCards == [] && dealerCards == [] && !showDealerCards && lastResult == None
    {
      chips := INITIAL_CHIPS;
      ante := INITIAL_ANTE;
      phase := Betting;
      playerCards := [];
      dealerCards := [];
      showDealerCards := false;
      lastResult := None;
    }

    /** The chip count input, editable only while betting. */
    method EditChips(parsed: Option<int>)
      requires Valid() && phase == Betting
      modifies this`chips
      ensures Valid()
      ensures chips == ClampInput(parsed)
    {
      chips := ClampInput(parsed);
    }

    /** The ante input, shown only while betting. */
    method EditAnte(parsed: Option<int>)
      requires Valid() && phase == Betting
      modifies this`ante
      ensures Valid()
      ensures ante == ClampInput(parsed)
    {
      ante := ClampInput(parsed);
    }

    /**
      Deals a hand: refused, with nothing changed, when the ante exceeds the
      chips; otherwise the ante is taken and the player gets the first three
      and the dealer the next three cards of one shuffled deck.
    */
    method DealCards(draws: seq<int>) returns (dealt: bool, ghost deck: seq<Card>)
      requires Valid() && phase == Betting
      requires ValidDraws(52, draws)
      modifies this
      ensures Valid()
      ensures dealt == (old(ante) <= old(chips))
      ensures !dealt ==> unchanged(this)
      ensures dealt ==>
                && chips == old(chips) - ante
                && ante == old(ante)
                && phase == Dealt
                && !showDealerCards
                && lastResult == old(lastResult)
                && |deck| == 52 && Distinct(deck) && (forall c: Card :: c in deck)
                && playerCards == deck[..3]
                && dealerCards == deck[3..6]
    {
      if ante > chips {
        dealt := false;
        deck := [];
        return;
      }
      var ordered := CreateDeck();
      var shuffled := ShuffleDeck(ordered, draws);
      PermutationKeepsDistinct(ordered, shuffled);
      forall c: Card
        ensures c in shuffled
      {
        assert c in ordered;
        assert c in multiset(ordered);
      }
      assert shuffled[..6] == shuffled[..3] + shuffled[3..6];
      assert Distinct(shuffled[..6]);
      deck := shuffled;
      playerCards := shuffled[..3];
      dealerCards := shuffled[3..6];
      phase := Dealt;
      showDealerCards := false;
      chips := chips - ante;
      dealt := true;
    }

    /** Folds: the dealer's cards are shown and the ante, already taken, is recorded as lost. */
    method Fold()
      requires Valid() && phase == Dealt
      modifies this`phase, this`showDealerCards, this`lastResult
      ensures Valid()
      ensures phase == Result && showDealerCards
      ensures lastResult == Some(LastResult(Folded, -ante))
    {
      phase := Result;
      showDealerCards := true;
      lastResult := Some(LastResult(Folded, -ante));
    }

    /**
      Plays the hand: refused, with nothing changed, when the ante exceeds the
      chips. Otherwise the chips are first set to chips - ante and then
      overwritten from the same earlier count by chips + winAmount, so the
      play bet is never taken; the recorded amount is winAmount - 2 * ante.
    */
    method Play() returns (played: bool)
      requires Valid() && phase == Dealt
      modifies this`chips, this`phase, this`showDealerCards, this`lastResult
      ensures Valid()
      ensures played == (old(ante) <= old(chips))
      ensures !played ==> unchanged(this)
      ensures played ==>
                var player := GetHandRank(playerCards);
                var dealer := GetHandRank(dealerCards);
                var w := WinAmount(ante, player, DealerQualifies(dealerCards), dealer);
                && chips == old(chips) + w
                && phase == Result && showDealerCards
                && lastResult == Some(LastResult(PlayedKind(ante, w), w - ante * 2))
    {
      if ante > chips {
        played := false;
        return;
      }
      var captured := chips;
      chips := captured - ante;
      showDealerCards := true;
      phase := Result;

      var playerHand := GetHandRank(playerCards);
      var dealerHand := GetHandRank(dealerCards);
      var winAmount := WinAmount(ante, playerHand, DealerQualifies(dealerCards), dealerHand);

      chips := captured + winAmount;
      lastResult := Some(LastResult(PlayedKind(ante, winAmount), winAmount - ante * 2));
      played := true;
    }

    /** The delayed return to betting after a result: the hands are cleared. */
    method NextHand()
      requires Valid() && phase == Result
      modifies this`phase, this`playerCards, this`dealerCards
      ensures Valid()
      ensures phase == Betting && playerCards == [] && dealerCards == []
    {
      phase := Betting;
      playerCards := [];
      dealerCards := [];
    }
  }

}
