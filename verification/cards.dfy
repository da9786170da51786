/**
 * The card model: two enumerations and an immutable rank/suit pair.
 * A suit's raw value is a one-letter code, a rank's raw value runs from
 * 1 (ace) to 13 (king).
 */
module Cards {
  import opened Wrappers

  datatype Suit = Clubs | Diamonds | Hearts | Spades

  datatype Rank =
    | Ace | Two | Three | Four | Five | Six | Seven
    | Eight | Nine | Ten | Jack | Queen | King

  /** A card never changes after construction; getRank/getSuit are the fields. */
  datatype Card = Card(rank: Rank, suit: Suit)

  /** The ranks in declaration order, ace first: the deck builder's inner list. */
  const Ranks: seq<Rank> :=
    [Ace, Two, Three, Four, Five, Six, Seven, Eight, Nine, Ten, Jack, Queen, King]

  /** The suits in declaration order: the deck builder's outer list. */
  const Suits: seq<Suit> := [Clubs, Diamonds, Hearts, Spades]

  /** The raw value of a rank. It is the rank's 1-based position in Ranks. */
  function RankValue(r: Rank): (v: int)
    ensures 1 <= v <= 13
    ensures Ranks[v - 1] == r
  {
    match r
    case Ace => 1
    case Two => 2
    case Three => 3
    case Four => 4
    case Five => 5
    case Six => 6
    case Seven => 7
    case Eight => 8
    case Nine => 9
    case Ten => 10
    case Jack => 11
    case Queen => 12
    case King => 13
  }

  /** The raw value of a suit: its one-letter code. */
  function SuitCode(s: Suit): (c: char)
    ensures c in "CDHS"
  {
    match s
    case Clubs => 'C'
    case Diamonds => 'D'
    case Hearts => 'H'
    case Spades => 'S'
  }

  /** The rank with a given raw value, if there is one. */
  function RankFromValue(n: int): (r: Option<Rank>)
    ensures r.Some? <==> 1 <= n <= 13
    ensures r.Some? ==> RankValue(r.value) == n
  {
    if 1 <= n <= 13 then
      RankValuesAreOrdinals();
      Some(Ranks[n - 1])
    else None
  }

  /** The suit with a given one-letter code, if there is one. */
  function SuitFromCode(c: char): (s: Option<Suit>)
    ensures s.Some? <==> c in "CDHS"
    ensures s.Some? ==> SuitCode(s.value) == c
  {
    if c == 'C' then Some(Clubs)
    else if c == 'D' then Some(Diamonds)
    else if c == 'H' then Some(Hearts)
    else if c == 'S' then Some(Spades)
    else None
  }

  /** Ranks lists every rank once, in increasing raw value. */
  lemma RankValuesAreOrdinals()
    ensures forall k :: 0 <= k < 13 ==> RankValue(Ranks[k]) == k + 1
  {
  }

  /** Raw values identify ranks and codes identify suits: both round-trip. */
  lemma RawValuesRoundTrip(r: Rank, s: Suit)
    ensures RankFromValue(RankValue(r)) == Some(r)
    ensures SuitFromCode(SuitCode(s)) == Some(s)
  {
  }

  /** compareRank: true exactly when the two raw rank values coincide. */
  function CompareRank(a: Card, b: Card): (same: bool)
    ensures same <==> RankValue(a.rank) == RankValue(b.rank)
  {
    a.rank == b.rank
  }

  /** compareSuit: true exactly when the two suit codes coincide. */
  function CompareSuit(a: Card, b: Card): (same: bool)
    ensures same <==> SuitCode(a.suit) == SuitCode(b.suit)
  {
    a.suit == b.suit
  }

  /** Two cards agreeing in both comparisons are the same card. */
  lemma CompareBothMeansEqual(a: Card, b: Card)
    ensures CompareRank(a, b) && CompareSuit(a, b) <==> a == b
  {
  }
}
