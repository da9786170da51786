/**
 * Deck construction: the ordered 52-card deck (suits outer, ranks inner)
 * and its shuffle. The shuffle's random source is an explicit parameter.
 */
module Deck {
  import opened Cards

  /** No card occurs twice. */
  predicate Distinct(s: seq<Card>) {
    forall i, j :: 0 <= i < j < |s| ==> s[i] != s[j]
  }

  /** The inner loop of createDeck: one card of the given suit per rank, in order. */
  function SuitRun(ranks: seq<Rank>, suit: Suit): (run: seq<Card>)
    ensures |run| == |ranks|
    ensures forall k :: 0 <= k < |ranks| ==> run[k] == Card(ranks[k], suit)
  {
    if |ranks| == 0 then [] else [Card(ranks[0], suit)] + SuitRun(ranks[1..], suit)
  }

  /** The outer loop of createDeck: a full run of ranks for each suit in turn. */
  function SuitRuns(suits: seq<Suit>): (cards: seq<Card>)
    ensures |cards| == 13 * |suits|
    ensures forall i :: 0 <= i < |cards| ==> cards[i] == Card(Ranks[i % 13], suits[i / 13])
  {
    if |suits| == 0 then []
    else
      var head, tail := SuitRun(Ranks, suits[0]), SuitRuns(suits[1..]);
      var cards := head + tail;
      assert forall i :: 0 <= i < 13 ==> cards[i] == Card(Ranks[i % 13], suits[i / 13]) by {
        forall i | 0 <= i < 13 ensures i % 13 == i && i / 13 == 0 {
          RowLayout(0, i);
        }
      }
      assert forall i :: 13 <= i < |cards| ==> cards[i] == Card(Ranks[i % 13], suits[i / 13]) by {
        forall i | 13 <= i < |cards|
          ensures cards[i] == Card(Ranks[i % 13], suits[i / 13])
        {
          var j := i - 13;
          var q, r := j / 13, j % 13;
          assert j == 13 * q + r && 0 <= r < 13;
          assert q < |suits| - 1;
          RowShift(j);
          assert cards[i] == tail[j] == Card(Ranks[r], suits[1..][q]);
          assert suits[1..][q] == suits[q + 1];
        }
      }
      cards
  }

  /** createDeck: the card at position i has suit Suits[i / 13] and rank Ranks[i % 13]. */
  function CreateDeck(): (deck: seq<Card>)
    ensures |deck| == 52
    ensures forall i :: 0 <= i < 52 ==> deck[i] == Card(Ranks[i % 13], Suits[i / 13])
  {
    SuitRuns(Suits)
  }

  /** In the ordered deck the raw rank value climbs from 1 to 13 within each suit. */
  lemma CreateDeckRankValues()
    ensures forall i :: 0 <= i < 52 ==> RankValue(CreateDeck()[i].rank) == i % 13 + 1
  {
    RankValuesAreOrdinals();
  }

  /** Division by 13 undoes a 13-wide row layout. */
  lemma RowLayout(q: nat, r: nat)
    requires r < 13
    ensures (13 * q + r) / 13 == q && (13 * q + r) % 13 == r
  {
  }

  /** Moving one row down keeps the column and adds one to the row. */
  lemma RowShift(j: nat)
    ensures (j + 13) % 13 == j % 13 && (j + 13) / 13 == j / 13 + 1
  {
    RowLayout(j / 13 + 1, j % 13);
  }

  /** The position of a suit in Suits. */
  function SuitIndex(s: Suit): (k: nat)
    ensures k < 4 && Suits[k] == s
  {
    match s
    case Clubs => 0
    case Diamonds => 1
    case Hearts => 2
    case Spades => 3
  }

  /** The position of a card in the ordered deck. */
  function DeckIndex(c: Card): (i: nat)
    ensures i < 52 && CreateDeck()[i] == c
  {
    var i := 13 * SuitIndex(c.suit) + (RankValue(c.rank) - 1);
    RowLayout(SuitIndex(c.suit), RankValue(c.rank) - 1);
    i
  }

  /** The row layout of the ordered deck sends different positions to different cards. */
  lemma RowLayoutIsInjective(i: nat, j: nat)
    requires i < 52 && j < 52
    requires Card(Ranks[i % 13], Suits[i / 13]) == Card(Ranks[j % 13], Suits[j / 13])
    ensures i == j
  {
    var qi, ri, qj, rj := i / 13, i % 13, j / 13, j % 13;
    RankValuesAreOrdinals();
    assert RankValue(Ranks[ri]) == ri + 1 && RankValue(Ranks[rj]) == rj + 1;
    assert ri == rj;
    assert SuitIndex(Suits[qi]) == qi && SuitIndex(Suits[qj]) == qj;
    assert qi == qj;
  }

  /** Two positions of the ordered deck hold the same card only if they are the same position. */
  lemma CreateDeckIsDistinct()
    ensures Distinct(CreateDeck())
  {
    var deck := CreateDeck();
    forall i, j | 0 <= i < j < 52
      ensures deck[i] != deck[j]
    {
      if deck[i] == deck[j] {
        RowLayoutIsInjective(i, j);
      }
    }
  }

  /** The ordered deck holds every card exactly once. */
  lemma CreateDeckIsComplete()
    ensures Distinct(CreateDeck())
    ensures forall c: Card :: c in CreateDeck()
  {
    CreateDeckIsDistinct();
    var deck := CreateDeck();
    forall c: Card
      ensures c in deck
    {
      var i := DeckIndex(c);
      assert deck[i] == c;
    }
  }

  /**
   * shuffled(): the random source is the list `picks`; each step moves the
   * picked remaining card (index taken modulo the number left) to the output.
   */
  function Shuffle(deck: seq<Card>, picks: seq<nat>): (shuffled: seq<Card>)
    ensures multiset(shuffled) == multiset(deck)
    ensures |shuffled| == |deck|
    decreases |deck|
  {
    if |deck| == 0 then []
    else
      var k := if |picks| == 0 then 0 else picks[0] % |deck|;
      var later := if |picks| == 0 then [] else picks[1..];
      var rest := deck[..k] + deck[k + 1..];
      MultisetWithout(deck, k);
      assert deck[k] in multiset(deck);
      [deck[k]] + Shuffle(rest, later)
  }

  /** Taking out the card at position k takes one copy of it out of the deck's multiset. */
  lemma MultisetWithout(s: seq<Card>, k: nat)
    requires k < |s|
    ensures multiset(s[..k] + s[k + 1..]) == multiset(s) - multiset{s[k]}
  {
    assert s == s[..k] + [s[k]] + s[k + 1..];
  }

  /** A first pick below the deck size selects exactly that card. */
  lemma ShuffleFirstPick(deck: seq<Card>, k: nat, later: seq<nat>)
    requires k < |deck|
    ensures Shuffle(deck, [k] + later) == [deck[k]] + Shuffle(deck[..k] + deck[k + 1..], later)
  {
    var picks := [k] + later;
    assert picks[1..] == later;
    ModBelow(k, |deck|);
  }

  lemma ModBelow(k: nat, n: nat)
    requires k < n
    ensures k % n == k
  {
  }

  /** The first position of a card in a deck that holds it. */
  function IndexOf(s: seq<Card>, c: Card): (k: nat)
    requires c in s
    ensures k < |s| && s[k] == c
  {
    if s[0] == c then 0 else 1 + IndexOf(s[1..], c)
  }

  /** Matching the first card of a rearrangement leaves rearrangements of each other. */
  lemma RestIsPermutation(deck: seq<Card>, target: seq<Card>, k: nat)
    requires multiset(target) == multiset(deck)
    requires k < |deck| && 0 < |target| && deck[k] == target[0]
    ensures multiset(target[1..]) == multiset(deck[..k] + deck[k + 1..])
  {
    calc {
      multiset(target[1..]);
      { assert target == [target[0]] + target[1..]; }
      multiset(target) - multiset{target[0]};
      multiset(deck) - multiset{deck[k]};
      { MultisetWithout(deck, k); }
      multiset(deck[..k] + deck[k + 1..]);
    }
  }

  /** The random source that makes Shuffle produce the given rearrangement. */
  function PicksFor(deck: seq<Card>, target: seq<Card>): seq<nat>
    requires multiset(target) == multiset(deck)
    decreases |deck|
  {
    if |deck| == 0 then []
    else
      assert |target| == |multiset(target)| == |deck|;
      assert target[0] in multiset(deck);
      var k := IndexOf(deck, target[0]);
      RestIsPermutation(deck, target, k);
      [k] + PicksFor(deck[..k] + deck[k + 1..], target[1..])
  }

  /** Every rearrangement of a deck is the outcome of some random source. */
  lemma {:induction false} EveryPermutationIsAShuffle(deck: seq<Card>, target: seq<Card>)
    requires multiset(target) == multiset(deck)
    ensures Shuffle(deck, PicksFor(deck, target)) == target
    decreases |deck|
  {
    assert |target| == |multiset(target)| == |deck|;
    if |deck| > 0 {
      assert target[0] in multiset(deck);
      var k := IndexOf(deck, target[0]);
      var rest := deck[..k] + deck[k + 1..];
      RestIsPermutation(deck, target, k);
      var later := PicksFor(rest, target[1..]);
      assert PicksFor(deck, target) == [k] + later;
      calc {
        Shuffle(deck, PicksFor(deck, target));
        Shuffle(deck, [k] + later);
        { ShuffleFirstPick(deck, k, later); }
        [deck[k]] + Shuffle(rest, later);
        { EveryPermutationIsAShuffle(rest, target[1..]); }
        [target[0]] + target[1..];
        target;
      }
    } else {
      assert target == [];
    }
  }

  /** In a deck without repeats, every card is counted at most once. */
  lemma {:induction false} DistinctCountsAtMostOne(s: seq<Card>, c: Card)
    requires Distinct(s)
    ensures multiset(s)[c] <= 1
  {
    if |s| > 0 {
      assert s == [s[0]] + s[1..];
      assert Distinct(s[1..]);
      DistinctCountsAtMostOne(s[1..], c);
      if s[0] == c {
        assert c !in s[1..];
      }
    }
  }

  /** In a deck without repeats, every card it holds is counted exactly once. */
  lemma DistinctMemberCountsOnce(s: seq<Card>, c: Card)
    requires Distinct(s) && c in s
    ensures multiset(s)[c] == 1
  {
    DistinctCountsAtMostOne(s, c);
    assert c in multiset(s);
  }

  /** Two piles that together make up a deck without repeats share no card. */
  lemma PartsOfDistinctAreDisjoint(p: seq<Card>, q: seq<Card>, deck: seq<Card>)
    requires Distinct(deck) && multiset(p) + multiset(q) == multiset(deck)
    ensures forall c :: c in p ==> c !in q
  {
    forall c | c in p
      ensures c !in q
    {
      if c in q {
        assert multiset(deck)[c] == multiset(p)[c] + multiset(q)[c];
        DistinctCountsAtMostOne(deck, c);
      }
    }
  }

  /** Rearranging a deck without repeats gives a deck without repeats. */
  lemma DistinctIsPermutationInvariant(s: seq<Card>, t: seq<Card>)
    requires Distinct(s) && multiset(s) == multiset(t)
    ensures Distinct(t)
  {
    forall i, j | 0 <= i < j < |t|
      ensures t[i] != t[j]
    {
      if t[i] == t[j] {
        assert t == t[..j] + [t[j]] + t[j + 1..];
        assert t[i] in multiset(t[..j]);
        assert multiset(t)[t[j]] >= 2;
        DistinctCountsAtMostOne(s, t[j]);
        assert false;
      }
    }
  }

  /** A rearrangement holds exactly the cards of the original. */
  lemma PermutationKeepsMembers(s: seq<Card>, t: seq<Card>)
    requires multiset(s) == multiset(t)
    ensures forall c :: c in s <==> c in t
  {
    forall c ensures c in s <==> c in t {
      assert c in s <==> c in multiset(s);
      assert c in t <==> c in multiset(t);
    }
  }

  /** createShuffledDeck: a rearrangement of the ordered deck. */
  function CreateShuffledDeck(picks: seq<nat>): (shuffled: seq<Card>)
    ensures multiset(shuffled) == multiset(CreateDeck())
    ensures |shuffled| == 52
  {
    Shuffle(CreateDeck(), picks)
  }

  /** Whatever the random source, the shuffled deck holds every card exactly once. */
  lemma ShuffledDeckIsFull(picks: seq<nat>)
    ensures Distinct(CreateShuffledDeck(picks))
    ensures forall c: Card :: c in CreateShuffledDeck(picks)
  {
    var deck := CreateDeck();
    var shuffled := CreateShuffledDeck(picks);
    CreateDeckIsComplete();
    DistinctIsPermutationInvariant(deck, shuffled);
    PermutationKeepsMembers(deck, shuffled);
  }

  /** A collection of cards in which each of the 52 cards appears exactly once. */
  ghost predicate HoldsEachCardOnce(m: multiset<Card>) {
    forall c: Card :: m[c] == 1
  }

  /** For a deck holding every card without repeats, holding each card once is holding that deck. */
  lemma EachCardOnceIsTheDeck(m: multiset<Card>, deck: seq<Card>)
    requires Distinct(deck) && forall c: Card :: c in deck
    ensures HoldsEachCardOnce(m) <==> m == multiset(deck)
  {
    forall c: Card ensures multiset(deck)[c] == 1 {
      DistinctMemberCountsOnce(deck, c);
    }
    if HoldsEachCardOnce(m) {
      assert forall c: Card :: m[c] == multiset(deck)[c];
    }
  }

  /** Holding each card once is exactly holding the cards of createDeck. */
  lemma EachCardOnceIsTheFullDeck(m: multiset<Card>)
    ensures HoldsEachCardOnce(m) <==> m == multiset(CreateDeck())
  {
    CreateDeckIsComplete();
    EachCardOnceIsTheDeck(m, CreateDeck());
  }

  /** Whatever the random source, the shuffled deck holds each card exactly once. */
  lemma ShuffledDeckHoldsEachCardOnce(picks: seq<nat>)
    ensures HoldsEachCardOnce(multiset(CreateShuffledDeck(picks)))
  {
    EachCardOnceIsTheFullDeck(multiset(CreateShuffledDeck(picks)));
  }

  /** Every order of the 52 cards is the shuffled deck for some random source. */
  lemma EveryOrderCanBeShuffled(target: seq<Card>)
    requires multiset(target) == multiset(CreateDeck())
    ensures CreateShuffledDeck(PicksFor(CreateDeck(), target)) == target
  {
    EveryPermutationIsAShuffle(CreateDeck(), target);
  }
}
