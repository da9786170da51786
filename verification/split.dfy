/**
 * Dealing the shuffled deck into the two piles: 26 times, the front card goes
 * to the back of the player's pile and the next one to the back of the
 * computer's pile.
 */
module Split {
  import opened Cards
  import opened Deck

  /** What is left of the deck, and the two piles, after dealing. */
  datatype Dealt = Dealt(rest: seq<Card>, player: seq<Card>, computer: seq<Card>)

  /** The cards at positions 0, 2, 4, ... among the first 2n cards of the deck. */
  function EvenPositions(deck: seq<Card>, n: nat): (cards: seq<Card>)
    requires 2 * n <= |deck|
    ensures |cards| == n
    ensures forall i :: 0 <= i < n ==> cards[i] == deck[2 * i]
  {
    if n == 0 then [] else [deck[0]] + EvenPositions(deck[2..], n - 1)
  }

  /** The cards at positions 1, 3, 5, ... among the first 2n cards of the deck. */
  function OddPositions(deck: seq<Card>, n: nat): (cards: seq<Card>)
    requires 2 * n <= |deck|
    ensures |cards| == n
    ensures forall i :: 0 <= i < n ==> cards[i] == deck[2 * i + 1]
  {
    if n == 0 then [] else [deck[1]] + OddPositions(deck[2..], n - 1)
  }

  /** One pass of the dealing loop moves two cards and loses none. */
  lemma DealOnePairConserves(deck: seq<Card>, player: seq<Card>, computer: seq<Card>)
    requires 2 <= |deck|
    ensures multiset(player + [deck[0]]) + multiset(computer + [deck[1]]) + multiset(deck[2..])
         == multiset(player) + multiset(computer) + multiset(deck)
  {
    assert deck == [deck[0]] + [deck[1]] + deck[2..];
  }

  /** n passes of the dealing loop, each moving two cards off the front of the deck. */
  function DealPairs(n: nat, deck: seq<Card>, player: seq<Card>, computer: seq<Card>): (r: Dealt)
    requires 2 * n <= |deck|
    ensures r.rest == deck[2 * n..]
    ensures r.player == player + EvenPositions(deck, n)
    ensures r.computer == computer + OddPositions(deck, n)
    ensures multiset(r.player) + multiset(r.computer) + multiset(r.rest)
         == multiset(player) + multiset(computer) + multiset(deck)
    decreases n
  {
    if n == 0 then
      Dealt(deck, player, computer)
    else
      var player', computer' := player + [deck[0]], computer + [deck[1]];
      var r := DealPairs(n - 1, deck[2..], player', computer');
      DealOnePairConserves(deck, player, computer);
      assert player' + EvenPositions(deck[2..], n - 1) == player + EvenPositions(deck, n);
      assert computer' + OddPositions(deck[2..], n - 1) == computer + OddPositions(deck, n);
      assert deck[2..][2 * (n - 1)..] == deck[2 * n..];
      r
  }

  /**
   * splitIntoTwoDecks: deals 26 pairs onto the back of the current piles.
   * Reading the front of an emptied deck traps, so the deck must hold at
   * least 52 cards.
   */
  function SplitIntoTwoDecks(shuffled: seq<Card>, player: seq<Card>, computer: seq<Card>): (r: Dealt)
    requires |shuffled| >= 52
    ensures r.player == player + EvenPositions(shuffled, 26)
    ensures r.computer == computer + OddPositions(shuffled, 26)
    ensures r.rest == shuffled[52..]
    ensures multiset(r.player) + multiset(r.computer) + multiset(r.rest)
         == multiset(player) + multiset(computer) + multiset(shuffled)
  {
    DealPairs(26, shuffled, player, computer)
  }

  /** Dealing a whole deck of 2n cards onto empty piles leaves no card behind and loses none. */
  lemma DealWholeDeckConserves(n: nat, deck: seq<Card>)
    requires |deck| == 2 * n
    ensures var r := DealPairs(n, deck, [], []);
      r.rest == [] && multiset(r.player) + multiset(r.computer) == multiset(deck)
  {
    var empty: seq<Card> := [];
    var r := DealPairs(n, deck, empty, empty);
    assert r.rest == [];
    var mp, mc, mr := multiset(r.player), multiset(r.computer), multiset(r.rest);
    var none := multiset(empty);
    assert mp + mc + mr == none + none + multiset(deck);
    assert mr == none && none == multiset{};
    calc {
      mp + mc;
      (mp + mc) + none;
      none + none + multiset(deck);
      multiset(deck);
    }
  }

  /** Dealing a whole deck of 2n cards onto empty piles: even positions to the player, odd ones to the computer. */
  lemma DealWholeDeckAlternates(n: nat, deck: seq<Card>)
    requires |deck| == 2 * n
    ensures var r := DealPairs(n, deck, [], []);
      && |r.player| == n && |r.computer| == n
      && (forall i :: 0 <= i < n ==> r.player[i] == deck[2 * i] && r.computer[i] == deck[2 * i + 1])
  {
    var empty: seq<Card> := [];
    var r := DealPairs(n, deck, empty, empty);
    var evens, odds := EvenPositions(deck, n), OddPositions(deck, n);
    assert r.player == empty + evens && empty + evens == evens;
    assert r.computer == empty + odds && empty + odds == odds;
    forall i | 0 <= i < n
      ensures r.player[i] == deck[2 * i] && r.computer[i] == deck[2 * i + 1]
    {
      assert evens[i] == deck[2 * i] && odds[i] == deck[2 * i + 1];
    }
  }

  /**
   * Splitting a full 52-card deck onto empty piles uses up the deck: the
   * player gets the 26 cards at even positions and the computer the 26 at
   * odd positions, in deck order, and no card is gained or lost.
   */
  lemma SplitFullDeck(deck: seq<Card>)
    requires |deck| == 52
    ensures var r := SplitIntoTwoDecks(deck, [], []);
      && r.rest == []
      && |r.player| == 26 && |r.computer| == 26
      && (forall i :: 0 <= i < 26 ==> r.player[i] == deck[2 * i] && r.computer[i] == deck[2 * i + 1])
      && multiset(r.player) + multiset(r.computer) == multiset(deck)
  {
    DealWholeDeckConserves(26, deck);
    DealWholeDeckAlternates(26, deck);
  }

  /** Dealt from a deck without repeats, the two piles share no card. */
  lemma SplitPilesAreDisjoint(deck: seq<Card>)
    requires |deck| == 52 && Distinct(deck)
    ensures var r := SplitIntoTwoDecks(deck, [], []);
      forall c :: c in r.player ==> c !in r.computer
  {
    var r := SplitIntoTwoDecks(deck, [], []);
    SplitFullDeck(deck);
    PartsOfDistinctAreDisjoint(r.player, r.computer, deck);
  }
}
