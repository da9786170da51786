/**
 * One round of the game: the two front cards are compared; the higher rank
 * captures both onto the back of its pile, equal ranks send each front card
 * to the back of its own pile.
 */
module Round {
  import opened Wrappers
  import opened Cards

  /** The player's and the computer's piles; index 0 is the front. */
  datatype Piles = Piles(player: seq<Card>, computer: seq<Card>)

  /** dealFirstFrom*Hand: the front card of a pile. Indexing an empty pile traps. */
  function DealFirst(pile: seq<Card>): (front: Card)
    requires |pile| > 0
    ensures pile == [front] + pile[1..]
  {
    pile[0]
  }

  /** remove(at: 0) followed by insert(_, at: count): the front card goes to the back. */
  function MoveFrontToBack(pile: seq<Card>): (moved: seq<Card>)
    requires |pile| > 0
    ensures |moved| == |pile| && multiset(moved) == multiset(pile)
    ensures moved[..|moved| - 1] == pile[1..] && moved[|moved| - 1] == pile[0]
  {
    assert pile == [pile[0]] + pile[1..];
    pile[1..] + [pile[0]]
  }

  /**
   * A capture, seen from the winning side: the loser's front card is removed
   * and put at the back of the winner's pile, then the winner's own front
   * card goes to its back. The winner ends with the loser's card followed by
   * its own.
   */
  function Capture(winner: seq<Card>, loser: seq<Card>): (r: (seq<Card>, seq<Card>))
    requires |winner| > 0 && |loser| > 0
    ensures r.0 == winner[1..] + [loser[0], winner[0]] && r.1 == loser[1..]
    ensures multiset(r.0) + multiset(r.1) == multiset(winner) + multiset(loser)
  {
    var winner', loser' := winner + [loser[0]], loser[1..];
    assert loser == [loser[0]] + loser';
    (MoveFrontToBack(winner'), loser')
  }

  /** The guard of gameLogic as written: at least one pile is non-empty. */
  predicate GuardAsWritten(player: seq<Card>, computer: seq<Card>) {
    |player| != 0 || |computer| != 0
  }

  /** What the body of gameLogic needs: both front cards can be read. */
  predicate FrontsReadable(player: seq<Card>, computer: seq<Card>) {
    |player| != 0 && |computer| != 0
  }

  /** The body of gameLogic, run once both front cards are readable. */
  function Resolve(player: seq<Card>, computer: seq<Card>): (r: Piles)
    requires FrontsReadable(player, computer)
    ensures multiset(r.player) + multiset(r.computer) == multiset(player) + multiset(computer)
    ensures RankValue(player[0].rank) > RankValue(computer[0].rank) ==>
      r.player == player[1..] + [computer[0], player[0]] && r.computer == computer[1..]
    ensures RankValue(player[0].rank) < RankValue(computer[0].rank) ==>
      r.computer == computer[1..] + [player[0], computer[0]] && r.player == player[1..]
    ensures player[0].rank == computer[0].rank ==>
      r.player == player[1..] + [player[0]] && r.computer == computer[1..] + [computer[0]]
  {
    var playerFront, computerFront := DealFirst(player), DealFirst(computer);
    if playerFront.rank != computerFront.rank then
      var playerRank, computerRank := RankValue(playerFront.rank), RankValue(computerFront.rank);
      if playerRank > computerRank then
        var (player', computer') := Capture(player, computer);
        Piles(player', computer')
      else
        // Different ranks have different raw values, so the source's second
        // test, playerRank < computerRank, holds here.
        var (computer', player') := Capture(computer, player);
        Piles(player', computer')
    else
      Piles(MoveFrontToBack(player), MoveFrontToBack(computer))
  }

  /**
   * gameLogic as written, with a trap as None: the OR guard lets a round
   * start when only one pile is empty, and reading that pile's front traps.
   */
  function GameLogicAsWritten(player: seq<Card>, computer: seq<Card>): (r: Option<Piles>)
    ensures r.None? <==> (|player| == 0) != (|computer| == 0)
    ensures r.Some? ==>
      multiset(r.value.player) + multiset(r.value.computer) == multiset(player) + multiset(computer)
    ensures |player| == 0 && |computer| == 0 ==> r == Some(Piles(player, computer))
  {
    if GuardAsWritten(player, computer) then
      if FrontsReadable(player, computer) then Some(Resolve(player, computer)) else None
    else Some(Piles(player, computer))
  }

  /** The OR guard admits a round in which the player's front must be read from an empty pile. */
  lemma OrGuardAdmitsEmptyFront()
    ensures GuardAsWritten([], [Card(Ace, Clubs)])
    ensures !FrontsReadable([], [Card(Ace, Clubs)])
    ensures GameLogicAsWritten([], [Card(Ace, Clubs)]) == None
  {
  }

  /**
   * gameLogic with the guard its comment describes ("both piles have cards
   * remaining"): total, and a no-op when either pile is empty.
   */
  function GameLogic(player: seq<Card>, computer: seq<Card>): (r: Piles)
    ensures multiset(r.player) + multiset(r.computer) == multiset(player) + multiset(computer)
    ensures |r.player| + |r.computer| == |player| + |computer|
    ensures -1 <= |r.player| - |player| <= 1 && -1 <= |r.computer| - |computer| <= 1
    ensures !FrontsReadable(player, computer) ==> r == Piles(player, computer)
  {
    if FrontsReadable(player, computer) then Resolve(player, computer) else Piles(player, computer)
  }

  /**
   * The corrected round differs from the source only where the source traps:
   * wherever gameLogic as written completes, the two agree.
   */
  lemma GameLogicAgreesWhereDefined(player: seq<Card>, computer: seq<Card>)
    ensures GameLogicAsWritten(player, computer).Some? ==>
      GameLogicAsWritten(player, computer).value == GameLogic(player, computer)
    ensures GameLogicAsWritten(player, computer).None? <==>
      GuardAsWritten(player, computer) && !FrontsReadable(player, computer)
  {
  }

  /**
   * The three outcomes of a round with two non-empty piles: the side with
   * the strictly higher front rank grows by one card and the other shrinks
   * by one; equal ranks leave both sizes, and both piles' contents, alone.
   */
  lemma RoundOutcomes(player: seq<Card>, computer: seq<Card>)
    requires FrontsReadable(player, computer)
    ensures var r := GameLogic(player, computer);
      && (|r.player| == |player| + 1 <==> RankValue(player[0].rank) > RankValue(computer[0].rank))
      && (|r.computer| == |computer| + 1 <==> RankValue(player[0].rank) < RankValue(computer[0].rank))
      && (|r.player| == |player| <==> CompareRank(player[0], computer[0]))
      && |r.player| - |player| == |computer| - |r.computer|
      && (CompareRank(player[0], computer[0]) ==>
            multiset(r.player) == multiset(player) && multiset(r.computer) == multiset(computer))
  {
    var r := GameLogic(player, computer);
    if player[0].rank == computer[0].rank {
      assert r.player == MoveFrontToBack(player);
      assert r.computer == MoveFrontToBack(computer);
    }
  }

  /** The rules favour neither side: swapping the piles swaps the results. */
  lemma RoundIsSymmetric(player: seq<Card>, computer: seq<Card>)
    ensures var r := GameLogic(player, computer);
      GameLogic(computer, player) == Piles(r.computer, r.player)
  {
  }
}
