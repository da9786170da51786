/**
 * Leaderboard entries: an immutable summary of one ended game, whose winner
 * text is decided when the entry is built.
 */
module Leaderboard {

  const DrawText: string := "Draw"
  const PlayerWinsText: string := "Player wins"
  const ComputerWinsText: string := "Computer wins"

  /** One ended game; the get* accessors of the source are the fields. */
  datatype Entry = Entry(
    gameNumber: int,
    roundsPlayed: int,
    playerCardsRemaining: int,
    computerCardsRemaining: int,
    winner: string)

  /**
   * LeaderboardEntry.init: the four counts are stored as given; the side
   * holding more cards wins and equal holdings are a draw.
   */
  function MakeEntry(gameNumber: int, roundsPlayed: int, playerCardsRemaining: int, computerCardsRemaining: int): (e: Entry)
    ensures e.gameNumber == gameNumber && e.roundsPlayed == roundsPlayed
    ensures e.playerCardsRemaining == playerCardsRemaining
    ensures e.computerCardsRemaining == computerCardsRemaining
    ensures e.winner == DrawText <==> playerCardsRemaining == computerCardsRemaining
    ensures e.winner == PlayerWinsText <==> playerCardsRemaining > computerCardsRemaining
    ensures e.winner == ComputerWinsText <==> playerCardsRemaining < computerCardsRemaining
  {
    var winner :=
      if playerCardsRemaining == computerCardsRemaining then DrawText
      else if playerCardsRemaining > computerCardsRemaining then PlayerWinsText
      else ComputerWinsText;
    Entry(gameNumber, roundsPlayed, playerCardsRemaining, computerCardsRemaining, winner)
  }

  /** Swapping the two holdings swaps the winner and keeps a draw a draw. */
  lemma WinnerIsSymmetric(g: int, rounds: int, p: int, c: int)
    ensures MakeEntry(g, rounds, p, c).winner == PlayerWinsText <==> MakeEntry(g, rounds, c, p).winner == ComputerWinsText
    ensures MakeEntry(g, rounds, p, c).winner == DrawText <==> MakeEntry(g, rounds, c, p).winner == DrawText
  {
  }
}
