/**
 * The game driver behind the two buttons. The view's state variables, the
 * three global card arrays and the leaderboard log are gathered into one
 * explicit State record; each button press is a function from State to
 * State. The shuffle's random source is the `picks` argument of a deal.
 */
module Game {
  import opened Cards
  import opened ImageKeys
  import opened Deck
  import opened Split
  import opened Round
  import opened Leaderboard

  /** The number of rounds shown on screen as the end of a game. */
  const RoundsPerGame: int := 10

  datatype State = State(
    gamesPlayed: int,
    buttonPresses: int,
    roundsPlayed: int,
    playerCard: string,
    computerCard: string,
    playerCardCount: int,
    computerCardCount: int,
    shuffledDeck: seq<Card>,
    playerDeck: seq<Card>,
    computerDeck: seq<Card>,
    leaderboard: seq<Entry>)

  /** The state when the app starts: game 1, nothing dealt, an empty leaderboard. */
  function Launch(): State {
    State(1, 0, 0, CardBack, CardBack, 0, 0, [], [], [], [])
  }

  /** A press of Deal Cards plays a round on the first press of a game and while fewer than ten rounds were played. */
  predicate DealRunsRound(s: State) {
    s.buttonPresses == 0 || s.roundsPlayed < RoundsPerGame
  }

  /**
   * A press of Deal Cards does not trap: a first press deals 26 cards onto
   * each pile before reading the fronts; a later press that plays a round
   * reads both fronts as they are.
   */
  predicate DealIsSafe(s: State) {
    s.buttonPresses == 0 || s.roundsPlayed >= RoundsPerGame || FrontsReadable(s.playerDeck, s.computerDeck)
  }

  /**
   * The part of a Deal Cards press that plays a round: show both front
   * cards, run gameLogic, refresh the on-screen counts, count the round.
   */
  function PlayRound(s: State): (r: State)
    requires FrontsReadable(s.playerDeck, s.computerDeck)
    ensures r.leaderboard == s.leaderboard && r.gamesPlayed == s.gamesPlayed
    ensures r.buttonPresses == s.buttonPresses && r.shuffledDeck == s.shuffledDeck
    ensures r.roundsPlayed == s.roundsPlayed + 1
    ensures r.playerCardCount == |r.playerDeck| && r.computerCardCount == |r.computerDeck|
    ensures multiset(r.playerDeck) + multiset(r.computerDeck) == multiset(s.playerDeck) + multiset(s.computerDeck)
    ensures |r.playerDeck| + |r.computerDeck| == |s.playerDeck| + |s.computerDeck|
    ensures -1 <= |r.playerDeck| - |s.playerDeck| <= 1
  {
    var played := GameLogic(s.playerDeck, s.computerDeck);
    s.(
      playerCard := ImageKey(DealFirst(s.playerDeck)),
      computerCard := ImageKey(DealFirst(s.computerDeck)),
      playerDeck := played.player,
      computerDeck := played.computer,
      playerCardCount := |played.player|,
      computerCardCount := |played.computer|,
      roundsPlayed := s.roundsPlayed + 1)
  }

  /** The round shows the image of each pile's front card, read before gameLogic moves them. */
  lemma PlayRoundShowsFronts(s: State)
    requires FrontsReadable(s.playerDeck, s.computerDeck)
    ensures PlayRound(s).playerCard == ImageKey(s.playerDeck[0])
    ensures PlayRound(s).computerCard == ImageKey(s.computerDeck[0])
  {
  }

  /** Split a freshly shuffled deck onto the piles, mark the game as started, then play a round. */
  function StartGame(s: State, shuffled: seq<Card>): (r: State)
    requires |shuffled| == 52
    ensures r.leaderboard == s.leaderboard && r.gamesPlayed == s.gamesPlayed
    ensures r.buttonPresses == 1 && r.shuffledDeck == []
    ensures r.roundsPlayed == s.roundsPlayed + 1
    ensures r.playerCardCount == |r.playerDeck| && r.computerCardCount == |r.computerDeck|
    ensures multiset(r.playerDeck) + multiset(r.computerDeck)
         == multiset(s.playerDeck) + multiset(s.computerDeck) + multiset(shuffled)
    ensures |r.playerDeck| + |r.computerDeck| == |s.playerDeck| + |s.computerDeck| + 52
    ensures -1 <= |r.playerDeck| - (|s.playerDeck| + 26) <= 1
  {
    var dealt := SplitIntoTwoDecks(shuffled, s.playerDeck, s.computerDeck);
    assert multiset(dealt.rest) == multiset{};
    PlayRound(s.(
      shuffledDeck := dealt.rest,
      playerDeck := dealt.player,
      computerDeck := dealt.computer,
      buttonPresses := 1))
  }

  /** On empty piles, the first round shows the top two cards of the shuffled deck. */
  lemma StartGameShowsTopCards(s: State, shuffled: seq<Card>)
    requires |shuffled| == 52 && s.playerDeck == [] && s.computerDeck == []
    ensures StartGame(s, shuffled).playerCard == ImageKey(shuffled[0])
    ensures StartGame(s, shuffled).computerCard == ImageKey(shuffled[1])
  {
    var dealt := SplitIntoTwoDecks(shuffled, s.playerDeck, s.computerDeck);
    assert dealt.player[0] == EvenPositions(shuffled, 26)[0] == shuffled[0];
    assert dealt.computer[0] == OddPositions(shuffled, 26)[0] == shuffled[1];
    PlayRoundShowsFronts(s.(
      shuffledDeck := dealt.rest,
      playerDeck := dealt.player,
      computerDeck := dealt.computer,
      buttonPresses := 1));
  }

  /** The first press of a game: shuffle a fresh deck and start the game with it. */
  function FirstDeal(s: State, picks: seq<nat>): (r: State)
    ensures r.buttonPresses == 1 && r.roundsPlayed == s.roundsPlayed + 1
    ensures multiset(r.playerDeck) + multiset(r.computerDeck)
         == multiset(s.playerDeck) + multiset(s.computerDeck) + multiset(CreateDeck())
  {
    StartGame(s, CreateShuffledDeck(picks))
  }

  /** The Deal Cards button. */
  function DealCards(s: State, picks: seq<nat>): (r: State)
    requires DealIsSafe(s)
    ensures r.leaderboard == s.leaderboard && r.gamesPlayed == s.gamesPlayed
    ensures !DealRunsRound(s) ==> r == s
    ensures r.buttonPresses == (if s.buttonPresses == 0 then 1 else s.buttonPresses)
    ensures DealRunsRound(s) ==> r.roundsPlayed == s.roundsPlayed + 1
    ensures s.buttonPresses != 0 ==> r.shuffledDeck == s.shuffledDeck
    ensures multiset(r.playerDeck) + multiset(r.computerDeck)
         == multiset(s.playerDeck) + multiset(s.computerDeck)
            + (if s.buttonPresses == 0 then multiset(CreateDeck()) else multiset{})
  {
    if s.buttonPresses == 0 then FirstDeal(s, picks)
    else if s.roundsPlayed < RoundsPerGame then PlayRound(s)
    else s
  }

  /** The End Game button: log the game, then reset everything but the log and the game counter. */
  function EndGame(s: State): (r: State)
    ensures s.leaderboard <= r.leaderboard
    ensures r.leaderboard == s.leaderboard + [MakeEntry(s.gamesPlayed, s.roundsPlayed, s.playerCardCount, s.computerCardCount)]
    ensures r.gamesPlayed == s.gamesPlayed + 1
    ensures r.buttonPresses == 0 && r.roundsPlayed == 0
    ensures r.playerDeck == [] && r.computerDeck == [] && r.playerCardCount == 0 && r.computerCardCount == 0
    ensures r.playerCard == CardBack && r.computerCard == CardBack
    ensures r.shuffledDeck == s.shuffledDeck
  {
    var entry := MakeEntry(s.gamesPlayed, s.roundsPlayed, s.playerCardCount, s.computerCardCount);
    s.(
      leaderboard := s.leaderboard + [entry],
      gamesPlayed := s.gamesPlayed + 1,
      buttonPresses := 0,
      roundsPlayed := 0,
      playerCard := CardBack,
      computerCard := CardBack,
      playerCardCount := 0,
      computerCardCount := 0,
      playerDeck := [],
      computerDeck := [])
  }

  /** The log holds games 1, 2, 3, ... in order. */
  predicate GamesNumbered(log: seq<Entry>) {
    forall i :: 0 <= i < |log| ==> log[i].gameNumber == i + 1
  }

  /**
   * What holds between presses. Between games nothing is dealt. During a
   * game the two piles hold each of the 52 cards once between them, the
   * on-screen counts match the piles, and after r rounds each pile is within
   * r cards of 26. Leaderboard entries are numbered 1, 2, 3, ... and
   * gamesPlayed is the number of the game in progress.
   */
  ghost predicate Inv(s: State) {
    && s.gamesPlayed == |s.leaderboard| + 1
    && GamesNumbered(s.leaderboard)
    && s.shuffledDeck == []
    && (s.buttonPresses == 0 || s.buttonPresses == 1)
    && (s.buttonPresses == 0 ==>
          && s.roundsPlayed == 0
          && s.playerDeck == [] && s.computerDeck == []
          && s.playerCardCount == 0 && s.computerCardCount == 0
          && s.playerCard == CardBack && s.computerCard == CardBack)
    && (s.buttonPresses == 1 ==>
          && 1 <= s.roundsPlayed <= RoundsPerGame
          && s.playerCardCount == |s.playerDeck| && s.computerCardCount == |s.computerDeck|
          && HoldsEachCardOnce(multiset(s.playerDeck) + multiset(s.computerDeck))
          && |s.playerDeck| + |s.computerDeck| == 52
          && 26 - s.roundsPlayed <= |s.playerDeck| <= 26 + s.roundsPlayed)
  }

  lemma LaunchSatisfiesInv()
    ensures Inv(Launch())
  {
  }

  /** During a game, both piles keep at least 16 cards, so Deal Cards never reads an empty pile. */
  lemma InvKeepsPilesStocked(s: State)
    requires Inv(s)
    ensures 0 <= s.roundsPlayed <= RoundsPerGame
    ensures s.buttonPresses == 1 ==> |s.playerDeck| >= 16 && |s.computerDeck| >= 16
    ensures DealIsSafe(s)
  {
  }

  /** Piles that were empty before a deal of the whole deck hold each card once afterwards. */
  lemma FreshPilesHoldTheDeal(player: seq<Card>, computer: seq<Card>, player': seq<Card>, computer': seq<Card>, dealt: seq<Card>)
    requires player == [] && computer == [] && HoldsEachCardOnce(multiset(dealt))
    requires multiset(player') + multiset(computer') == multiset(player) + multiset(computer) + multiset(dealt)
    ensures HoldsEachCardOnce(multiset(player') + multiset(computer'))
  {
    assert multiset(player) == multiset{} && multiset(computer) == multiset{};
    assert multiset(player') + multiset(computer') == multiset(dealt);
  }

  /** The facts that make a state one inside a game. */
  lemma InGameSatisfiesInv(r: State)
    requires r.gamesPlayed == |r.leaderboard| + 1 && GamesNumbered(r.leaderboard)
    requires r.shuffledDeck == [] && r.buttonPresses == 1
    requires 1 <= r.roundsPlayed <= RoundsPerGame
    requires r.playerCardCount == |r.playerDeck| && r.computerCardCount == |r.computerDeck|
    requires HoldsEachCardOnce(multiset(r.playerDeck) + multiset(r.computerDeck))
    requires |r.playerDeck| + |r.computerDeck| == 52
    requires 26 - r.roundsPlayed <= |r.playerDeck| <= 26 + r.roundsPlayed
    ensures Inv(r)
  {
  }

  /** Starting a game with any ordering of the full deck leads to a state inside a game. */
  lemma StartGameKeepsInv(s: State, shuffled: seq<Card>)
    requires Inv(s) && s.buttonPresses == 0
    requires |shuffled| == 52 && HoldsEachCardOnce(multiset(shuffled))
    ensures Inv(StartGame(s, shuffled))
  {
    var r := StartGame(s, shuffled);
    FreshPilesHoldTheDeal(s.playerDeck, s.computerDeck, r.playerDeck, r.computerDeck, shuffled);
    InGameSatisfiesInv(r);
  }

  /** The first press of a game leads from a state between games to one inside a game. */
  lemma FirstDealKeepsInv(s: State, picks: seq<nat>)
    requires Inv(s) && s.buttonPresses == 0
    ensures Inv(FirstDeal(s, picks))
  {
    ShuffledDeckHoldsEachCardOnce(picks);
    StartGameKeepsInv(s, CreateShuffledDeck(picks));
  }

  /** A later press inside a game keeps the piles within one more card of 26 per round played. */
  lemma PlayRoundKeepsInv(s: State)
    requires Inv(s) && s.buttonPresses == 1 && s.roundsPlayed < RoundsPerGame
    ensures FrontsReadable(s.playerDeck, s.computerDeck)
    ensures Inv(PlayRound(s))
  {
    InvKeepsPilesStocked(s);
    InGameSatisfiesInv(PlayRound(s));
  }

  /** From any state between presses, Deal Cards does not trap and leads to such a state again. */
  lemma DealKeepsInv(s: State, picks: seq<nat>)
    requires Inv(s)
    ensures DealIsSafe(s) && Inv(DealCards(s, picks))
  {
    InvKeepsPilesStocked(s);
    if s.buttonPresses == 0 {
      FirstDealKeepsInv(s, picks);
      assert DealCards(s, picks) == FirstDeal(s, picks);
    } else if s.roundsPlayed < RoundsPerGame {
      PlayRoundKeepsInv(s);
      assert DealCards(s, picks) == PlayRound(s);
    } else {
      assert DealCards(s, picks) == s;
    }
  }

  /** End Game leads from a state between presses to another one. */
  lemma EndKeepsInv(s: State)
    requires Inv(s)
    ensures Inv(EndGame(s))
  {
    var r := EndGame(s);
    assert GamesNumbered(r.leaderboard) by {
      forall i | 0 <= i < |r.leaderboard|
        ensures r.leaderboard[i].gameNumber == i + 1
      {
        if i < |s.leaderboard| {
          assert r.leaderboard[i] == s.leaderboard[i];
        }
      }
    }
  }

  /** The entry End Game logs for a dealt game records the final piles, which hold all 52 cards. */
  lemma EndGameRecordsPiles(s: State)
    requires Inv(s) && s.buttonPresses == 1
    ensures var e := EndGame(s).leaderboard[|s.leaderboard|];
      && e.gameNumber == |s.leaderboard| + 1
      && e.playerCardsRemaining == |s.playerDeck| && e.computerCardsRemaining == |s.computerDeck|
      && e.playerCardsRemaining + e.computerCardsRemaining == 52
      && 1 <= e.roundsPlayed <= RoundsPerGame
      && (e.winner == DrawText <==> |s.playerDeck| == 26)
  {
  }

  /** A button press. */
  datatype Press = DealPress(picks: seq<nat>) | EndPress

  /** How many End Game presses a sequence holds. */
  function EndPresses(presses: seq<Press>): nat {
    if |presses| == 0 then 0
    else (if presses[0].EndPress? then 1 else 0) + EndPresses(presses[1..])
  }

  /** One press. */
  function Step(s: State, press: Press): (r: State)
    requires Inv(s)
    ensures Inv(r)
    ensures s.leaderboard <= r.leaderboard
    ensures |r.leaderboard| == |s.leaderboard| + (if press.EndPress? then 1 else 0)
  {
    match press
    case DealPress(picks) =>
      DealKeepsInv(s, picks);
      DealCards(s, picks)
    case EndPress =>
      EndKeepsInv(s);
      EndGame(s)
  }

  /** A prefix of a prefix is a prefix. */
  lemma PrefixOfPrefix(a: seq<Entry>, b: seq<Entry>, c: seq<Entry>)
    requires a <= b && b <= c
    ensures a <= c
  {
    assert c[..|a|] == c[..|b|][..|a|];
  }

  /**
   * A sequence of presses. The leaderboard only grows, by one entry per End
   * Game press, and never loses or changes an earlier entry.
   */
  function Run(s: State, presses: seq<Press>): (r: State)
    requires Inv(s)
    ensures Inv(r)
    ensures s.leaderboard <= r.leaderboard
    ensures |r.leaderboard| == |s.leaderboard| + EndPresses(presses)
    decreases |presses|
  {
    if |presses| == 0 then s
    else
      var next := Step(s, presses[0]);
      var r := Run(next, presses[1..]);
      PrefixOfPrefix(s.leaderboard, next.leaderboard, r.leaderboard);
      r
  }

  /**
   * Whatever the user presses from a state between presses: at most ten
   * rounds are played in a game, both piles keep at least 16 cards during a
   * game (so no pile is ever read empty), and the leaderboard keeps holding
   * games 1, 2, 3, ... in order, one more per End Game press.
   */
  lemma PressesStaySafe(s: State, presses: seq<Press>)
    requires Inv(s)
    ensures 0 <= Run(s, presses).roundsPlayed <= RoundsPerGame
    ensures var r := Run(s, presses);
      r.buttonPresses == 1 ==> |r.playerDeck| >= 16 && |r.computerDeck| >= 16
    ensures |Run(s, presses).leaderboard| == |s.leaderboard| + EndPresses(presses)
    ensures GamesNumbered(Run(s, presses).leaderboard)
    ensures DealIsSafe(Run(s, presses))
  {
    InvKeepsPilesStocked(Run(s, presses));
  }

  /** The same from launch: every state the app can reach is safe. */
  lemma ReachableStatesAreSafe(presses: seq<Press>)
    ensures 0 <= Run(Launch(), presses).roundsPlayed <= RoundsPerGame
    ensures var r := Run(Launch(), presses);
      r.buttonPresses == 1 ==> |r.playerDeck| >= 16 && |r.computerDeck| >= 16
    ensures |Run(Launch(), presses).leaderboard| == EndPresses(presses)
    ensures DealIsSafe(Run(Launch(), presses))
  {
    LaunchSatisfiesInv();
    PressesStaySafe(Launch(), presses);
  }
}
