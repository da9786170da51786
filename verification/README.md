# War-style card game engine, in Dafny

This project models the game engine of a small SwiftUI card game
(`K1840988_Swift_Card_Game.swiftpm/ContentView.swift`) and proves properties
of it. Two players, "player" and "computer", each hold a pile of cards. Every
press of **Deal Cards** compares the two front cards:

- the higher rank captures both cards onto the back of its own pile;
- equal ranks send each front card to the back of its own pile.

A game lasts at most ten rounds. **End Game** logs a leaderboard entry naming
the side holding more cards and resets the table.

Modules (one file each):

| module | file | what it holds |
|---|---|---|
| `Wrappers` | `wrappers.dfy` | `Option` |
| `Cards` | `cards.dfy` | `Suit`, `Rank` with their raw values, the immutable `Card`, `compareRank`/`compareSuit` |
| `ImageKeys` | `image_key.dfy` | image names of face-up cards (`get*CardImage`): the rank's raw value in decimal, then the suit letter |
| `Deck` | `deck.dfy` | `createDeck`, and `createShuffledDeck` as a shuffle driven by a random source |
| `Split` | `split.dfy` | `splitIntoTwoDecks` |
| `Round` | `round.dfy` | `dealFirstFrom*Hand`, `gameLogic` (as written and corrected) |
| `Leaderboard` | `leaderboard.dfy` | `LeaderboardEntry.init` |
| `Game` | `game.dfy` | the two button actions, as functions on an explicit `State` record |

How the model represents the source:

- The view's `@State` variables, the global `shuffledDeck`, `playerDeck`,
  `computerDeck` and the `leaderboardEntries` log are gathered into one
  immutable `Game.State` value. Each button press is a function from state to
  state.
- The library shuffle `shuffled()` is `Deck.Shuffle(deck, picks)`. The `picks`
  sequence stands for the random source: each pick chooses, modulo the cards
  left, the next card of the result. Two proofs show this is exactly "some
  permutation": every result is a permutation (`Deck.Shuffle`), and every
  permutation is produced by some picks (`Deck.EveryPermutationIsAShuffle`).
- A Swift runtime trap is modelled in one of two ways. Either it is a
  precondition, when the proofs show that the app never reaches it: an index
  past the end in `Split.SplitIntoTwoDecks`, or a Deal Cards press that reads
  an empty pile (`Game.DealIsSafe`). Or it is a `None` result, in
  `Round.GameLogicAsWritten`.
- `dealFirstFromPlayerHand` and `dealFirstFromComputerHand` (lines 140-157)
  return `pile[0]` and leave the pile as it was. The model reads the front as
  `Round.DealFirst`, and their empty-pile trap is its precondition
  `|pile| > 0`. Inside `gameLogic` that trap shows up as the `None` result of
  `Round.GameLogicAsWritten`.
- `Game.PlayRound` runs the corrected `Round.GameLogic`, not
  `Round.GameLogicAsWritten`. Under `Round.FrontsReadable` (both piles hold
  cards, which every reachable press meets) the two agree, by
  `Round.GameLogicAgreesWhereDefined`.
- The source compares piles by their raw rank values (`rawValue`). The model
  does the same through `Cards.RankValue`.

## Model

| member | source | states |
|---|---|---|
| Cards.RankValue | K1840988_Swift_Card_Game.swiftpm/ContentView.swift:13-28 | A rank's raw value lies in 1..13 and is its 1-based position in the declared order, ace first. |
| Cards.SuitCode | K1840988_Swift_Card_Game.swiftpm/ContentView.swift:4-10 | A suit's raw value is one of the letters C, D, H, S. |
| Cards.RankFromValue | K1840988_Swift_Card_Game.swiftpm/ContentView.swift:13-28 | `Rank(rawValue:)`: some rank exactly when the value is in 1..13, and that rank has the value. |
| Cards.SuitFromCode | K1840988_Swift_Card_Game.swiftpm/ContentView.swift:4-10 | `Suit(rawValue:)`: some suit exactly for the four letters, and that suit has the letter. |
| Cards.RankValuesAreOrdinals | K1840988_Swift_Card_Game.swiftpm/ContentView.swift:15-27 | The k-th declared rank has raw value k + 1 (ace = 1 and each later case counts up by one). |
| Cards.RawValuesRoundTrip | K1840988_Swift_Card_Game.swiftpm/ContentView.swift:4-28 | Raw values identify ranks and letters identify suits: converting to the raw value and back gives the original. |
| Cards.CompareRank | K1840988_Swift_Card_Game.swiftpm/ContentView.swift:56-59 | `compareRank` is true exactly when the two raw rank values are equal. |
| Cards.CompareSuit | K1840988_Swift_Card_Game.swiftpm/ContentView.swift:61-64 | `compareSuit` is true exactly when the two suit letters are equal. |
| Cards.CompareBothMeansEqual | K1840988_Swift_Card_Game.swiftpm/ContentView.swift:31-64 | Two cards agree in both comparisons exactly when they are the same card. |
| ImageKeys.Decimal | K1840988_Swift_Card_Game.swiftpm/ContentView.swift:162 | Interpolating a number gives a non-empty string of digits, one digit long exactly for numbers below ten, with no leading zero (only zero itself starts with `0`). |
| ImageKeys.DecimalRoundTrip | K1840988_Swift_Card_Game.swiftpm/ContentView.swift:162 | Reading the interpolated digits back as a number gives the original number. |
| ImageKeys.RankTextIsDecimal | K1840988_Swift_Card_Game.swiftpm/ContentView.swift:162 | The rank part of an image name is the decimal spelling of the rank's raw value. |
| ImageKeys.ImageKey | K1840988_Swift_Card_Game.swiftpm/ContentView.swift:160-168 | An image name is two or three characters long: rank digits with no leading zero, then the card's suit letter. |
| ImageKeys.ImageKeyRoundTrip | K1840988_Swift_Card_Game.swiftpm/ContentView.swift:160-168 | Every face-up image name parses back to its card (rank from the leading digits, suit from the last letter). |
| ImageKeys.ImageKeysDistinguishCards | K1840988_Swift_Card_Game.swiftpm/ContentView.swift:160-168 | Two cards have the same image name exactly when they are the same card, and no card's name is the card back `green_back`. |
| Deck.SuitRun | K1840988_Swift_Card_Game.swiftpm/ContentView.swift:102-105 | The inner loop appends one card per rank, in rank order, all of the given suit. |
| Deck.SuitRuns | K1840988_Swift_Card_Game.swiftpm/ContentView.swift:100-106 | The nested loops give 13 cards per suit, and the card at index i has rank `ranks[i % 13]` and suit `suits[i / 13]`. |
| Deck.CreateDeck | K1840988_Swift_Card_Game.swiftpm/ContentView.swift:75-110 | `createDeck` returns 52 cards, and the card at index i is (rank `i % 13`, suit `i / 13`) in declaration order, suit-major. |
| Deck.CreateDeckRankValues | K1840988_Swift_Card_Game.swiftpm/ContentView.swift:75-110 | The card at index i of the ordered deck has rank raw value `i % 13 + 1`. |
| Deck.DeckIndex | K1840988_Swift_Card_Game.swiftpm/ContentView.swift:75-110 | Every card has a position below 52 in the ordered deck. |
| Deck.CreateDeckIsDistinct | K1840988_Swift_Card_Game.swiftpm/ContentView.swift:75-110 | The ordered deck has no repeated card. |
| Deck.CreateDeckIsComplete | K1840988_Swift_Card_Game.swiftpm/ContentView.swift:75-110 | The ordered deck contains every one of the 52 rank/suit pairs. |
| Deck.EachCardOnceIsTheFullDeck | K1840988_Swift_Card_Game.swiftpm/ContentView.swift:75-110 | A collection of cards holds each card exactly once if and only if it holds exactly the cards of the ordered deck. |
| Deck.Shuffle | K1840988_Swift_Card_Game.swiftpm/ContentView.swift:118 | `shuffled()`: whatever the random source, the result has the same length and the same cards (as a multiset) as its input. |
| Deck.EveryPermutationIsAShuffle | K1840988_Swift_Card_Game.swiftpm/ContentView.swift:118 | Conversely, every rearrangement of the input is the result for some random source. |
| Deck.CreateShuffledDeck | K1840988_Swift_Card_Game.swiftpm/ContentView.swift:116-119 | `createShuffledDeck` stores 52 cards that are a rearrangement of the ordered deck. |
| Deck.ShuffledDeckIsFull | K1840988_Swift_Card_Game.swiftpm/ContentView.swift:116-119 | The shuffled deck has no repeats and contains every card. |
| Deck.ShuffledDeckHoldsEachCardOnce | K1840988_Swift_Card_Game.swiftpm/ContentView.swift:116-119 | Whatever the random source, the shuffled deck holds each of the 52 cards exactly once. |
| Deck.EveryOrderCanBeShuffled | K1840988_Swift_Card_Game.swiftpm/ContentView.swift:116-119 | Every ordering of the 52 cards is a possible shuffled deck. |
| Split.EvenPositions | K1840988_Swift_Card_Game.swiftpm/ContentView.swift:131-132 | The player's share of n passes is n cards, the i-th being the deck's card at position 2i. |
| Split.OddPositions | K1840988_Swift_Card_Game.swiftpm/ContentView.swift:134-135 | The computer's share of n passes is n cards, the i-th being the deck's card at position 2i + 1. |
| Split.DealPairs | K1840988_Swift_Card_Game.swiftpm/ContentView.swift:129-136 | n passes of the loop append the even-position cards to the player's pile and the odd-position cards to the computer's, leave the deck without its first 2n cards, and conserve the cards. |
| Split.SplitIntoTwoDecks | K1840988_Swift_Card_Game.swiftpm/ContentView.swift:127-137 | `splitIntoTwoDecks` deals the first 52 cards alternately onto the back of the piles, player first, and loses or gains no card. |
| Split.DealWholeDeckConserves | K1840988_Swift_Card_Game.swiftpm/ContentView.swift:129-136 | Dealing a whole deck onto empty piles leaves the deck empty, and the two piles together hold exactly the deck's cards. |
| Split.DealWholeDeckAlternates | K1840988_Swift_Card_Game.swiftpm/ContentView.swift:129-136 | Dealing a deck of 2n cards onto empty piles gives n cards each, even positions to the player and odd positions to the computer. |
| Split.SplitFullDeck | K1840988_Swift_Card_Game.swiftpm/ContentView.swift:127-137 | On a 52-card deck and empty piles: the deck ends empty, each side gets 26 cards in deck order (player the even positions, computer the odd ones), and the two piles hold exactly the deck's cards. |
| Split.SplitPilesAreDisjoint | K1840988_Swift_Card_Game.swiftpm/ContentView.swift:127-137 | Dealt from a deck without repeats, the two piles share no card. |
| Round.MoveFrontToBack | K1840988_Swift_Card_Game.swiftpm/ContentView.swift:200-201 | `insert(remove(at: 0), at: count)` moves the front card to the back: same length and cards, the rest kept in order. |
| Round.Capture | K1840988_Swift_Card_Game.swiftpm/ContentView.swift:185-195 | A capture leaves the winner with its tail followed by the loser's front and then its own front, and the loser with its tail. No card is lost. |
| Round.Resolve | K1840988_Swift_Card_Game.swiftpm/ContentView.swift:175-202 | Body of `gameLogic` on two non-empty piles. The higher raw rank captures, in the order just stated, and equal ranks rotate both piles by one. The two piles together keep their cards. |
| Round.GameLogicAsWritten | K1840988_Swift_Card_Game.swiftpm/ContentView.swift:170-204 | `gameLogic` as written traps exactly when one pile is empty and the other is not. Otherwise it keeps the cards of both piles, and it does nothing when both are empty. |
| Round.OrGuardAdmitsEmptyFront | K1840988_Swift_Card_Game.swiftpm/ContentView.swift:173 | With an empty player pile and a one-card computer pile, the guard as written passes, no front card can be read, and the round traps. |
| Round.GameLogic | K1840988_Swift_Card_Game.swiftpm/ContentView.swift:170-204 | `gameLogic` with the guard its comment states (both piles hold cards). It keeps the cards and total size of the two piles and changes each pile by at most one card. It leaves the piles alone when either is empty. |
| Round.GameLogicAgreesWhereDefined | K1840988_Swift_Card_Game.swiftpm/ContentView.swift:170-204 | The corrected round returns what the source returns wherever the source does not trap, and the source traps exactly when its guard passes but a front cannot be read. |
| Round.RoundOutcomes | K1840988_Swift_Card_Game.swiftpm/ContentView.swift:178-202 | A side grows by one card exactly when its front rank is strictly higher, and neither side changes size exactly when the ranks are equal. The two changes cancel. A standoff keeps each pile's own cards. |
| Round.RoundIsSymmetric | K1840988_Swift_Card_Game.swiftpm/ContentView.swift:178-202 | The rules favour neither side: swapping the piles swaps the outcome. |
| Leaderboard.MakeEntry | K1840988_Swift_Card_Game.swiftpm/ContentView.swift:217-236 | `LeaderboardEntry.init` stores the four counts as given. The winner is "Draw" exactly on equal counts, "Player wins" exactly when the player holds more, and "Computer wins" exactly when the computer does. |
| Leaderboard.WinnerIsSymmetric | K1840988_Swift_Card_Game.swiftpm/ContentView.swift:224-235 | Swapping the two counts swaps "Player wins" with "Computer wins" and keeps a draw a draw. |
| Game.PlayRound | K1840988_Swift_Card_Game.swiftpm/ContentView.swift:332-340 | A round played from Deal Cards keeps the log, game number, press flag and shuffled deck, counts one more round, and shows on-screen counts equal to the new pile sizes. The two piles keep their cards and total size, and the player's pile changes by at most one card. |
| Game.StartGame | K1840988_Swift_Card_Game.swiftpm/ContentView.swift:317-328 | A first press deals the whole shuffled deck onto the piles (leaving `shuffledDeck` empty), sets the press flag, plays one round, and adds the deck's 52 cards to the piles. The player's pile ends within one card of 26 more than before. |
| Game.StartGameShowsTopCards | K1840988_Swift_Card_Game.swiftpm/ContentView.swift:317-320 | On empty piles, the first press shows the top two cards of the shuffled deck, the first as the player's and the second as the computer's. |
| Game.FirstDeal | K1840988_Swift_Card_Game.swiftpm/ContentView.swift:314-329 | The first press of a game adds exactly the cards of the ordered deck to the piles and counts one round. |
| Game.DealCards | K1840988_Swift_Card_Game.swiftpm/ContentView.swift:312-342 | Deal Cards never touches the log or the game number. After ten rounds it changes nothing. It counts one round whenever it plays one. It adds the 52 cards to the piles on the first press of a game and conserves them on later presses. |
| Game.EndGame | K1840988_Swift_Card_Game.swiftpm/ContentView.swift:352-371 | End Game keeps every earlier log entry and appends exactly one, built from the game number, rounds and on-screen counts. It increments the game number and resets the flag, rounds, counts, images and piles. |
| Game.LaunchSatisfiesInv | K1840988_Swift_Card_Game.swiftpm/ContentView.swift:269-277 | The state at launch (game 1, nothing dealt, card backs shown) is a state between games. |
| Game.InvKeepsPilesStocked | K1840988_Swift_Card_Game.swiftpm/ContentView.swift:312-342 | In every state the invariant allows, at most ten rounds have been played. During a game both piles hold at least 16 cards, so Deal Cards never reads an empty pile. |
| Game.StartGameKeepsInv | K1840988_Swift_Card_Game.swiftpm/ContentView.swift:314-329 | Starting a game from a state between games, with any ordering of the 52 cards, leads to a state inside a game. |
| Game.FirstDealKeepsInv | K1840988_Swift_Card_Game.swiftpm/ContentView.swift:314-329 | Whatever the random source, the first press leads from a state between games to a state inside a game. |
| Game.PlayRoundKeepsInv | K1840988_Swift_Card_Game.swiftpm/ContentView.swift:330-341 | A later press inside a game, before the tenth round, can read both fronts and stays inside a game. |
| Game.DealKeepsInv | K1840988_Swift_Card_Game.swiftpm/ContentView.swift:312-342 | From any state the invariant allows, Deal Cards does not trap, and it leads to such a state again. |
| Game.EndKeepsInv | K1840988_Swift_Card_Game.swiftpm/ContentView.swift:352-371 | End Game leads from any state the invariant allows to a state between games, with the log still numbered 1, 2, 3, .... |
| Game.EndGameRecordsPiles | K1840988_Swift_Card_Game.swiftpm/ContentView.swift:352-371 | After a dealt game, the logged entry numbers the game next in the log and records the two pile sizes, which add up to 52, and 1 to 10 rounds. It records a draw exactly when the player holds 26. |
| Game.Step | K1840988_Swift_Card_Game.swiftpm/ContentView.swift:312-371 | Any single press keeps the invariant, never removes or changes a log entry, and adds one entry exactly for End Game. |
| Game.Run | K1840988_Swift_Card_Game.swiftpm/ContentView.swift:312-371 | Over any sequence of presses the invariant holds, the log only grows, and it grows by one entry per End Game press. |
| Game.PressesStaySafe | K1840988_Swift_Card_Game.swiftpm/ContentView.swift:312-371 | From any state the invariant allows, after any presses: at most ten rounds, both piles hold at least 16 cards during a game, no deal traps, and the log holds games 1, 2, 3, ... in order with one more per End Game press. |
| Game.ReachableStatesAreSafe | K1840988_Swift_Card_Game.swiftpm/ContentView.swift:269-371 | The same from launch: every reachable state has at most ten rounds, no empty pile during a game, a safe Deal Cards press, and one log entry per End Game press. |

## Left out

- SwiftUI layout, images, fonts, padding, navigation and `LeaderBoardView`
  (lines 279-311, 343-424). These are presentation only; the model keeps
  only the image names and counts the view shows.
- The distribution of `shuffled()`. It is a library call with hidden
  randomness. The model covers every possible outcome, not how likely each is.
- `UUID()` ids of leaderboard entries (line 210). They are a foreign call, and
  no behaviour depends on them.
- `Card.describe()` (lines 67-70), which only prints to the console.
- The trivial getters (`getRank`, `getSuit`, `getGameNumber`, ...). They are
  the datatype fields.
- Swift's class and reference semantics for `Card`, and the global mutable
  arrays. Cards are values and the globals are fields of `Game.State`, which
  is sound because no card is ever mutated or aliased for identity.
- Swift `Int` overflow of `gamesPlayed` and the log length. It would need
  about 2^63 End Game presses, so the counters are unbounded integers.
- Game.DealCards: requires `Game.DealIsSafe`, because a press that reads an
  empty pile traps in the source. `Game.DealKeepsInv` and
  `Game.ReachableStatesAreSafe` prove that no reachable state violates it.
- Round.DealFirst: requires a non-empty pile, because the source traps
  otherwise. `gameLogic` calls it too (lines 178 and 181-182), after the OR
  guard of line 173, which lets it through with one pile empty; that path is
  the `None` result of `Round.GameLogicAsWritten`. The Deal Cards calls at
  lines 319-320 and 332-333 never reach an empty pile, by
  `Game.ReachableStatesAreSafe`.
- Split.SplitIntoTwoDecks: requires at least 52 cards, because the source
  takes 52 cards off the front of the shuffled deck (lines 129-136) and traps
  once it is empty. Its only caller (line 317) passes the freshly shuffled
  52-card deck.
- A plain-language description of a capture could read as "the winner gains
  two cards and the loser loses two". The code moves one card across and
  rotates the winner's own front card, so sizes change by +1 and -1. The model
  follows the code.

## Findings

| source | as written | input that shows it | evidently intended | confidence | as-written member | corrected member |
|---|---|---|---|---|---|---|
| K1840988_Swift_Card_Game.swiftpm/ContentView.swift:173 | The round runs when either pile count is non-zero (an OR of the two tests). | Player pile `[]` and computer pile `[Card(ace, clubs)]`: the guard passes and `playerDeck[0]` traps. | `&&`, as the comment on line 172 says ("both piles have Cards remaining"): skip the round unless both piles hold cards. | medium: the app caps games at ten rounds, so a pile never empties (proved in `Game.ReachableStatesAreSafe`) and the trap is latent; not executed | Round.GameLogicAsWritten, with Round.OrGuardAdmitsEmptyFront | Round.GameLogic, with Round.GameLogicAgreesWhereDefined |
