# Blackjack hand scoring and value types, in Dafny

This project models the core of a console Blackjack game written in Java: the
participant's hand (`PlayerCards`) and how its score is computed, the `Card` value,
the validated wager (`BetAmount`), the two versions of `Player` found in the
repository (the older `blackjack.domain.Player` and the newer
`blackjack.domain.participant.Player`), and the `PlayerNamesDto` projection.

A hand's score is the sum of the cards' base scores, with every Ace counted as 1.
If the hand holds at least one Ace, 10 more is added once, provided the total
does not exceed 21. Only one Ace is ever promoted, whatever the number of Aces.
The model proves this rule in its closed forms (with or without an Ace, the
bounds, the never-bust promotion), the behaviour of appending cards, and some
worked hands.

Modules, one per source file:

- `Common` (`common.dfy`): `Result`/`Outcome` in place of the Java exceptions; Java `int` as `Int32` with explicit wrap-around.
- `Cards` (`cards.dfy`): `Card.java` and the card enums.
- `ScoreStates` (`score_states.dfy`): the bust test of `ScoreState`.
- `Hands` (`player_cards.dfy`): `PlayerCards.java`, as a class holding a `seq<Card>`. `add`, `addAll`, the `getScore` loop and `toList` are methods. `getCardNames`, `hasAceCard`, `handleAce` and `getFinalScore` are functions; `HandScore` is the score `getScore` returns, written as a function.
- `BetAmounts` (`bet_amount.dfy`): `BetAmount.java`.
- `LegacyPlayers` (`legacy_player.dfy`): `domain/Player.java`, as a datatype.
- `Participants` (`participant_player.dfy`): `domain/participant/Player.java`, as a class with a mutable state and bet amount.
- `PlayerNames` (`player_names_dto.dfy`): `PlayerNamesDto.java`.

Assumptions about collaborators whose source is not part of this model:

- `CardNumber.getScore`: Ace is 1, 2 to 10 are their face value, J/Q/K are 10.
- The suits and numbers are those of the standard 52-card deck.
- `ScoreState.of(s).isBust()` holds iff `s > 21`.
- The display values of `CardNumber` and `CardSuit` are parameters of `CardName`.
- The enum hash codes are parameters of `HashCode`.
- `Name`'s own validation is a parameter `nameAccepts`.
- The participant's initial state is a parameter of `From`.
- The participant state is an enum of which only `Hit` and `Stay` matter here.
- The participant's bet amount is a cell whose `initialize` records the value.

Where the code departs from the game's usual rules, the model follows the code:

- Usually a participant may hit while its score is below 21. The newer `Player.canHit` instead asks the participant state, and answers true for both the Hit and the Stay state. `Participants.Player.CanHit` keeps that.
- A wager is usually fixed once placed. The newer `Player` forwards to a mutable bet-amount object, and `InitBetAmount` models it that way.

## Model

| member | source | states |
|---|---|---|
| `Cards.CardNumber.Score` | src/main/java/blackjack/domain/PlayerCards.java:33-34 | a base score is between 1 and 10, and it is 1 exactly for the Ace |
| `Cards.Card.IsAce` | src/main/java/blackjack/domain/Card.java:19-21 | a card is an Ace iff its number is the Ace |
| `Cards.Equals` | src/main/java/blackjack/domain/Card.java:31-37 | `equals` holds iff the other object is a card with the same suit and the same number; null and other classes are never equal; this coincides with value equality |
| `Cards.HashCode` | src/main/java/blackjack/domain/Card.java:39-42 | the hash code is a 32-bit `int` congruent, modulo 2^32, to `961 + 31 * hash(suit) + hash(number)` (`Objects.hash` of the two fields) |
| `Cards.CardName` | src/main/java/blackjack/domain/Card.java:15-17 | the name starts with the number's display value and the rest is the suit's display value |
| `Cards.ConstructorKeepsFields` | src/main/java/blackjack/domain/Card.java:10-29 | `getSuit` and `getNumber` return exactly the constructor's arguments |
| `Cards.EqualsReflexiveSymmetric` | src/main/java/blackjack/domain/Card.java:31-37 | `equals` is reflexive and symmetric, and false for null and for other classes |
| `Cards.EqualCardsEqualHash` | src/main/java/blackjack/domain/Card.java:31-42 | equal cards have equal hash codes |
| `ScoreStates.Of` | src/main/java/blackjack/domain/PlayerCards.java:48-49 | the state of a score is bust iff the score exceeds 21 |
| `Hands.LowSum` | src/main/java/blackjack/domain/PlayerCards.java:30-35 | the summed base scores of n cards lie between n and 10n |
| `Hands.HasAceCard` | src/main/java/blackjack/domain/PlayerCards.java:56-59 | true iff some card of the hand is an Ace |
| `Hands.FinalScore` | src/main/java/blackjack/domain/PlayerCards.java:47-54 | the result is the score or the score plus 10, and it is the score plus 10 iff that is at most 21 |
| `Hands.HandleAce` | src/main/java/blackjack/domain/PlayerCards.java:39-45 | the result is the score plus 10 when the hand holds an Ace and that total is at most 21, and the score unchanged otherwise |
| `Hands.CardNamesOf` | src/main/java/blackjack/domain/PlayerCards.java:24-28 | one name per card, the i-th being the i-th card's name |
| `Hands.PlayerCards.constructor` | src/main/java/blackjack/domain/PlayerCards.java:12-14 | a new hand holds no cards |
| `Hands.PlayerCards.Add` | src/main/java/blackjack/domain/PlayerCards.java:16-18 | the new cards are the old cards followed by the added card |
| `Hands.PlayerCards.AddAll` | src/main/java/blackjack/domain/PlayerCards.java:20-22 | the new cards are the old cards followed by the given cards, in order |
| `Hands.PlayerCards.CardNames` | src/main/java/blackjack/domain/PlayerCards.java:24-28 | the names have the hand's length and the i-th is the i-th card's name |
| `Hands.PlayerCards.GetScore` | src/main/java/blackjack/domain/PlayerCards.java:30-37 | the loop's total is the low sum of the hand, and the returned score is `HandScore(cards)`, that low sum passed through the Ace rule (`HandleAce` with `HasAceCard`) |
| `Hands.PlayerCards.ToList` | src/main/java/blackjack/domain/PlayerCards.java:61-63 | the snapshot equals the current cards |
| `Hands.ScoreWithoutAce` | src/main/java/blackjack/domain/PlayerCards.java:30-45 | with no Ace, the score is the sum of the base scores |
| `Hands.ScoreWithAce` | src/main/java/blackjack/domain/PlayerCards.java:39-54 | with an Ace, the score is the low sum plus 10 if that is at most 21, else the low sum |
| `Hands.ScoreBounds` | src/main/java/blackjack/domain/PlayerCards.java:39-54 | the score lies between the low sum and the low sum plus 10; a promoted score is at most 21; only a hand with an Ace is ever promoted |
| `Hands.LowSumAppend` | src/main/java/blackjack/domain/PlayerCards.java:20-35 | the low sum of an `addAll` result is the sum of the two parts' low sums |
| `Hands.HasAceCardAppend` | src/main/java/blackjack/domain/PlayerCards.java:56-59 | a concatenation holds an Ace iff one of its parts does |
| `Hands.ScoreOfConcatenation` | src/main/java/blackjack/domain/PlayerCards.java:20-45 | the score after `addAll` depends only on the parts' low sums and Aces, so it is the same in either order |
| `Hands.OneAceWithOthers` | src/main/java/blackjack/domain/PlayerCards.java:30-54 | a hand holding one Ace, at any position, among non-Ace cards summing to s scores s + 11 when s is at most 10, else s + 1 |
| `Hands.ScoreCanDrop` | src/main/java/blackjack/domain/PlayerCards.java:30-54 | A+6 scores 17 and A+6+5 scores 12: adding a card can lower the score |
| `Hands.TwoAcesPromoteOnce` | src/main/java/blackjack/domain/PlayerCards.java:39-54 | two Aces score 12: a single promotion, never one per Ace |
| `Hands.ExampleHands` | src/main/java/blackjack/domain/PlayerCards.java:30-54 | A+K is 21; 10+10+5 is 25 and bust; 7+8 is 15; 9+9 is 18 |
| `BetAmounts.ValidateAmount` | src/main/java/blackjack/domain/BetAmount.java:20-27 | passes iff 1000 ≤ v ≤ 100000; below fails with the minimum error, above with the maximum error |
| `BetAmounts.Of` | src/main/java/blackjack/domain/BetAmount.java:15-18 | succeeds iff 1000 ≤ v ≤ 100000, and then `GetValue` (`getValue`, lines 29-31) returns exactly v and the amount's type keeps it within the bounds; otherwise fails with the error of the bound it breaks |
| `BetAmounts.BoundsInclusive` | src/main/java/blackjack/domain/BetAmount.java:5-27 | 1000 and 100000 are accepted; 999 fails with the minimum error and 100001 with the maximum error, each carrying its fixed message (`Message`, lines 22 and 25) |
| `LegacyPlayers.Player.IsBust` | src/main/java/blackjack/domain/Player.java:21-23 | a player is bust iff its state is exactly BUST |
| `LegacyPlayers.ValidateName` | src/main/java/blackjack/domain/Player.java:15-19 | fails iff the name is the reserved dealer name, with the reserved-name error |
| `LegacyPlayers.From` | src/main/java/blackjack/domain/Player.java:10-13 | the reserved name fails with the reserved-name error; any other name succeeds iff `Name` accepts it; a player created carries exactly the given name |
| `LegacyPlayers.DealerNameRefused` | src/main/java/blackjack/domain/Player.java:4-19 | "딜러" is refused even when `Name` would accept it, with the fixed message (`Message`, line 17) |
| `Participants.Player.constructor` | src/main/java/blackjack/domain/participant/Player.java:6-8 | a player holds the given name and the participant's initial state |
| `Participants.Player.CanHit` | src/main/java/blackjack/domain/participant/Player.java:26-30 | a player can hit iff its state is Hit or Stay; in every other state it cannot |
| `Participants.Player.InitBetAmount` | src/main/java/blackjack/domain/participant/Player.java:21-24 | the value reaches the bet amount, and the player's own fields do not change |
| `Participants.ValidateName` | src/main/java/blackjack/domain/participant/Player.java:15-19 | fails iff the name is the reserved dealer name, with the reserved-name error |
| `Participants.DealerNameRefused` | src/main/java/blackjack/domain/participant/Player.java:4-19 | "딜러" fails validation with the reserved-name error, whose message (`Message`, line 17) is fixed |
| `Participants.From` | src/main/java/blackjack/domain/participant/Player.java:10-13 | the reserved name fails with the reserved-name error; any other name succeeds iff `Name` accepts it; a newly allocated player, with its own newly allocated bet amount, carries exactly the given name |
| `PlayerNames.NamesOf` | src/main/java/blackjack/dto/PlayerNamesDto.java:17-20 | one name per player, the i-th being the i-th player's name |
| `PlayerNames.From` | src/main/java/blackjack/dto/PlayerNamesDto.java:17-22 | the names the DTO's `GetNames` (`getNames`) returns have the players' length and keep their order |
| `PlayerNames.EmptyAndStored` | src/main/java/blackjack/dto/PlayerNamesDto.java:13-26 | no players give no names; `GetNames` (`getNames`) returns exactly the list stored at construction |

## Left out

- `BlackjackController.java`: console input and output, and the retry-on-exception loop. The play loops are driven by user input and by `BlackjackGame`/`Dealer`, and neither is part of this model.
- `Player.multipleBetAmount(double)` (newer `Player`): it multiplies an unseen mutable bet amount by a floating-point factor.
- Settlement, dealer auto-play, deck shuffling and the state machine behind `getState()`. `BlackjackGame`, `Dealer`, `Deck`, `ScoreState` and the state classes are not part of this model, so no settlement or dealer rule is stated.
- `Name` validation and the `Participant` internals: they are parameters or fields (see the assumptions above).
- The display tables of `CardNumber` and `CardSuit`: `CardName` takes them as parameters.
- `Hands.PlayerCards.GetScore`: does not model 32-bit overflow of the running total. A hand drawn from one 52-card deck sums to at most 340, far below the `int` range. The model's card sequence is unbounded, so the total is an unbounded integer.
- `Cards.HashCode`: the enum hash codes are identity hashes chosen at run time, so they are parameters and no particular value is stated.
- `Cards.Equals`: reference identity (`this == o`) is not modelled separately. Cards are values here, and identity implies equal fields in any case.
- `BetAmounts.BetAmount`: the Java constructor is private, but a Dafny datatype constructor is public. `Of` returns the subset type `ValidBetAmount`, which keeps the range guarantee. A bare `BetAmount` built directly carries no such guarantee.
- `PlayerNames.PlayerNamesDto.GetNames`: Java returns the stored list object itself, and that list stays mutable, because the `names` field is package-private and not final. The model's `seq` is a value, so it captures neither that sharing nor later changes made through it.
