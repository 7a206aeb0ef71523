# Video poker core: cards, deck, hand analyzer, pay table

This project models the sequential core of a small video-poker program and
proves properties of the model.

- **Cards** (`Card.py`). A card is built from a suit token and a value token,
  suit first. Two fixed tables decode the tokens. The value tokens
  `2`..`9`, `t`, `j`, `q`, `k`, `a` become the int values 2..14 and the names
  Two..Ace. The suit tokens `c`, `d`, `h`, `s` become the codes 1..4 and the
  names Clubs..Spades. A token outside a table leaves the two fields it would
  have set at `None`. Nothing is raised.
- **Deck** (`Deck.py`). A `Deck` class holds a sequence of cards. `New`
  appends 52 cards through two nested loops, suits outer and values inner,
  without clearing what is already there. `Shuffle` is any permutation.
  `DealOne` removes and returns the last card. The constructor builds once
  and then shuffles.
- **Hand analyzer** (`HandAnalyzer.py`). A `HandAnalyzer` class holds five
  cards, the rest of the deck, the hand sorted by int value and two label
  fields. There are three checks: flush, straight (including A-2-3-4-5) and
  straight flush. `Analyze` sets the label fields through a chain of early
  returns: Royal Flush 10, Straight Flush 9, Flush 6, Straight 5. The other
  categories are commented out in the source, so for every other hand the
  fields keep their `None`. `Classify` is the pure label function that
  `Analyze` is proved against.
- **Pay table** (`PayoutTable.py`). A constant map from the ten hand
  categories to multipliers. A pair pays only when its rank is at least a
  Jack (11), as the comment on the Pair row demands.

The checks are proved equal to order-independent statements. A hand is a
straight when its bag of values spans exactly four (repeated values allowed)
or is A-2-3-4-5. A hand is a flush when all its suit codes are equal.

The model follows the code as written in several places:

- The straight test does not ask for distinct values. 5-5-6-7-9 passes,
  and so does four eights with a four.
- The Royal Flush test reads the first card as dealt, not the lowest one.
  Six to ten of one suit, dealt ten first, is labelled Royal Flush.
- No validation error is raised for unknown tokens or for repeated cards.

Modules:

- `Wrappers` holds `Option`.
- `Cards` is `Card.py`.
- `Decks` is `Deck.py`.
- `HandRanks` is the ten-member category type. Its source, `HandRank.py`, is
  imported by the pay table but is not part of this model, so the type is
  defined here.
- `Payouts` is `PayoutTable.py`.
- `Analysis` is `HandAnalyzer.py`.

## Model

| member | source | states |
|---|---|---|
| Cards.DecodeValue | Card.py:10-49 | A value token decodes exactly when it is one of the thirteen listed tokens. Its int value lies in 2..14, and the token and name sit at position int value − 2 of the token and name tables. |
| Cards.DecodeSuit | Card.py:50-62 | A suit token decodes exactly when it is one of `c`, `d`, `h`, `s`. Its code lies in 1..4, and the token and name sit at position code − 1 of the suit tables. |
| Cards.ValueTable | Card.py:10-49 | The i-th value token decodes to the i-th name and to i + 2, so "2".."9" give 2..9, "t" 10, "j" 11, "q" 12, "k" 13 and "a" 14. |
| Cards.SuitTable | Card.py:50-62 | The i-th suit token decodes to the i-th suit name and to i + 1, so c→1 Clubs, d→2 Diamonds, h→3 Hearts, s→4 Spades. |
| Cards.TokensDistinct | Card.py:10-62 | No value token or suit token is listed twice, and no token is in both tables, so each case table is unambiguous. |
| Cards.ValueDecodingInjective | Card.py:10-49 | Two recognised value tokens with the same int value are the same token. |
| Cards.SuitDecodingInjective | Card.py:50-62 | Two recognised suit tokens with the same code are the same token. |
| Cards.NewCard | Card.py:2-62 | The card keeps both tokens. A value field (or suit field) is `None` exactly when its token is unknown. A token at position i of its table gives that position's number and name. |
| Cards.AccessorsExposeDecoding | Card.py:70-76 | `get_int_value` and `get_int_suit` return the decoded number of a recognised token and `None` for any other token. |
| Decks.StandardDeckSize | Deck.py:11-13 | One build is 52 cards. |
| Decks.EveryPairPresent | Deck.py:12-65 | Every (suit token, value token) pair of the 4 × 13 vocabulary is built, and every built card's tokens come from that vocabulary. |
| Decks.NoPairTwice | Deck.py:12-65 | No two positions of a build carry the same (suit token, value token) pair. |
| Decks.StandardDeckDecodes | Deck.py:14-62 | Each built card's full value, int value and full suit are what the card tables give for its two tokens. |
| Decks.BuiltCardIsStandard | Deck.py:12-65 | The card the loop body builds for suit index si and value index vi is the card at position 13·si + vi of a build. |
| Decks.Deck.New | Deck.py:11-65 | The deck's new contents are the old contents followed by one full build. Nothing is cleared. |
| Decks.Deck.constructor | Deck.py:6-9 | A fresh deck holds 52 cards, and its cards are a permutation of one build. |
| Decks.Deck.Shuffle | Deck.py:67-68 | The deck's cards after the shuffle are a permutation of the cards before it. |
| Decks.Deck.DealOne | Deck.py:70-71 | On a non-empty deck, the deal returns the last card and leaves the old prefix one card shorter. The old cards are the new cards plus the dealt one. |
| Decks.BuildTwice | Deck.py:6-65 | Building again after construction gives 104 cards. |
| HandRanks.Code | HandAnalyzer.py:24-51 | Each category's code lies in 1..10 and is its position in the ascending order plus one. Straight is 5, Flush 6, Straight Flush 9, Royal Flush 10. |
| HandRanks.AscendingListsEachOnce | HandAnalyzer.py:24-51 | The ascending list holds each of the ten categories exactly once, at the position its code names. |
| HandRanks.CodesAndNamesDistinct | HandAnalyzer.py:26-43 | Distinct categories have distinct codes and distinct names. |
| Payouts.TableValues | PayoutTable.py:3-14 | The multipliers are Royal 800, Straight Flush 50, Four of a Kind 25, Full House 9, Flush 6, Straight 4, Three of a Kind 3, Two Pair 2, Pair 1 and High Card 0. |
| Payouts.TableCoversEveryCategory | PayoutTable.py:3-14 | Every category is a key of the table, and the table has exactly ten entries. |
| Payouts.TableStrictlyDecreasing | PayoutTable.py:4-13 | In the listed order every multiplier is strictly smaller than every one above it. |
| Payouts.PayoutIncreasesWithCode | PayoutTable.py:3-14 | A category with a higher analyzer code has a strictly larger multiplier. |
| Payouts.Payout | PayoutTable.py:12 | A category other than Pair pays its table multiplier. A Pair pays 1 exactly when its rank is at least 11 and 0 exactly when it is below 11. No payout exceeds 800. |
| Payouts.JacksOrBetterGate | PayoutTable.py:12 | A pair of tens pays 0, a pair of Jacks pays 1, and High Card pays 0 whatever its rank. |
| Analysis.Values | HandAnalyzer.py:10 | The value list has one entry per card, in card order, and each entry is that card's int value. |
| Analysis.Insert | HandAnalyzer.py:7 | Inserting a card into a sorted hand gives a sorted hand that holds exactly the old cards plus the new one. |
| Analysis.SortByValue | HandAnalyzer.py:7 | The sorted hand is non-decreasing by int value and is a permutation of the input cards, with the same length. |
| Analysis.ValuesPermutation | HandAnalyzer.py:7-10 | Cards that are a permutation of each other have values that are a permutation of each other. |
| Analysis.SortedUnique | HandAnalyzer.py:7-10 | Two sorted value lists that are permutations of each other are equal. |
| Analysis.SortedStraight | HandAnalyzer.py:11 | On sorted values, "last − first == 4 or exactly [2, 3, 4, 5, 14]" holds iff the bag of values spans four or is A-2-3-4-5. |
| Analysis.StraightIff | HandAnalyzer.py:9-12 | `check_straight` on the sorted hand holds iff the hand's bag of values spans exactly four or is A-2-3-4-5. Repeated values are allowed. |
| Analysis.FlushIff | HandAnalyzer.py:14-16 | `check_flush` holds iff all suit codes of the hand are equal. |
| Analysis.StraightFlushIff | HandAnalyzer.py:18-22 | `check_straight_flush` holds iff the hand is both suited and a straight in the order-independent sense. |
| Analysis.StraightOrderIndependent | HandAnalyzer.py:7-11 | Two orderings of the same five cards give the same straight verdict. |
| Analysis.FlushOrderIndependent | HandAnalyzer.py:15-16 | Two orderings of the same cards give the same flush verdict. |
| Analysis.ClassifyPrecedence | HandAnalyzer.py:24-51 | The label is Royal Flush iff the hand is suited, a straight and dealt a ten first. Otherwise it is Straight Flush iff suited and a straight, then Flush iff suited, then Straight iff a straight. Otherwise there is no label. |
| Analysis.SuitedSpanLabel | HandAnalyzer.py:25-32 | A suited hand whose values span four is Royal Flush when its first dealt card is a ten and Straight Flush otherwise. |
| Analysis.SuitedWheelIsStraightFlush | HandAnalyzer.py:9-32 | A suited A-2-3-4-5 is a Straight Flush, never a Royal Flush, in any deal order. |
| Analysis.UnsuitedSpanIsStraight | HandAnalyzer.py:24-43 | Five cards whose values lie in [lo, lo + 4], include both ends, and whose first two suits differ are labelled Straight. |
| Analysis.SuitedSpanByFirstCard | HandAnalyzer.py:25-32 | The same values on five cards of one suit give Royal Flush exactly when the first dealt value is 10, and Straight Flush otherwise. |
| Analysis.UnsuitedNoStraightUnlabelled | HandAnalyzer.py:33-51 | Five cards whose values make no straight and whose first two suits differ get no label. |
| Analysis.DriverHandIsStraight | main.py:10-14 | The driver script's hand 4s 5c 6s 7s 8s has decoded values and is labelled Straight. |
| Analysis.RoyalFollowsFirstDealtCard | HandAnalyzer.py:25 | Six to ten of spades dealt ten first is labelled Royal Flush. The same cards dealt six first are labelled Straight Flush. |
| Analysis.AceFirstBroadwayIsStraightFlush | HandAnalyzer.py:25 | Ten to ace of spades dealt ace first is labelled Straight Flush, not Royal Flush. |
| Analysis.RepeatedValueStraight | HandAnalyzer.py:11 | 5c 5d 6h 7s 9c is labelled Straight, although it repeats a value. |
| Analysis.FourOfAKindCanBeStraight | HandAnalyzer.py:9-44 | Four eights and a four are labelled Straight. |
| Analysis.FourOfAKindUnlabelled | HandAnalyzer.py:33-51 | Four eights and a two get no label, because the later checks are disabled. |
| Analysis.LabelFields | HandAnalyzer.py:26-43 | The name and code `analyze` writes for each of the four recognised categories. |
| Analysis.HandAnalyzer.constructor | HandAnalyzer.py:2-7 | The analyzer keeps the cards and the deck. Both label fields start at `None`. The sorted field is the hand sorted by int value. |
| Analysis.HandAnalyzer.Analyze | HandAnalyzer.py:24-51 | The label fields become the name and code of the hand's label, or stay `None` when no check passes. The cards, the deck and the sorted hand are unchanged. |
| Analysis.AnalyzeHand | HandAnalyzer.py:2-51 | Building an analyzer and analysing it yields the name and code of the hand's label. |
| Analysis.AnalyzeDriverHand | main.py:10-14 | The driver script's run labels its hand "Straight" with code 5. |

## Left out

- Printing is not modelled: `show_full`, `show_mini`, `print_hand_rank` and the driver's card print. It is output only.
- `Player.py`, the GUI and the simulator `VideoPokerSim.py` are not part of this model. The simulator calls analysis functions that `HandAnalyzer.py` does not define.
- The driver script calls `player.inject` and `print_cards`, which `Player.py` does not define. `Analysis.AnalyzeDriverHand` takes the five cards the script names, built as value token plus suit token, and the rest of the deck as a parameter.
- Decks.Deck.Shuffle: only the permutation is stated. Which permutation `random.shuffle` picks is left open.
- `Deck.py:64` passes five arguments to a card constructor that takes two (`Card.py:2`), and in value-then-suit order. As written, that call raises an error. The model's deck element is the five-field record the builder evidently means to keep.
- Analysis.HandAnalyzer.constructor: requires exactly five cards, all with decoded values. With an unknown value token, `sorted` would compare `None` values, and with fewer than five cards `card_values[4]` would fail.
- Analysis.SortByValue: stability is not stated. The sort slots each card in front of later cards of equal value, so it keeps the stable order, but only sortedness and the permutation are proved.
- `check_straight` returns `True` or `None` in the source; it is modelled as a boolean, with `None` as false.
- The commented-out checks (four of a kind, full house, three of a kind, two pair, pair, high card) are not modelled. They are disabled, so those hands get no label.
- The pay table's Pair gate reads a `primary` rank that nothing in the shown code computes. `Payouts.Payout` takes it as a parameter.
