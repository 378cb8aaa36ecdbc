# Blackjack trainer engine in Dafny

This project models the decision and counting engine of a manual-entry
blackjack trainer. The user enters the cards seen at a table one at a
time, into the player's hand or the dealer's. The trainer then does five
things:

- it keeps the Hi-Lo running count;
- it suggests a bet from the true count (the running count divided by six assumed decks);
- it values hands, treating aces as soft or hard;
- it gives basic-strategy advice (split, double, hit or stand, each with a reason);
- it resolves a round against the bankroll and logs it to a history.

The engine lives in `src/App.jsx`. The model has five modules:

- `Cards` (`cards.dfy`): the thirteen ranks, their labels, the blackjack value of a card and its Hi-Lo tag.
- `Hands` (`hands.dfy`): the hand total.
  - `HandTotal` is a closed-form specification: how many aces must count as 1.
  - The method `HandValue` runs the trainer's loops: count the aces, add up the cards, then take ten off one ace at a time while the hand busts. It is proved equal to `HandTotal`.
- `Strategy` (`strategy.dfy`): the first-match-wins advice table, as a function over an `Advice` datatype. `Text` gives the exact strings the trainer shows.
- `Counting` (`counting.dfy`):
  - the running count over a sequence of cards;
  - the exact true count, as a `real`;
  - the bet sizer. Its thresholds at true counts 5, 3 and 1 are proved to be exactly running counts 30, 18 and 6.
- `Trainer` (`trainer.dfy`): the session as a class. Its fields are the two hands, `count`, `bankroll`, `bet` and the append-only `log`.
  - Entering a card, resetting the hand and resolving a round are methods, each one atomic state change.
  - A ghost field `seen` holds every card entered in the session.
  - The object invariant `Valid` says four things: the count is the Hi-Lo sum of `seen`; the bet is one the sizer can suggest; the bankroll is 1000 plus the payouts of the logged rounds; every logged outcome is the one its hands settle to.

5-6 against a 6 totals 11, so the total-11 rule (src/App.jsx:39) gives
"Double (maximum power)"; the total-9 rule (src/App.jsx:41) cannot apply to
it (`Strategy.ExampleFiveSix`). Rule order does matter for A-A against a 2:
the pair rule (src/App.jsx:33) comes ahead of the hit/stand table, so the
hand splits although its total of 12 would otherwise meet that table
(`Strategy.ExampleAcesSplit`).

## Model

| member | source | states |
|---|---|---|
| `Cards.AllRanksListsEveryRankOnce` | src/App.jsx:3 | The card list offers all thirteen ranks, each exactly once. |
| `Cards.Label` | src/App.jsx:3 | A label has one or two characters. It has two exactly for the 10. It starts with a digit exactly on a number card (2 to 10). |
| `Cards.FromLabel` | src/App.jsx:3 | A recognised label is the label of the rank returned. Text that is no rank's label is rejected. |
| `Cards.LabelRoundTrip` | src/App.jsx:3 | Reading a rank's label gives back that rank. |
| `Cards.CardValue` | src/App.jsx:5-9 | Every value lies in [2, 11]. The value is 11 exactly for an ace and 10 exactly for 10/J/Q/K. A number card is worth the digit on its label. |
| `Cards.HiLo` | src/App.jsx:11-15 | The tag is -1, 0 or 1: +1 exactly for values 2–6, 0 exactly for 7–9, -1 exactly for 10/J/Q/K/A. |
| `Hands.RawSum` | src/App.jsx:18-20 | With aces as 11, the sum of n cards lies between 2n and 11n. |
| `Hands.AceCount` | src/App.jsx:19 | The ace count is the number of occurrences of Ace in the hand. |
| `Hands.ReductionCount` | src/App.jsx:21-24 | At most as many aces are reduced as the hand holds. None are reduced when the raw sum is 21 or less. All are reduced when the result still exceeds 21. Each reduction happened while the total was over 21. |
| `Hands.ReductionCountUnique` | src/App.jsx:21-24 | Any count of reductions that reduces only while the total is over 21, and stops at a total of 21 or less or at the last ace, is the reduction count. |
| `Hands.HandTotalIsBest` | src/App.jsx:17-26 | `HandTotal`, the closed form of the hand value, is the best total: when some way of counting the aces keeps the total at 21 or less, the total is the largest such total. Otherwise it is the total with every ace counted as 1. |
| `Hands.SoftToHard` | src/App.jsx:21-24 | Take a hand with one ace whose raw sum is over 21 but at most 31. Its total is exactly ten less and does not bust. |
| `Hands.HandTotalExamples` | src/App.jsx:17-26 | A-A-9 is 21. A-K-5 is 16. K-K is 20. The empty hand is 0. |
| `Hands.HandValue` | src/App.jsx:17-26 | The trainer's three loops (count the aces, sum the cards, reduce while bust) compute exactly `HandTotal`. |
| `Strategy.Text` | src/App.jsx:33-47 | Every advice string starts with the name of its move (Split, Double, Hit or Stand). |
| `Strategy.TextInjective` | src/App.jsx:33-47 | No two pieces of advice are shown with the same string. |
| `Strategy.PairRule` | src/App.jsx:32-37 | Pair rules only ever split. Aces and 8s always split. Tens, 4s and 5s never split. |
| `Strategy.GetAction` | src/App.jsx:28-48 | The advice is "always split Aces and 8s" exactly when splitting is allowed and the hand is an A-A or 8-8 pair, whatever the upcard; that rule comes ahead of every other. A split needs a pair and splitting allowed. A double needs doubling allowed and a total of 9–11. With no split, a total of 11 with doubling allowed doubles for maximum power, and a total of 17 or more stands. The advice never stands below 12 and never hits from 17. |
| `Strategy.NonSplitRules` | src/App.jsx:39-47 | When no split rule applies, each of the eight other pieces of advice is given exactly under its condition. Double for maximum power: doubling allowed and 11. Double, dealer weaker: doubling allowed, 10, upcard up to 9. Double, dealer very weak: doubling allowed, 9, upcard 3–6. Hit, too weak: 11 or less and no double applies. Stand, dealer likely to bust: 12 against 4–6. Stand, strong total: 17 or more. Stand, dealer weak: 13–16 against up to 6. Hit, dealer strong (the fall-through): 12 against anything but 4–6, or 13–16 against 7 or more. |
| `Strategy.SplitRules` | src/App.jsx:32-37 | For a pair with splitting allowed: 2/3/7 split exactly when the upcard is worth 7 or less. 6 splits exactly when it is worth 6 or less. 9 splits exactly when it is not worth 7, 10 or 11. |
| `Strategy.AdviceDependsOnTotals` | src/App.jsx:29-47 | When no split rule applies to either hand, the advice depends only on the player's total and the upcard's value. This includes pairs that no split rule takes, such as 10-10 or 9-9 against a 7. |
| `Strategy.ExampleEights` | src/App.jsx:32-33 | 8-8 against a 6 splits. |
| `Strategy.ExampleAcesSplit` | src/App.jsx:32-33 | A-A against a 2 splits, although its total of 12 would otherwise meet the hit/stand table. |
| `Strategy.ExampleAcesStand` | src/App.jsx:43-44 | A-A without splitting, against a 4, stands on 12. |
| `Strategy.ExampleFiveSix` | src/App.jsx:39-41 | 5-6 totals 11, so line 39 gives "Double (maximum power)"; the total-9 rule (line 41) cannot apply to it. |
| `Counting.RunningCount` | src/App.jsx:58-60 | The count of n cards lies between -n and n. |
| `Counting.RunningCountAppend` | src/App.jsx:58-60 | The count of two runs of cards is the sum of their counts. So it does not matter which hand or which round a card joined. |
| `Counting.UniformCount` | src/App.jsx:58-60 | Cards that all carry the same tag t count to t for each card. |
| `Counting.BalancedCount` | src/App.jsx:11-15 | One card of every rank counts to zero. |
| `Counting.CountExample` | src/App.jsx:58-60 | 2, 7, K, A count to -1, a true count of -1/6. |
| `Counting.TrueCount` | src/App.jsx:72 | The true count times the six assumed decks gives back the running count, and it is non-negative exactly when the running count is. |
| `Counting.SuggestBet` | src/App.jsx:71-77 | The bet is one of 10, 20, 50 and 100. It is 100 exactly from a count of 30, 50 exactly for counts 18–29, 20 exactly for 6–17, and 10 below 6. |
| `Counting.SuggestBetMonotone` | src/App.jsx:71-77 | A higher count never suggests a smaller bet. |
| `Trainer.Settle` | src/App.jsx:80-92 | Four outcomes, each with its exact condition. A player total over 21 is a bust loss, whatever the dealer holds. Otherwise a dealer bust or a higher player total wins. Otherwise a lower player total loses. Only equal totals of 21 or less push. |
| `Trainer.OutcomeText` | src/App.jsx:82-91 | The logged result text starts with "Loss" exactly for a loss, whether a bust or a beaten hand. |
| `Trainer.OutcomeTextInjective` | src/App.jsx:82-91 | Different outcomes are logged with different text. |
| `Trainer.Payout` | src/App.jsx:83-91 | A round moves the bankroll by plus the stake, minus the stake, or nothing. At a positive stake it gains exactly on a win and loses exactly on a loss, whether a bust or a beaten hand. |
| `Trainer.PayoutOfRound` | src/App.jsx:83-92 | For a player total p and a dealer total d, the bankroll gains the stake exactly when the player wins. It loses the stake exactly on a bust or when the player is beaten. It stays unchanged exactly on a push. |
| `Trainer.SettleExamples` | src/App.jsx:79-94 | 20 against 22 wins and pays 50 on a bet of 50. 22 against any dealer total is a bust loss. |
| `Trainer.AppendRecord` | src/App.jsx:93 | Appending a settled round keeps every record in the history settled, and it moves the net payout by exactly that round's payout. |
| `Trainer.Session.constructor` | src/App.jsx:51-56 | A session starts with empty hands, a count of 0, a bankroll of 1000, a bet of 10 and no history, and its invariant holds. |
| `Trainer.Session.HandleCardInput` | src/App.jsx:58-63 | The count moves by exactly the card's Hi-Lo tag. The card is appended to the chosen hand only. The other hand, the bankroll, the bet and the history are unchanged. |
| `Trainer.Session.Reset` | src/App.jsx:65-69 | Both hands are emptied. The bet becomes `SuggestBet(count)`. The count, the bankroll and the history are kept. |
| `Trainer.Session.Resolve` | src/App.jsx:79-94 | The history grows by exactly one record and earlier records are unchanged. The new record holds copies of both hands, the settled outcome, the bet and the count. The bankroll moves by that outcome's payout. The hands, the count and the bet stay as they were. |
| `Trainer.Session.CurrentAdvice` | src/App.jsx:117 | Advice is shown exactly when both hands hold a card. It is then the advice for the player's hand against the dealer's first card, with doubling and splitting allowed. So an A-A or 8-8 pair is always advised to split, and a non-pair of 17 or more to stand. |

## Left out

- Rendering, buttons, styles and the history list (src/App.jsx:96-134) are presentation only. The "Input both hands" placeholder is modelled only as `None` from `CurrentAdvice`.
- React state hooks and functional updates (src/App.jsx:51-56) are not modelled. Each handler is one atomic method on `Session`.
- The true count is an exact `real`, not a JavaScript double. The two agree on every threshold comparison for running counts below 2^53 in magnitude.
- `parseInt` and text that is not a card label are not modelled. Ranks form a closed datatype, so the invalid-rank path cannot arise. `FromLabel` only recognises the thirteen labels.
- Text passed as the side is modelled by the closed datatype `Side`. In the source, any text other than "player" sends the card to the dealer.
- The trainer has no natural-blackjack bonus and no bankroll-proportional bet policy, so the model has neither.
