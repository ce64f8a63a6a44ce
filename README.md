# Casino game logic in Dafny

This project models the game logic of two browser casino simulators and proves properties of it.

- **Baccarat Martingale simulator** (`baccarat.dfy`, module `Baccarat`). Five strategies pick the side to back: banker only, player only, follow the last winner, alternate, and PP→BB. A Martingale bankroll loop plays up to `simCount` rounds from a balance of 100000, starting at a bet of 1000. After a win the bet resets to 1000. After a loss it doubles, capped by the balance, and the third loss in a row resets it. The loop stops early when the balance no longer covers the current bet. It writes one record per round and then a summary.
- **Three-card poker table** (`poker.dfy`, module `ThreeCardPoker`). The 52-card deck is built suit by suit. A Fisher–Yates shuffle works on a copy. The hand classifier has six categories and a numeric tiebreak. The dealer qualifies with Queen-high or better. Payouts include an ante bonus. A table session moves between betting, dealt and result.

## How the model is built

- **Randomness is an input.**
  - The baccarat outcome of round `i` is `outcomes[i]`.
  - The shuffle's `k`-th random index is `draws[k]`, which must lie in `[0, n-1-k]`.
- **Baccarat run.**
  - `PlayRound` is the one-round transition as a pure function.
  - `Simulate` is the whole run as a recursive function.
  - `RunSimulation` is the source's imperative loop, with the same variables and branches. It is proved equal to `Simulate`, and its summary is proved equal to `Summarize(history)`.
  - The lemmas about `Simulate` state what the run promises.
- **Poker.**
  - `CreateDeck` and `ShuffleDeck` are methods with loops. `ShuffleDeck` swaps the cells of an array copy in place.
  - `GetHandRank` is a pure function. Reference predicates on the unsorted cards (`IsFlush`, `IsTrips`, `HasPair`, `IsRun`) define the categories independently of it.
  - The table is a class. Its fields are `chips`, `ante`, `phase`, the two hands, `showDealerCards` and `lastResult`.
- **Source behaviours kept as written.**
  - The ace-low straight A-2-3 gets tiebreak value 14: the value is the top of the descending sort. So it outranks the straight 4-5-6.
  - `play` sets the chips to `chips - ante` and then to `chips + winAmount`. Both writes start from the same earlier count, so the play bet is never taken. The recorded amount is `winAmount - 2*ante`. Over a deal and a play, the chips therefore change by the recorded amount plus one ante.
  - A loss that empties the balance makes the next bet `min(2*bet, 0) = 0`. The guard `balance >= currentBet` still holds, so rounds with a zero stake go on.
- **Representation.**
  - A card's rank is held as its value: 2–10, J = 11, Q = 12, K = 13, A = 14.
  - The banker commission is the integer `floor(bet * 95 / 100)`.
  - Action strings become the `Action` datatype, which keeps the amounts the strings show.
  - The export's delta column (`app/baccarat/martingale/page.tsx:188`) is `ExportDelta`. `WellFormed` states its value for each outcome.

## Model

| member | source | states |
|---|---|---|
| `Baccarat.OnlyFollowWinnerUsesLastWinner` | app/baccarat/martingale/page.tsx:36-56 | bankerOnly always backs banker and playerOnly always backs player. followWinner backs the last winner, or banker before any decided round. No other strategy depends on the last winner. |
| `Baccarat.AlternateFlips` | app/baccarat/martingale/page.tsx:48-49 | alternate backs player exactly on even rounds, so consecutive rounds back different sides. |
| `Baccarat.PpbbBlocks` | app/baccarat/martingale/page.tsx:50-52 | ppbb backs player exactly when the round is 1 or 2 mod 4 (rounds 1,2 → P, 3,4 → B, 5,6 → P). |
| `Baccarat.PayoutBounds` | app/baccarat/martingale/page.tsx:127-130 | a winning stake pays between 0 and the stake. A player bet pays exactly the stake. |
| `Baccarat.TieLeavesBankroll` | app/baccarat/martingale/page.tsx:120-122 | a tie leaves balance, current bet, loss streak and last winner unchanged, and balance after equals balance before. |
| `Baccarat.WinResetsProgression` | app/baccarat/martingale/page.tsx:124-135 | a win adds the payout, resets the bet to MIN_BET and the streak to 0, and records the winner. |
| `Baccarat.LossDoublesOrResets` | app/baccarat/martingale/page.tsx:136-149 | a loss subtracts the stake and records the winner. The third loss in a row resets the bet to MIN_BET and the streak to 0. Any other loss sets the bet to min(2·bet, new balance) and adds one to the streak. |
| `Baccarat.PlayRoundFacts` | app/baccarat/martingale/page.tsx:104-153 | each round keeps balance ≥ 0, bet ≥ 0 and streak < 3. Its record has round number, stake min(bet, balance), target, result and before/after balances matching the state change, and is well formed: 0 ≤ stake ≤ balance before, and the delta is 0, the payout, or −stake according to the outcome. |
| `Baccarat.ZeroStakeRoundsContinue` | app/baccarat/martingale/page.tsx:104-146 | a non-third loss that empties the balance leaves bet 0 with the loop guard still true, and the next round stakes 0. |
| `Baccarat.ClampRounds` | app/baccarat/martingale/page.tsx:280-282 | the round count is at least 1. A number ≥ 1 is kept. A non-number, or any number ≤ 1, gives 1. |
| `Baccarat.CountsPartition` | app/baccarat/martingale/page.tsx:100-138 | win, loss and tie counts of a history add up to its length. |
| `Baccarat.SummaryConsistent` | app/baccarat/martingale/page.tsx:156-163 | in a summary, wins + losses + ties = totalRounds = number of records, and profit = finalBalance − INITIAL_BALANCE. A non-empty history's final balance is the last record's balanceAfter. |
| `Baccarat.SimulateNumbering` | app/baccarat/martingale/page.tsx:104-107 | records are numbered i+1, i+2, … in order. Each carries the outcome drawn for its round. At most the remaining budget of rounds is played. |
| `Baccarat.SimulateLedger` | app/baccarat/martingale/page.tsx:104-153 | every record is well formed. The first starts at the current balance and each later one starts where the previous ended. The bankroll stays valid, and the final balance is the last record's balanceAfter. |
| `Baccarat.SimulateStopsEarlyOnlyWhenBroke` | app/baccarat/martingale/page.tsx:104 | fewer rounds than the budget are played only if the final balance is below the final current bet. |
| `Baccarat.FollowWinnerTracksResults` | app/baccarat/martingale/page.tsx:106-124 | under followWinner, the round after a decided round backs its winner. The round after a tie backs the same side as the tied round. |
| `Baccarat.GetBetTarget` | app/baccarat/martingale/page.tsx:36-56 | the strategy dispatch. It has no contract of its own. OnlyFollowWinnerUsesLastWinner, AlternateFlips and PpbbBlocks state what each strategy backs. |
| `Baccarat.Payout` | app/baccarat/martingale/page.tsx:127-130 | the win amount, floor(stake·95/100) on banker and the stake on player. PayoutBounds states its bounds. |
| `Baccarat.PlayRound` | app/baccarat/martingale/page.tsx:104-153 | the one-round transition. TieLeavesBankroll, WinResetsProgression and LossDoublesOrResets state its three cases. PlayRoundFacts states the invariant it keeps and the record it writes. |
| `Baccarat.Simulate` | app/baccarat/martingale/page.tsx:104-154 | the whole run as a recursive specification. RunSimulation is proved equal to it. SimulateNumbering, SimulateLedger, SimulateStopsEarlyOnlyWhenBroke, FollowWinnerTracksResults and RunFacts state what it promises. |
| `Baccarat.Summarize` | app/baccarat/martingale/page.tsx:156-163 | the summary read off a history. SummaryConsistent and CountsPartition state its identities. RunSimulation is proved to return it. |
| `Baccarat.ExportDelta` | app/baccarat/martingale/page.tsx:188 | the export's balance delta. WellFormed, which SimulateLedger and RunFacts prove of every record, fixes it to 0, the payout or −stake by outcome. |
| `Baccarat.RunSimulation` | app/baccarat/martingale/page.tsx:92-166 | the loop's history equals the `Simulate` specification from the initial bankroll. The summary equals `Summarize(history)`, and its final balance is the final bankroll's balance. |
| `Baccarat.RunFacts` | app/baccarat/martingale/page.tsx:92-163 | a run from the initial bankroll plays ≤ simCount rounds, and fewer only if balance < currentBet at the end. Records are numbered 1..n, well formed and chained from INITIAL_BALANCE. Final balance ≥ 0, wins + losses + ties = totalRounds, and profit = final − initial. |
| `ThreeCardPoker.SuitMajorLayout` | app/three-card-poker/page.tsx:20-28 | a 52-card deck laid out suit-major, ranks ascending, has no repeated card and contains every suit×rank card. |
| `ThreeCardPoker.CreateDeck` | app/three-card-poker/page.tsx:20-28 | the deck has 52 cards. Position i holds suit i/13 of ♠,♥,♦,♣ and rank i%13 of 2..A. Every card occurs exactly once. |
| `ThreeCardPoker.ShuffleDeck` | app/three-card-poker/page.tsx:30-37 | the shuffle returns a permutation of its input: same length and same multiset. The last position holds the card at the first draw's index. The input sequence is a value and is not changed. |
| `ThreeCardPoker.PermutationKeepsDistinct` | app/three-card-poker/page.tsx:71-73 | a permutation of a deck without repeats has no repeats, so the two dealt hands share no card. |
| `ThreeCardPoker.SortDescending` | app/three-card-poker/page.tsx:40 | the three rank values come out in descending order as an ordering of the inputs. |
| `ThreeCardPoker.GetHandRank` | app/three-card-poker/page.tsx:39-62 | the category is always in 0..5. |
| `ThreeCardPoker.SortedShape` | app/three-card-poker/page.tsx:40-44 | on the sorted ranks, the top and bottom are the highest and lowest card ranks. Trips, pairs and runs (including A-2-3) as the classifier tests them coincide with the reference shapes on the unsorted cards. |
| `ThreeCardPoker.CategoryByPrecedence` | app/three-card-poker/page.tsx:46-62 | each category holds iff its reference shape holds, with precedence straight flush (flush and run, A-2-3 included) > trips > straight > flush > pair > high card. |
| `ThreeCardPoker.RunAndTripsValue` | app/three-card-poker/page.tsx:46-54 | straight flushes, trips and straights are valued by their highest card rank, which is 14 for A-2-3. |
| `ThreeCardPoker.CompositeAndPairValue` | app/three-card-poker/page.tsx:55-62 | flush and high card are valued r0·1000 + r1·10 + r2 on the descending ranks. A pair is valued pairRank·100 + kicker. |
| `ThreeCardPoker.AceLowStraightValuedAsAce` | app/three-card-poker/page.tsx:44-53 | A-2-3 classifies as a straight with value 14, and 4-5-6 as a straight with value 6. So A-2-3 beats 4-5-6. |
| `ThreeCardPoker.CompositeIsLexicographic` | app/three-card-poker/page.tsx:56-62 | for strictly descending ranks in 2..14, the composite orders hands exactly as a lexicographic comparison of their ranks, and equal composites mean equal ranks. |
| `ThreeCardPoker.PairValueOrder` | app/three-card-poker/page.tsx:58-60 | the pair value orders by pair rank first, then by kicker. |
| `ThreeCardPoker.BeatsIsStrictOrder` | app/three-card-poker/page.tsx:113-121 | comparing by (category, value) is irreflexive, asymmetric and transitive. Any two hands are comparable unless they are an exact tie. |
| `ThreeCardPoker.SortedRanks` | app/three-card-poker/page.tsx:40 | the hand's rank values, highest first. SortDescending gives the ordering, and SortedShape relates it to the unsorted cards. |
| `ThreeCardPoker.HighCardValueOrder` | app/three-card-poker/page.tsx:40-62 | two high-card hands compare by value exactly as their descending ranks compare lexicographically, and equal values mean equal ranks. |
| `ThreeCardPoker.AnteBonus` | app/three-card-poker/page.tsx:114-117 | the ante bonus: 5, 4 or 1 ante for categories 5, 4 or 3, else 0. WinAmountCases states the payout it enters. |
| `ThreeCardPoker.WinAmount` | app/three-card-poker/page.tsx:107-126 | the payout computation. WinAmountCases characterises each of its branches as an if-and-only-if. |
| `ThreeCardPoker.PlayedKind` | app/three-card-poker/page.tsx:130 | the recorded result kind: win above 2·ante, tie at 2·ante, lose otherwise. With WinAmountCases this is win iff the dealer qualifies and loses, and lose iff the dealer qualifies and wins. |
| `ThreeCardPoker.DealerQualifies` | app/three-card-poker/page.tsx:105 | the dealer qualifies iff its category is above high card or one of its cards is Q, K or A. |
| `ThreeCardPoker.QualificationExamples` | app/three-card-poker/page.tsx:105 | a 9-high dealer hand {2♣,5♦,9♥} does not qualify, and {2♣,5♦,Q♥} does. |
| `ThreeCardPoker.WinAmountCases` | app/three-card-poker/page.tsx:107-126 | winAmount is 2·ante iff the dealer does not qualify or the hands tie exactly. It is above 2·ante iff the dealer qualifies and the player is better, and then equals 4·ante + bonus (5, 4 or 1 ante for categories 5, 4, 3). It is 0 iff the dealer qualifies and is better. It always lies in 0..9·ante. |
| `ThreeCardPoker.ClampInput` | app/three-card-poker/page.tsx:189 | the chips and ante inputs are at least 1000. A number ≥ 1000 is kept. A non-number, or any number ≤ 1000, gives 1000. |
| `ThreeCardPoker.Table.constructor` | app/three-card-poker/page.tsx:11-18 | a session starts with 100000 chips, ante 1000, the betting phase, no cards and no last result. |
| `ThreeCardPoker.Table.EditChips` | app/three-card-poker/page.tsx:184-192 | while betting, the chip count becomes the clamped input. |
| `ThreeCardPoker.Table.EditAnte` | app/three-card-poker/page.tsx:235-243 | while betting, the ante becomes the clamped input. |
| `ThreeCardPoker.Table.DealCards` | app/three-card-poker/page.tsx:65-78 | dealing is refused with no state change when ante > chips. Otherwise chips drop by the ante and the phase becomes dealt. The player gets shuffled[0..3) and the dealer shuffled[3..6) of one shuffled 52-card deck without repeats. |
| `ThreeCardPoker.Table.Fold` | app/three-card-poker/page.tsx:80-84 | folding leaves the chips as they are, shows the dealer's cards, enters the result phase and records amount −ante. |
| `ThreeCardPoker.Table.Play` | app/three-card-poker/page.tsx:93-131 | play is refused with no state change when ante > chips. Otherwise the settled chips are chips + winAmount (the second write overwrites the first) and the result phase is entered. The recorded result is win/tie/lose by winAmount against 2·ante, with amount winAmount − 2·ante. |
| `ThreeCardPoker.Table.NextHand` | app/three-card-poker/page.tsx:85-90 | the delayed return to betting clears both hands. |

## Left out

- Random draws. `playRound`'s outcome probabilities (45.86 / 44.62 / 9.52, with floating-point thresholds) and `Math.random` in the shuffle are replaced by the injected `outcomes` and `draws`. Nothing is claimed about distributions or the uniformity of the shuffle.
- Floating-point commission. The source computes the banker payout as `Math.floor(bet * (1 - 0.05))` in doubles (app/baccarat/martingale/page.tsx:129). `Payout` uses the exact integer `floor(bet * 95 / 100)` instead, and the two agree for every integer stake below 2^48. The double `1 - 0.05` lies about 0.8·2^-54 below 0.95. When `95·bet/100` is an integer N, the computed product lies less than half a double spacing below N and rounds to exactly N. Otherwise the fractional part is at least 0.05, far above the rounding error. The stakes this loop produces never exceed 4000, so `Payout` is exact for every reachable stake. The floating-point computation itself is not modelled.
- JavaScript numbers are doubles; the model uses exact integers. In the baccarat run this makes no difference, because stakes never exceed 4000 and balances stay far below 2^53. The poker page does not bound the chips or ante inputs (app/three-card-poker/page.tsx:189, 241). Above 2^53 the source's double arithmetic rounds (near 1e19, `chips - ante` with ante 1000 leaves chips unchanged), and a long enough digit string parses to Infinity. The model's exact integers capture neither.
- The message strings and the hand names built for display are not modelled. `Action` keeps only the numbers the action strings show.
- CSV/TSV export, the byte-order mark, Blob/URL/document and clipboard are I/O and browser APIs. Only the export's balance delta is modelled, as `ExportDelta`.
- The timers that pace the UI are modelled as the explicit `Table.NextHand` transition.
- `parseInt` itself is not modelled. A parsed widget value is an `Option<int>`, with `None` for a value that is not a number, and only the `max(min, n)` clamp is modelled.
- All JSX rendering, the card component, the colour and label lookups and the strategy label table are out of scope.
- `useState` is replaced by local variables in `RunSimulation` and by the fields of `Table`. The stale capture in `play` is written out as an explicit `captured` copy of the chips.
- Table.DealCards, Table.Fold and Table.Play require the phase in which the page shows their button. Table.NextHand requires the result phase, the only phase in which its timer (app/three-card-poker/page.tsx:85-90, 132-137) is armed. Table.EditChips and Table.EditAnte require the betting phase: the chips input is disabled outside betting (line 191), and the ante input is shown only while betting (line 232). The source functions do not check the phase themselves.
- ShuffleDeck: the exact order produced by a given sequence of draws is not specified beyond the last position. The contract gives the permutation property and that one position.
