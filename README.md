# Risk battle calculator — a Dafny model

The Risk battle calculator estimates an attacker's chance of winning a battle
of the board game Risk by Monte Carlo simulation. In each trial, attacker and
defender fight rounds until one side has no units left. In a round:

- the attacker rolls up to three dice and the defender up to two, never more
  dice than units;
- each side's dice are sorted from high to low and paired off;
- each pair costs one unit to the side that lost it, and a tie goes to the
  defender.

The estimate is the share of trials that the attacker wins.

This project models the three routines of `main.cpp` that do this work:

- `fill_vector_with_dice_rolls` fills a roll buffer from the random stream
  (`Dice`);
- `calculate_and_apply_single_battle_result` applies the casualties of one
  round (`Battle`);
- `calculate_probability_of_victory` is the trial runner (`Simulation`).

It also models the descending `std::sort` of the roll buffers (`Sorting`) and
the call that the interactive loop makes (`Prompt`).

The C library random stream is an object, `Dice.RandomSource`:

- its value sequence `draws` is injected;
- its cursor `used` counts the values consumed.

Each routine is an imperative method over that object and over `array<uint8>`
roll buffers. It is proved equal to a functional specification (`Faces`,
`SortDesc`, `Resolve`, `Round`, `Trial`, `Victories`). The lemmas then state
what the source promises about that specification:

- every die shows 1 to 6;
- the sort is a non-increasing permutation;
- each compared pair costs exactly one side exactly one unit, with ties going
  to the defender;
- no count goes negative;
- every trial ends, and the attacker wins exactly when the defender is wiped
  out;
- the number of wins lies between 0 and the number of trials.

Some parts of the source have no checks, and the model follows the code there:

- Non-positive simulation counts and negative army sizes are not rejected. A
  simulation count of zero or less runs no trial (`Simulation.Trials`).
- When either army count is zero or less, the guard of the per-trial loop is
  false from the start, so no round is fought. The trial is a win exactly
  when the attacker count is positive.
- The model has no error path.

## Model

| member | source | states |
|---|---|---|
| `Dice.RandomSource.Rand` | main.cpp:14 | a call of `rand()` returns the next value of the stream and advances the cursor by one |
| `Dice.Face` | main.cpp:14 | `1 + rand() % 6` always shows a die face between 1 and 6 |
| `Dice.FacesFollowStream` | main.cpp:11-15 | the `i`-th of `k` rolls is the face of the `i`-th draw, in stream order, so every roll lies in [1,6] |
| `Dice.FillWithDiceRolls` | main.cpp:9-16 | the buffer keeps its length and every slot is overwritten, in index order, with the face of the next draw; exactly one draw per slot is consumed; every slot ends in [1,6] |
| `Sorting.InsertAddsElement` | main.cpp:74 | inserting adds exactly one copy of the roll and loses none |
| `Sorting.InsertKeepsOrder` | main.cpp:74 | inserting into a non-increasing sequence keeps it non-increasing |
| `Sorting.SortDescSortsAndPermutes` | main.cpp:74 | the reference sort yields a non-increasing arrangement of the same rolls (a permutation) |
| `Sorting.NonIncreasingArrangementUnique` | main.cpp:74 | two non-increasing sequences with the same rolls are equal, so any correct descending sort, including an unstable one, gives the reference result |
| `Sorting.SortDescending` | main.cpp:74-79 | sorting a roll buffer in place leaves it non-increasing, a permutation of what it held, and equal to the reference sort of its old contents |
| `Battle.DiceCount` | main.cpp:68-69 | a side with `left` units rolls `clamp(left, 0, cap)` dice: never more than the cap or its units, none when it has no units, at least one when it has units |
| `Battle.Pairings` | main.cpp:32 | the number of compared pairs is the length of the shorter roll buffer |
| `Battle.LossesSumToPairs` | main.cpp:33-44 | every compared pair costs exactly one side exactly one unit, so the two losses add up to the number of pairs |
| `Battle.DefenderLossesCountWins` | main.cpp:36-39 | the defender loses exactly one unit for each pair in which the attacker's roll is strictly higher |
| `Battle.AttackerLossesCountTiesAndDefeats` | main.cpp:40-43 | the attacker loses exactly one unit for each pair in which its roll is lower or equal, so ties go to the defender |
| `Battle.ApplyBattleResult` | main.cpp:26-45 | applying a round's rolls gives the counts of `Resolve`; neither count grows, and together they drop by exactly the number of compared pairs |
| `Battle.ResolveCostsOneUnitPerPair` | main.cpp:32-44 | resolving rolls costs the two sides one unit per pair in all, and neither side more units than it rolled dice |
| `Battle.PairsInRound` | main.cpp:68-69 | the pairs compared in a round are the smaller of the two dice counts |
| `Battle.RoundProgress` | main.cpp:65-83 | a round between two sides with units keeps both counts non-negative and never increases them; it removes exactly as many units as pairs (at least one), never wipes out both sides, and draws one value per die |
| `Simulation.TrialEnds` | main.cpp:65-84 | every trial terminates with at least one side out of units; neither side ever gains units, and the stream only moves forward |
| `Simulation.TrialOutcome` | main.cpp:65-90 | from non-negative counts no count goes negative; unless both sides start empty, the attacker keeps units exactly when the defender is wiped out |
| `Simulation.VictoriesAtMostTrials` | main.cpp:58-91 | the attacker never wins more trials than are run |
| `Simulation.VictoriesWithoutDefenders` | main.cpp:65-90 | with no defenders and some attackers, every trial is a win and no dice are drawn |
| `Simulation.VictoriesWithoutAttackers` | main.cpp:65-90 | without attackers no trial is a win, whatever the defenders, including when both sides are empty |
| `Simulation.VictoriesBounds` | main.cpp:58-91 | the three bounds above on the number of wins, taken together |
| `Simulation.RollSorted` | main.cpp:72-79 | allocating, filling and sorting one side's roll buffer gives that side's sorted rolls and consumes one draw per die |
| `Simulation.FightRound` | main.cpp:67-83 | one pass of the per-trial loop body gives the new counts of `Round` and leaves the stream where `Round` says |
| `Simulation.RunTrial` | main.cpp:61-84 | one trial gives the final counts of `Trial` and leaves the stream where `Trial` says |
| `Simulation.CountNextTrial` | main.cpp:59-91 | one pass of the `for` loop adds one more trial's win, if any, to the count |
| `Simulation.CountVictories` | main.cpp:55-92 | the `for` loop runs `Trials(numSimulations)` trials, that is `num_simulations` of them or none when that count is not positive; the victory count equals the specification `Victories` over those trials and lies between 0 and their number; it equals the number of trials when there are no defenders and some attackers, and it is zero when there are no attackers |
| `Simulation.VictoryRatio` | main.cpp:93-94 | the reported estimate lies in [0,1]; it is 1 exactly when every trial was won and 0 exactly when none was |
| `Prompt.QueryAsWritten` | main.cpp:116 | the call as written runs the trials with the entered attackers defending and the entered defenders attacking, so whenever no defenders are entered it reports no wins at all |
| `Prompt.Query` | main.cpp:107-116 | the call in the declared argument order runs the trials for the entered armies: no wins without attackers, all wins against no defenders |
| `Prompt.SwappedCallReportsSureWinAsLoss` | main.cpp:116 | for any dice, an attacking army facing no defenders wins every trial in the declared order but none under the swapped call |

## Left out

- Console input and output in `main`, and its endless prompt loop, are not modelled. The entered counts are parameters of `Prompt.Query`.
- `srand(time(0))`, the generator's algorithm and its distribution are not modelled. The stream of `rand()` values is an injected parameter, `RandomSource.draws`, with non-negative values. No statistical property of the estimate is stated.
- Simulation.VictoryRatio: the source divides in single-precision floating point. The model uses the exact ratio, and only for a positive simulation count. For a count of zero or less, the source divides by a non-positive float, giving NaN or a negative zero, and that result is not modelled.
- The 32-bit counters are unbounded integers. The unit counts only go down, from at most the entered values, and the victory count never exceeds the simulation count, so no wrap-around can occur. The 8-bit roll type is modelled by `uint8`. The clamped dice count, which is 0 to 3, is a `nat`.
- `std::sort` with `std::greater<>()` is modelled by an insertion sort. `Sorting.NonIncreasingArrangementUnique` shows that every correct descending sort gives the same buffer, so the choice does not matter.
- `std::vector` roll buffers are fresh arrays of the right length. Each side's allocate-fill-sort steps are one helper method, `Simulation.RollSorted`.
- Negative unit counts and non-positive simulation counts are not rejected, because the code has no such checks.

## Findings

| source | as written | input that shows it | evidently intended | confidence | as-written member | corrected member |
|---|---|---|---|---|---|---|
| main.cpp:116 | `calculate_probability_of_victory(num_simulations, num_attackers, num_defenders)` passes the entered attackers as `num_defenders` and the entered defenders as `num_attackers` (the declared order at main.cpp:55) | 5 attackers and 0 defenders entered, any positive number of simulations: the attacker cannot lose, yet the reported probability is 0 | `calculate_probability_of_victory(num_simulations, num_defenders, num_attackers)` | high (not executed) | `Prompt.QueryAsWritten`, `Prompt.SwappedCallReportsSureWinAsLoss` | `Prompt.Query` |
