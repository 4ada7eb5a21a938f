# Iocaine Powder in Dafny

A verified model of the Iocaine Powder move chooser in `strategies/iocaine.py`. The game is repeated rock-paper-scissors, generalised to any list of "bots" ranked by a score chart. `chart[a][b] > 50` means that `a` beats `b`.

Each call to `move(them)` does the following:

1. It records the opponent's last move in three histories: our moves, their moves, and the pairs of both. It also counts both moves in two frequency counters.
2. It hands a guess to each of fifty base predictors. The model does this in creation order; the source interleaves them by horizon, with the same end state (see "## Left out"):
   - 36 history predictors, which use `recall` over 6 horizons × 2 mimics × 3 histories;
   - 12 most-frequent-bot predictors;
   - the fixed first bot;
   - a random bot.
3. Over each of six horizons, it folds `bestguess` over the fifty base predictors. Each fold's winner is handed to a meta predictor for that horizon.
4. It folds `bestguess` over the six meta predictors, scored over the whole game.
5. It plays that fold's winner and appends it to our history.

Every predictor is a second- and triple-guesser. Its three counters record whether trusting its prediction, second-guessing it or triple-guessing it would have paid off. Its candidate applies "the strongest counter of" once, three times or five times.

## Files

- `option.dfy` (`Options`): the `Option` type. `None` stands for the source's `'null'` and for Python's `None`.
- `dominance.dfy` (`Dominance`): the chart and `get_loses_to_list`, `get_beats_list`, `get_best_response` and `get_worst_response`.
  - A row of the chart is a Python dict. It is modelled by two things: its iteration order, and a map from key to score.
  - The dict built by the comprehension is taken to iterate in the row's order, restricted to the kept keys. `sorted` is modelled as a stable insertion sort, so keys with equal scores keep that order (see "Left out"). With pairwise different scores, the sorted list does not depend on that order at all (`SortIgnoresOrder`).
- `recall.dfy` (`HistoryRecall`): `recall`.
  - `Recall` is a loop. It is proved equal to `RecallSpec`, a specification function over `MatchLen`, the length of the match at each distance.
- `stats.dfy` (`RunningStats`): the class `Stats`, whose field `sum` is a list of counter snapshots. `max` is the function `Max`, since it changes nothing.
- `predictor.dfy` (`Predictors`): the class `Predictor`, with `AddGuess`.
  - `bestguess` reads only a predictor's prediction and counters. It is therefore the function `BestGuess` on a `Standing`, the value made of those two fields.
  - The scoring loops of `move` are the method `Tournament`. Tournament is proved equal to `Winner`, the same fold written as a function.
- `iocaine.dfy` (`Engine`): the class `Iocaine` and the steps of `move`.
  - Predictors are kept in one list in the order `predictor()` creates them:
    - the history predictors `[a][mimic][watch]`, at `6a + 3mimic + watch`;
    - the frequency predictors `[a][mimic]`, at `36 + 2a + mimic`;
    - the fixed predictor, at 48;
    - the random predictor, at 49.
  - `Move` satisfies `Valid()`:
    - the histories stay aligned;
    - every move is a bot;
    - the frequency counters hold the whole-game counts;
    - every predictor's snapshots sum to zero;
    - after the first move, every predictor holds a prediction in the chart.
  - `Move` also states the new state of every predictor, via `Fed`, and states that its result is the meta fold's winner.

Two things are modelled exactly as written:

- The frequency counters `self.stats` receive `add` but never `advance`. So `max(age, -1)` reads whole-game counts at every horizon (`MostFrequent`, `MostFrequentBot`).
- In `bestguess`, action 2 takes one hop, action 0 takes three hops and action 1 takes five hops (`Anticipate`).

## Model

| member | source | states |
|---|---|---|
| `Dominance.Select` | strategies/iocaine.py:15 | a key is kept exactly when it is in the row and lies on the requested side of 50; distinct keys stay distinct |
| `Dominance.Insert` | strategies/iocaine.py:16 | inserting a key yields the old keys plus that key, as a multiset |
| `Dominance.SortByScore` | strategies/iocaine.py:16 | `sorted` returns a permutation of its input |
| `Dominance.InsertOrdered` | strategies/iocaine.py:16 | inserting into a list ordered by score keeps it ordered |
| `Dominance.SortOrdered` | strategies/iocaine.py:24 | the sort is ascending, or descending when `reverse=True` |
| `Dominance.InsertDistinct` | strategies/iocaine.py:16 | inserting a new key into a duplicate-free list keeps it duplicate-free |
| `Dominance.SortDistinct` | strategies/iocaine.py:16 | sorting a duplicate-free list keeps it duplicate-free |
| `Dominance.OrderedUnique` | strategies/iocaine.py:16 | two duplicate-free lists of the same keys, both ordered by pairwise different scores, are equal |
| `Dominance.SortIgnoresOrder` | strategies/iocaine.py:15-16 | when the kept keys' scores differ pairwise, `sorted` returns the same list whatever order the comprehension's dict iterates in |
| `Dominance.Ranked` | strategies/iocaine.py:15-16 | exactly the keys on one side of 50, without duplicates, ascending for the loses-to side and descending for the beats side |
| `Dominance.LosesToList` | strategies/iocaine.py:14-19 | only keys scoring below 50 in `x`'s row; all of them when `n <= 0`, at most `n` otherwise; ascending by score, no duplicates |
| `Dominance.BeatsList` | strategies/iocaine.py:22-27 | only keys scoring above 50; all of them when `n <= 0`, at most `n` otherwise; descending by score, no duplicates |
| `Dominance.Take` | strategies/iocaine.py:17-18 | `sorted_response[:n]`: a prefix of the list, of length `min(n, len)` when `n > 0`, the whole list otherwise |
| `Dominance.TruncatedIsPrefix` | strategies/iocaine.py:17-18 | the list truncated to `n` is a prefix of the full list, of length `min(n, full length)` |
| `Dominance.SidesDisjoint` | strategies/iocaine.py:14-27 | the loses-to and beats lists share no key and never contain a tie (score 50) |
| `Dominance.LosesToOne` | strategies/iocaine.py:120-121 | `loses_to(x, 1)[0]` exists, scores below 50 in `x`'s row, no counter scores lower, and it is a key of the chart |
| `Dominance.StrongestCounterLeads` | strategies/iocaine.py:120-121 | `loses_to(x, 1)` has exactly one element, a lowest-scoring counter |
| `Dominance.ExtremeIndex` | strategies/iocaine.py:31 | the position of an extreme score that comes before every other key with the same score |
| `Dominance.BestResponse` | strategies/iocaine.py:30-32 | a key with the lowest score in `x`'s row, the first such in iteration order |
| `Dominance.WorstResponse` | strategies/iocaine.py:35-37 | a key with the highest score in `x`'s row, the first such in iteration order |
| `HistoryRecall.MatchLen` | strategies/iocaine.py:48-56 | at distance `p`, the history agrees with itself at the first `k` positions counted back from the end, and the next position disagrees unless the start of the history is reached |
| `HistoryRecall.BestDistance` | strategies/iocaine.py:45-57 | the chosen distance is 0 or lies in the range searched |
| `HistoryRecall.BestDistanceMeaning` | strategies/iocaine.py:45-57 | the chosen distance has the longest positive match, the nearest among equals, and is 0 only when nothing in range matches |
| `HistoryRecall.RecallSpec` | strategies/iocaine.py:40-58 | the result is 0 or a position inside the history |
| `HistoryRecall.RecallSpecMeaning` | strategies/iocaine.py:40-58 | the result is 0 exactly when nothing in the window matches; 0 whenever `len(hist) <= 2` or `age < 1`; a non-zero result `r` has `2 <= r <= len(hist) - 1`, `r >= len(hist) - age` and `hist[r - 1] == hist[-1]`, and it is the longest match, the most recent among equals |
| `HistoryRecall.RecallSpecUnique` | strategies/iocaine.py:40-58 | any value with those properties is the result |
| `HistoryRecall.Outmatch` | strategies/iocaine.py:46-56 | the two inner loops report a longer match exactly when the match at `past` is longer than `length`, and then its exact length |
| `HistoryRecall.Recall` | strategies/iocaine.py:40-58 | the loop returns `RecallSpec(age, hist)` |
| `HistoryRecall.FreshMoveMatchesNothing` | strategies/iocaine.py:48-50 | a history whose last element never occurred before it matches nothing at any distance |
| `RunningStats.Zeros` | strategies/iocaine.py:66 | `num` counters, all zero |
| `RunningStats.Sub` | strategies/iocaine.py:78 | the element-wise difference of two snapshots |
| `RunningStats.MaxOf` | strategies/iocaine.py:79 | an element of the list that no element exceeds |
| `RunningStats.ArgMax` | strategies/iocaine.py:81 | `diff.index(m)`: a position holding the maximum, with every earlier element smaller |
| `RunningStats.SumBump` | strategies/iocaine.py:68-69 | adding `d` to one counter adds `d` to the total |
| `RunningStats.SumSub` | strategies/iocaine.py:78 | the total of a difference is the difference of the totals |
| `RunningStats.ZeroSumMaxNonNeg` | strategies/iocaine.py:79 | counters summing to zero have a maximum of at least 0 |
| `RunningStats.Diff` | strategies/iocaine.py:75-78 | the live snapshot when `age >= len(sum)`, otherwise the live snapshot minus the one `age` snapshots back |
| `RunningStats.Max` | strategies/iocaine.py:74-82 | `(-1, score)` exactly when no count over the horizon exceeds `score`; otherwise the first position of the largest count, with that count, which exceeds `score`; the score returned is never below `score` |
| `RunningStats.FirstMaximum` | strategies/iocaine.py:79-81 | a position holding a maximum, with every earlier element smaller, is the one `index(max)` finds |
| `RunningStats.MaxSnoc` | strategies/iocaine.py:79-81 | appending `x` changes the maximum and its first position exactly when `x` exceeds the old maximum |
| `RunningStats.Stats.constructor` | strategies/iocaine.py:65-66 | one snapshot of `num` zeros |
| `RunningStats.Stats.Add` | strategies/iocaine.py:68-69 | only entry `move` of the live snapshot changes, by `score`; the total grows by `score` |
| `RunningStats.Stats.Advance` | strategies/iocaine.py:71-72 | a copy of the live snapshot is appended and every earlier snapshot is unchanged |
| `Predictors.Judge` | strategies/iocaine.py:100-108 | the three tests of `addguess`, in order: the same move; else the last move beats the prediction; else the prediction beats the last move |
| `Predictors.Credit` | strategies/iocaine.py:100-108 | one unit moves from one counter to a different one (none when no test holds), so the total is unchanged |
| `Predictors.Anticipate` | strategies/iocaine.py:120-128 | the candidate is a chart key; with action 2 it beats the prediction |
| `Predictors.AfterGuess` | strategies/iocaine.py:97-111 | no change without a last move; otherwise the live snapshot is credited and then copied, and older snapshots are unchanged |
| `Predictors.DiffSumsToZero` | strategies/iocaine.py:75-78 | snapshots that each sum to zero give a diff that sums to zero over any horizon |
| `Predictors.Guessed` | strategies/iocaine.py:97-111 | after `addguess` the prediction is the guess, every snapshot still sums to zero, and there is one more snapshot exactly when a move was scored |
| `Predictors.Score` | strategies/iocaine.py:114 | a predictor's best count over any horizon is at least 0 |
| `Predictors.Candidate` | strategies/iocaine.py:123-128 | the winning predictor's offer is a chart key |
| `Predictors.BestGuess` | strategies/iocaine.py:113-129 | `best` unchanged unless this predictor's score is strictly higher; otherwise its candidate with that score |
| `Predictors.Predictor.constructor` | strategies/iocaine.py:92-95 | a zeroed counter snapshot and no prediction |
| `Predictors.Predictor.AddGuess` | strategies/iocaine.py:97-111 | the counters become `AfterGuess` of the old ones and the prediction becomes the guess, i.e. the standing becomes `Guessed` of the old one |
| `Predictors.Predictor.Record` | strategies/iocaine.py:100-110 | the live snapshot is credited with the verdict and a copy of it is appended |
| `Predictors.Fed` | strategies/iocaine.py:193-216 | after every predictor's `addguess`, predictor `j` predicts `plan[j]` with balanced counters; all are ready to be scored when every guess is a chart key |
| `Predictors.Winner` | strategies/iocaine.py:224-226 | the fold of `bestguess` from `('null', -1)`: it is still `('null', -1)` or it holds a chart key with a score of at least 0 |
| `Predictors.WinnerIsFirstBest` | strategies/iocaine.py:224-226 | the fold from `('null', -1)` returns the candidate of the first predictor with the highest score, and that score |
| `Predictors.WinnerFound` | strategies/iocaine.py:224-226 | over a non-empty list the fold never ends in `'null'`: it returns a chart key with a score of at least 0 |
| `Predictors.Tournament` | strategies/iocaine.py:231-233 | the loop returns the fold `Winner`: a chart key with a non-negative score |
| `Engine.HistoryIndex` | strategies/iocaine.py:171-176 | in creation order, `predict_history[a][mimic][watch]` is at a position below 36 that decodes back to `a`, `mimic` and `watch` |
| `Engine.FrequencyIndex` | strategies/iocaine.py:171-176 | `predict_frequency[a][mimic]` is at a position from 36 to 47 that decodes back to `a` and `mimic` |
| `Engine.HistoryIndexOnto` | strategies/iocaine.py:171-176 | every position below 36 is `HistoryIndex` of some horizon, mimic and watch |
| `Engine.FrequencyIndexOnto` | strategies/iocaine.py:171-176 | every position from 36 to 47 is `FrequencyIndex` of some horizon and mimic |
| `Engine.CountVec` | strategies/iocaine.py:188-189 | entry `i` is how often `bots[i]` occurs |
| `Engine.IndexOf` | strategies/iocaine.py:189 | `bot_list.index(x)`: a position holding `x`, with no earlier one |
| `Engine.CountSnoc` | strategies/iocaine.py:188-189 | counting one more move bumps its own counter by one and no other |
| `Engine.Tally` | strategies/iocaine.py:188-189 | `stats[watch].add(index, 1)` turns the counts of a history into the counts of the history extended by one move |
| `Engine.CountEmpty` | strategies/iocaine.py:153 | the fresh frequency counters are the counts of the empty history |
| `Engine.Recalled` | strategies/iocaine.py:201 | the recalled moment is 0 or an index into the histories |
| `Engine.HistoryGuess` | strategies/iocaine.py:207-210 | `rand`, or a move of the mimicked history |
| `Engine.FrequencyGuess` | strategies/iocaine.py:214-215 | a bot played most often, the first in `bot_list` on a tie |
| `Engine.Layout` | strategies/iocaine.py:171-176 | the nested predictor lists flattened in creation order: history, then frequency, then fixed, then random |
| `Engine.LayoutPlanned` | strategies/iocaine.py:197-216 | flattening the guesses of every horizon in creation order yields a plan that is `Planned` |
| `Engine.PlannedInBots` | strategies/iocaine.py:192-216 | every guess handed to a base predictor is a bot |
| `Engine.FeedAll` | strategies/iocaine.py:193-216 | `addguess` on every predictor of a list leaves their standings equal to `Fed` of the old ones |
| `Engine.Picks` | strategies/iocaine.py:223-227 | one chart key per horizon, handed to that horizon's meta predictor |
| `Engine.PicksUpTo` | strategies/iocaine.py:223-227 | the first `k` picks, each a chart key |
| `Engine.PickAt` | strategies/iocaine.py:223-226 | the pick for horizon `m` is the winner of the fold over the predictors scored over `ages[m]` |
| `Engine.Pick` | strategies/iocaine.py:224-226 | the fold the inner loop computes for horizon `m` is the next pick |
| `Engine.MetaGuesses` | strategies/iocaine.py:223-227 | the six winners the meta loop computes are `Picks` |
| `Engine.MakePredictors` | strategies/iocaine.py:171-176 | `n` fresh, separate predictors, each with zeroed counters and no prediction |
| `Engine.MostFrequent` | strategies/iocaine.py:214 | on never-advanced, non-negative counts, `max(age, -1)` at any horizon returns the first most frequent position, never -1 |
| `Engine.Iocaine.constructor` | strategies/iocaine.py:136-164 | empty histories; fresh predictors, every base and meta predictor starting with no prediction and the single zero snapshot `[0,0,0]`; both frequency counters start as the single zero vector over the bots; and the invariant `Valid` |
| `Engine.Iocaine.StartValid` | strategies/iocaine.py:136-164 | a game with empty histories, unused predictors and zeroed counters satisfies the invariant `Valid` |
| `Engine.Iocaine.Observe` | strategies/iocaine.py:185-189 | with a reply, their history and the pairs grow by that reply; without one, they are unchanged; our history is unchanged, and the histories stay aligned and counted by the two frequency counters |
| `Engine.Iocaine.Receive` | strategies/iocaine.py:185-189 | the same, and no predictor changes |
| `Engine.Iocaine.MostFrequentBot` | strategies/iocaine.py:214-215 | `bot_list[stats[mimic].max(age, -1)[0]]` is `FrequencyGuess`, whatever the horizon |
| `Engine.Iocaine.Recollect` | strategies/iocaine.py:201 | `[recall(age, hist) for hist in histories]` is `Recalled` for the three histories |
| `Engine.Iocaine.MimicGuesses` | strategies/iocaine.py:202-216 | the three history guesses and the frequency guess of one mimic |
| `Engine.Iocaine.HorizonGuesses` | strategies/iocaine.py:197-216 | all guesses of one horizon are `HorizonPlanned`: `moves[mimic][watch]` is the history guess for that recalled moment, and `freqs[mimic]` the most frequent bot |
| `Engine.Iocaine.Guesses` | strategies/iocaine.py:192-216 | the list of base guesses in creation order is `Planned` |
| `Engine.Iocaine.FeedBase` | strategies/iocaine.py:192-216 | the base predictors are fed the planned guesses (`Fed`), become ready to be scored, and the meta predictors are unchanged |
| `Engine.Iocaine.Prepare` | strategies/iocaine.py:185-216 | the histories are extended as in `Observe`, the base predictors become `Fed` with the planned guesses, and the meta predictors are unchanged |
| `Engine.Iocaine.FeedMeta` | strategies/iocaine.py:223-227 | the meta predictors become `Fed` with `Picks` of the base predictors, and the base predictors and histories are unchanged |
| `Engine.Iocaine.Play` | strategies/iocaine.py:231-239 | the move is the winner of the meta fold over `len(histories[0])` rounds, it is appended to our history, and the invariant holds again |
| `Engine.Iocaine.Finish` | strategies/iocaine.py:223-239 | the meta feed followed by the final fold and the append |
| `Engine.Iocaine.Move` | strategies/iocaine.py:178-239 | the invariant is kept; our history grows by exactly the returned move, which is a bot; their history and the pairs grow by `them` when present; the base predictors are fed the planned guesses and the meta predictors the six winners; the move is the winner of the meta fold |

## Left out

- `random.randrange` becomes the `randIndex` parameter of `Move`.
- The construction plumbing is not part of this model. This covers `Config`, `scorechart.from_file`, the base class `StrategyBase` and `get_next_bot`. The chart and the bot list are parameters of the constructor.
- The field `lastguess` and the `beats` argument of `addguess` are never read by the source and are left out.
- Every choice in the chart is assumed to have a counter (`Dominance.Closed`), since `loses_to(x, 1)[0]` raises otherwise. The bot list is assumed to be exactly the chart's choices, without duplicates (`Engine.ChartOk`).
- The source sizes the frequency counters by the configured bot count. The model uses the length of the bot list.
- `Dominance.Select`: the dict built by the comprehension is assumed to iterate in the row's order, restricted to the kept keys. In Python 2, that new dict has its own, smaller hash table, so its iteration order can differ from the row's. When counters tie on score, `get_loses_to_list` and `get_beats_list` may then list them in another order than modelled. `LosesToOne` and `Anticipate`, and with them the move played, may then choose a different one of the tied keys. `LosesToOne` may then also differ from `get_best_response`, which the model makes agree. With pairwise different scores on a side, the result is the same for every iteration order (`SortIgnoresOrder`).
- Python 2 dict iteration order is an input: each row's `order`. Float chart values are `real`; they are only compared with 50 and with each other.
- `Engine.Iocaine.Move`: it requires `them` to be `None` on the first call and only then. On a first call with a move, the source fails at `histories[0][-1]`. On a later call with `None`, it carries on with histories out of step. Neither case is modelled.
- `Engine.Iocaine.Move`: it requires the opponent's move to be a bot, because `bot_list.index` raises otherwise.
- `Engine.Iocaine.Move`: the source calls `addguess` in its own interleaved order, while the model reaches the same end state in a different order, which is not modelled. The model computes all base guesses first, then feeds the base predictors, then computes the six winners from the fed predictors. This gives the same final state because:
  - each `addguess` reads and writes only its own predictor;
  - the guesses read only the histories and the frequency counters.
- `Engine.Iocaine.Move`: `guesses` is a ghost output. It names the planned guesses in the contract and is not returned by the source.
- `Predictors.Anticipate`: the contract names only the one-hop property of action 2. The three and five hops of actions 0 and 1 are its definition, not its contract.
- `Engine.Iocaine.Observe`: `Receive`'s contract adds that no predictor changes. `Observe`'s own contract does not say so.
