# CoinGame-CFR in Dafny

This project models two counterfactual-regret-minimisation (CFR) solvers and
proves properties of the model. It also models the script that plays Kuhn
poker against the strategy one of them saves.

- **Kuhn poker solver** (`khun_poker.py`). Three ranks (K > Q > J), two
  actions (b = bet, p = pass). An information-set key is the deciding
  player's rank followed by the public history.
  - The twelve keys are registered once, shorter keys first.
  - Each training iteration sweeps the key table in five phases: beliefs
    about the opponent's rank (Bayes' rule over the opponents' strategies),
    action utilities (longest key first), reach likelihoods, regret gains,
    and regret matching into the next strategy.
- **Coin-guessing game solver** (`main.py`). `P` players each hide 0 to `C`
  coins, then take turns guessing the total. A key is the decimal count of
  the deciding player's coins followed by the guesses before it.
  - The solver builds its keys and a prior over the total.
  - It then runs the same five phases, using a stubbed utility of `P - 1`
    for a hit and `-1` for a miss.
  - Its training loop stops after `numIterations` iterations, or as soon as
    an iteration's total gain is at most 0.1.
- **Play script** (`play_khun_poker.py`). It has its own copies of the
  showdown comparison and the payoffs. The computer's move is looked up in
  the saved strategy.

Modules:

| module | file | contents |
|---|---|---|
| `Outcomes` | outcomes.dfy | `Option`, `Result`, and the Python exceptions the code can raise (`ValueError`, `KeyError`, `IndexError`, `TypeError`, `ZeroDivisionError`) as values |
| `PyStr` | pystr.dfy | the Python primitives the code relies on: `str(n)`, `int(s)`, `s.find(t) != -1`, slicing with clamped and negative indices, stable `sorted(xs, key=len)` |
| `RegretMatching` | regret_matching.dfy | the records `InfoSetData` and `InfoSetActionData`, which both solvers define alike, and regret matching over one record |
| `Training` | training.dfy | the gain-group size and which iterations' total gains are kept for the plot |
| `KuhnPoker` | kuhn_poker.dfy | the pure functions of `khun_poker.py` |
| `KuhnSpec` | kuhn_spec.dfy | what each Kuhn phase computes, as functions of the table, and what those values mean |
| `KuhnSolver` | kuhn_solver.dfy | class `KuhnCfr`: the module-level `infoSets` and `sortedInfoSets` as fields; each phase as a method with its loops |
| `PlayKuhnPoker` | play_kuhn_poker.dfy | the play script's comparison, payoffs and strategy lookup |
| `CoinGame` | coin_game.dfy | the pure functions of `main.py` |
| `CoinSpec` | coin_spec.dfy | each coin-game phase as a fold over the keys, with the first exception it raises |
| `CoinCfr` | coin_cfr.dfy | class `CoinCfr` (Python's `CFR`): `infoSets`, `sorted_infoSets` and `coin_sum_prior` as fields; its methods loop as the source does; also the driver `main` |

Modelling choices:

- Probabilities are exact `real`s. Integers are unbounded, like Python's.
- A raised exception becomes a `Failure(error)` result, or a `Fail(error)`
  outcome for a method that only changes state. A sweep stops at the first
  failure, as the Python loop does.
- Every imperative method is proved to leave exactly the state that a
  specification function or relation describes. The training loops are
  proved to run a chain of tables, each one the result of a whole iteration
  on the one before, with that iteration's total gain. Lemmas then prove
  what that state means:
  - beliefs and strategies are probability distributions;
  - the regret-matching divisor is not zero;
  - gains are never negative and cumulative gains never decrease;
  - likelihoods lie in (0, 1/3];
  - every key the utility phase reads is computed before it is read.

Where the code does something unexpected, the model follows the code:

- `InfoSetData` in `main.py` seeds `P**C + 1` actions. The legal guesses
  from `get_possible_actions` are the `P*C + 1` totals.
- The filtering loop `range(len(actions), 0)` in `InfoSetData` never runs.
- `historic[-1:1]` in `get_prev_info_states_hist` is always empty. So the
  earlier keys of a key are just the counts "0" to `str(C - 1)`, and every
  longer key gets the same likelihood (`CoinSpec.NonRootLikelihoodsAgree`).
- `update_strat` in `main.py` divides by the sum of the cumulative gains of
  the legal guesses, with no check for 0. The coin model raises
  `ZeroDivisionError` when that sum is 0. Every cumulative gain starts at
  `1 / (P**C + 1)` (`main.py:26`) and never goes down, so the model proves
  that the sum is never 0 in training: `update_strat` can raise only a
  `KeyError`. For Kuhn poker it proves the divisor of `updateStrategies` is
  at least 1.

## Model

| member | source | states |
|---|---|---|
| PyStr.Str | main.py:63 | `str(n)` is a non-empty string of decimal digits, one character exactly when `n < 10` |
| PyStr.DigitValue | main.py:216 | a digit character's value is below 10 and maps back to the same character |
| PyStr.ParseStr | main.py:216 | `int(str(n)) == n` |
| PyStr.StrInjective | main.py:63 | two numbers have the same decimal string exactly when they are equal |
| PyStr.ContainsAt | main.py:112 | `s.find(sub) != -1` holds exactly when `sub` occurs at some position of `s` |
| PyStr.PyIndex | main.py:100 | a slice bound is clamped to `0..n`; a negative one counts from the end |
| PyStr.PySlice | main.py:100 | a slice is never longer than the string, and it is the ordinary subsequence for in-range bounds |
| PyStr.InsertByLength | main.py:79 | inserting one string adds exactly that string to the multiset of elements |
| PyStr.InsertByLengthOrdered | main.py:79 | inserting into a list ordered by length keeps it ordered by length |
| PyStr.SortedByLength | main.py:79 | `sorted(xs, key=len)` is a permutation of `xs` with non-decreasing lengths, and stable: for every length, the elements of that length keep their order in `xs` |
| PyStr.InsertByLengthStable | main.py:79 | inserting one element into a length-sorted list keeps the order of the elements of each length, and puts the new one after the old ones of its length |
| PyStr.DistinctByMultiset | khun_poker.py:165 | a permutation of a duplicate-free list is duplicate-free |
| RegretMatching.NewActionData | khun_poker.py:110-114 | a fresh action has strategy and cumulative gain both equal to `initStratVal` and no utility |
| RegretMatching.Gain | khun_poker.py:279 | `max(0, util - expectedUtil)`: never negative, at least the difference, and equal to 0 or to the difference |
| RegretMatching.ExpectedUtilAbove | khun_poker.py:240-243 | if every utility exceeds `lo`, the strategy-weighted sum is at least `lo` times the total weight, and strictly above it when some weight is positive |
| RegretMatching.SomeActionHasNoGain | khun_poker.py:277-281 | when the strategy is a distribution, some action gains 0: regret matching never rewards every action |
| RegretMatching.Scaled | khun_poker.py:281 | the increase `gain * likelihood` of a cumulative gain, and main.py's `prob_comb *= ...`, are non-negative when both factors are |
| RegretMatching.AddGains | khun_poker.py:277-281 | the gain loop keeps every key, strategy and utility, reports a non-negative total, and lowers no cumulative gain when the likelihood is non-negative |
| RegretMatching.GainTotal | khun_poker.py:280 | the sum of the instantaneous gains is non-negative |
| RegretMatching.RealSum | khun_poker.py:289 | a sum of non-negative reals is non-negative |
| RegretMatching.AddGainsClosedForm | khun_poker.py:273-282 | over distinct labels, each listed action gains exactly `max(0, util - expectedUtil) * likelihood`, others are untouched, and the total is the sum of the gains |
| RegretMatching.Renormalized | khun_poker.py:290-292 | each listed action's strategy becomes its cumulative gain over the divisor; nothing else changes |
| RegretMatching.RenormalizedTotal | khun_poker.py:288-292 | the renormalised strategies add up to the cumulative gains divided by the divisor |
| RegretMatching.RenormalizedIsDistribution | khun_poker.py:285-292 | dividing non-negative gains by their positive sum gives a probability distribution, positive wherever the gain is |
| RegretMatching.CumulativeGainTotalAtLeast | khun_poker.py:288-289 | gains that are each at least `lo` add up to at least `lo` per action |
| Training.GainGroupSize | khun_poker.py:343-346 | `numIterations // numGainsToPlot`, raised to 1 when it is 0; always at least 1 |
| Training.MultiplesStep | khun_poker.py:359-360 | one more iteration adds a kept total exactly when its index is a multiple of the group size |
| Training.RecordedNothing | khun_poker.py:341 | before the first iteration no total gain is kept |
| Training.RecordedStep | khun_poker.py:359-360 | one more iteration keeps its total gain exactly when its index is a multiple of the group size, and the gains stay non-negative |
| KuhnPoker.GetDecidingPlayerForInfoSet | khun_poker.py:23-24 | the deciding player is 0 or 1, and 0 exactly when the key has odd length (1 and 3) |
| KuhnPoker.DecidingPlayerAlternates | khun_poker.py:23-24 | one more action hands the decision to the other player |
| KuhnPoker.GetPossibleOpponentPockets | khun_poker.py:117-118 | the other ranks, with no repeats: two for a rank, all three otherwise |
| KuhnPoker.WithoutRank | khun_poker.py:118 | filtering drops exactly the given rank and keeps a duplicate-free list duplicate-free |
| KuhnPoker.PrependEach | khun_poker.py:126 | the list comprehension puts each prefix in front of the suffix, position by position |
| KuhnPoker.PrependEachMembers | khun_poker.py:132 | with one-character prefixes, the members are exactly one of those characters followed by the suffix |
| KuhnPoker.GetAncestralInfoSetStr | khun_poker.py:121-126 | `ValueError` on a one-character key and `IndexError` on the empty one; otherwise exactly the two keys of the other ranks with the history before the last action |
| KuhnPoker.GetDescendantInfoSetStrs | khun_poker.py:129-132 | `IndexError` on the empty key; otherwise exactly the keys of the other ranks with the history extended by the action |
| KuhnPoker.AncestorsAndDescendantsAreInverse | khun_poker.py:121-132 | `t` is a descendant of `s` by `t`'s last action exactly when `s` is an ancestor of `t` |
| KuhnPoker.PlayerOnePocketIsHigher | khun_poker.py:135-144 | on two different ranks, true exactly when the first outranks the second (K > Q > J); `ValueError` exactly when neither pocket is K or J (Q against Q) |
| KuhnPoker.CalcUtilityAtTerminalNode | khun_poker.py:147-161 | zero-sum payoffs, equal to Kuhn poker's rules on a valid deal; `ValueError` for any history outside the five terminal ones |
| KuhnPoker.TerminalStakes | khun_poker.py:147-161 | the stake is 2 exactly for "bb" and "pbb", and 1 exactly for "pp", "bp" and "pbp" |
| KuhnSpec.NewInfoSetData | khun_poker.py:27-36 | a fresh record plays b and p with probability 1/2 each, with 1/2 of gain each, and has no beliefs, utilities, expected utility or likelihood |
| KuhnSpec.InfoSetKeys | khun_poker.py:164-169 | three keys per history |
| KuhnSpec.InfoSetKeysStep | khun_poker.py:166-169 | registering one more history appends its three keys in rank order |
| KuhnSpec.InfoSetKeysMembers | khun_poker.py:164-169 | the registered keys are exactly a rank followed by one of the histories |
| KuhnSpec.InfoSetKeysDistinct | khun_poker.py:164-169 | distinct histories give distinct keys |
| KuhnSpec.InfoSetKeyLength | khun_poker.py:167 | a key is one character longer than its history |
| KuhnSpec.InfoSetKeysOrdered | khun_poker.py:165-169 | histories ordered by length give keys ordered by length |
| KuhnSpec.RegistryFromAnyEnumeration | khun_poker.py:164-169 | whatever order Python iterates the set of histories in, the 12 keys rank x {"", "p", "b", "pb"} are each registered once, ordered by length |
| KuhnSpec.ShorterKeyComesFirst | khun_poker.py:165 | in a registry ordered by length, a shorter key comes before a longer one |
| KuhnSpec.ParentIsRegistered | khun_poker.py:121-126 | an ancestor of a non-root key is a registered key, and the last action is b or p |
| KuhnSpec.ParentHistory | khun_poker.py:20 | a non-empty decision history minus its last action is a decision history |
| KuhnSpec.LongKeys | khun_poker.py:264 | the only three-character keys end in "pb"; two actions back is the root key of the same rank |
| KuhnSpec.LastActionProbability | khun_poker.py:185 | on a well-formed table, an opponent's probability of the last action is positive |
| KuhnSpec.UniformBeliefs | khun_poker.py:175-178 | each listed opponent rank gets `1 / count`; other beliefs stay |
| KuhnSpec.PosteriorBeliefs | khun_poker.py:186-191 | the second loop over the ancestors keeps every earlier belief key |
| KuhnSpec.AncestorsShape | khun_poker.py:180 | a non-root key has exactly two ancestors, the other ranks' keys one action shorter |
| KuhnSpec.AncestorsOfKey | khun_poker.py:180-185 | both ancestors have records, and their total probability of the last action is positive |
| KuhnSpec.TotalOfTwo | khun_poker.py:182-185 | the total over two ancestors is the sum of their probabilities |
| KuhnSpec.RegisteredRecord | khun_poker.py:174 | a registered key has a healthy record with positive strategies for b and p |
| KuhnSpec.PositiveShare | khun_poker.py:189-191 | two positive weights divided by their total are positive and sum to 1 |
| KuhnSpec.RootBeliefs | khun_poker.py:175-178 | a root key believes each other rank with probability 1/2 |
| KuhnSpec.PosteriorSteps | khun_poker.py:180-191 | a deeper key's beliefs are the two ancestors' probabilities of the last action, each over their positive total |
| KuhnSpec.LastActionTotal | khun_poker.py:182-185 | the total over both other ranks is positive: the division is always defined |
| KuhnSpec.PosteriorIsBayesRule | khun_poker.py:180-191 | a deeper key believes rank `o` with `o`'s probability of the last action over the total: Bayes' rule under a uniform deal |
| KuhnSpec.PosteriorIsDistribution | khun_poker.py:180-191 | a deeper key's beliefs are a distribution with no zero entry |
| KuhnSpec.PosteriorOfTwo | khun_poker.py:186-191 | the second ancestor loop, written out for two ancestors |
| KuhnSpec.UpdatedBeliefsAreDistribution | khun_poker.py:172-193 | after `updateBeliefs`, every key's beliefs about the two other ranks sum to 1 with no zero entry |
| KuhnSpec.TerminalUtilIsOwnPayoff | khun_poker.py:208-214 | reversing the pockets for player 1 gives each deciding player their own payoff |
| KuhnSpec.ExtensionKinds | khun_poker.py:18-20 | one action from a decision history ends the game or reaches another decision, the latter only from "" or by a bet after "p" |
| KuhnSpec.OnlyOpeningPassReachesADecision | khun_poker.py:217-236 | two actions after a key reach a key only from a root key by p then b, giving the registered key rank + "pb" |
| KuhnSpec.DescendantIsRegistered | khun_poker.py:212-216 | a descendant reached without ending the game is a registered key |
| KuhnSpec.DescendantsOfKey | khun_poker.py:203-207 | the descendants of a key ready for the utility update exist and have what the update reads |
| KuhnSpec.ActionUtils | khun_poker.py:201-238 | a utility for each of b and p |
| KuhnSpec.WithActionUtils | khun_poker.py:238 | storing the utilities changes only the utilities of the listed actions |
| KuhnSpec.UpdatedUtilities | khun_poker.py:196-243 | the utility update keeps the beliefs, likelihood, actions, strategies and cumulative gains |
| KuhnSpec.ResponseValueFrame | khun_poker.py:217-236 | an opponent answer's value depends only on the expected utility after "pb" |
| KuhnSpec.ResponsesUtilFrame | khun_poker.py:217-236 | the answers' weighted values depend only on the belief and the opponent's strategy |
| KuhnSpec.DescendantUtilFrame | khun_poker.py:206-236 | a descendant's contribution depends only on the beliefs, strategies and the utility after "pb" |
| KuhnSpec.AnsweredDescendantFrame | khun_poker.py:215-236 | the same for a descendant where the game goes on |
| KuhnSpec.TerminalDescendantFrame | khun_poker.py:212-214 | the same for a descendant where the game ends |
| KuhnSpec.TerminalDescendantUtil | khun_poker.py:212-214 | a terminal descendant contributes its belief times the payoff |
| KuhnSpec.DescendantsUtilFrame | khun_poker.py:206-236 | the loop over descendants depends only on what each descendant reads |
| KuhnSpec.ActionUtilFrame | khun_poker.py:201-238 | an action's utility depends only on strategies, the key's beliefs, and (for a root key) the expected utility after "pb" |
| KuhnSpec.ActionUtilsFrame | khun_poker.py:201-238 | the same for both actions at once |
| KuhnSpec.UpdatedRecordHealthy | khun_poker.py:238-243 | the record the utility update stores is healthy |
| KuhnSpec.UpdatedUtilitiesRecord | khun_poker.py:240-243 | after the update, each action holds its utility, and `expectedUtil` is the sum of strategy x utility over b and p |
| KuhnSpec.UpdatedUtilitiesConsistent | khun_poker.py:196-243 | storing the update keeps the table well formed and makes the key's record consistent with the new table |
| KuhnSpec.UtilitiesStayConsistent | khun_poker.py:352-353 | updating one key keeps every other key consistent, except the root key that reads it after "pb" |
| KuhnSpec.LastActionProbabilityAtMostOne | khun_poker.py:258 | a strategy probability is at most 1 |
| KuhnSpec.LikelihoodOfTwo | khun_poker.py:255-270 | a deeper key's likelihood is the sum of the two opponent ranks' terms |
| KuhnSpec.LikelihoodTermBound | khun_poker.py:255-270 | each opponent rank adds a share in (0, 1/6] |
| KuhnSpec.LikelihoodBounds | khun_poker.py:246-270 | every likelihood lies in (0, 1/3]; a root key's is 1/3 |
| KuhnSpec.RecordGain | khun_poker.py:277-280 | a record adds a non-negative amount to the total gain |
| KuhnSpec.RecordGains | khun_poker.py:275-280 | one non-negative amount per key, in key order, each the record's gain |
| KuhnSpec.GainedRecordHealthy | khun_poker.py:273-282 | the gain phase keeps a record healthy: cumulative gains stay at least 1/2 |
| KuhnSpec.StrategyTotalOfActions | khun_poker.py:289 | the total over b and p is the sum of the two entries |
| KuhnSpec.RenormalizedRecordHealthy | khun_poker.py:285-292 | regret matching leaves a distribution with no zero entry; the divisor is at least 1, never 0 |
| KuhnSpec.LastActionProbabilityFrame | khun_poker.py:185 | the probability of an opponent's last action depends only on the strategies |
| KuhnSpec.UpdatedBeliefsFrame | khun_poker.py:172-193 | a key's new beliefs depend only on the strategies and its earlier beliefs |
| KuhnSpec.PosteriorFrame | khun_poker.py:180-191 | the same for a deeper key |
| KuhnSpec.UpdatedLikelihoodFrame | khun_poker.py:246-270 | a key's likelihood depends only on the strategies and, for the last key, its grandparent's likelihood |
| KuhnSolver.ScriptGainGroupSize | khun_poker.py:340-346 | with the script's constants, every second iteration's total gain is kept, 500 000 in all |
| KuhnSolver.FreshTableWellFormed | khun_poker.py:164-169 | fresh records for the registered keys form a well-formed table, whatever the set iteration order |
| KuhnSolver.RegistryKeys | khun_poker.py:169 | every registered key is a key of the table |
| KuhnSolver.SweepStep | khun_poker.py:286-292 | storing the next key's target record continues a sweep |
| KuhnSolver.SweepDone | khun_poker.py:286-292 | a finished sweep holds every key's target and changed nothing else |
| KuhnSolver.BeliefsTarget | khun_poker.py:172-193 | the records `updateBeliefs` stores are for registered keys |
| KuhnSolver.BeliefsSweepDone | khun_poker.py:172-193 | the finished belief sweep leaves every key's beliefs as the starting strategies determine |
| KuhnSolver.BeliefsSweepStart | khun_poker.py:173 | the belief sweep starts with no key swept |
| KuhnSolver.BeliefsSweepStep | khun_poker.py:173-191 | storing one key's beliefs continues the sweep; strategies stay the same, so later keys see the same strategies |
| KuhnSolver.DistributionCoversOtherRanks | khun_poker.py:207 | a belief distribution has an entry for each other rank |
| KuhnSolver.UpdatedBeliefsHeld | khun_poker.py:207 | after `updateBeliefs`, the utility phase's `beliefs[...]` lookups all succeed |
| KuhnSolver.UtilitiesSweepStart | khun_poker.py:352 | the reversed utility sweep starts with no key done |
| KuhnSolver.UtilitiesSweepDone | khun_poker.py:352-353 | the finished sweep leaves every key with the utilities the table determines, and only utilities changed |
| KuhnSolver.UtilitiesSweepReady | khun_poker.py:231-235 | in reverse registration order, the key after "pb" that a root key reads was already done |
| KuhnSolver.StoreUtilitiesFrame | khun_poker.py:238-243 | storing an updated record changes nothing but utilities |
| KuhnSolver.StoreUtilitiesConsistent | khun_poker.py:352-353 | storing the next key keeps every key already done consistent |
| KuhnSolver.UtilitiesSweepStep | khun_poker.py:352-353 | one more key continues the reversed sweep |
| KuhnSolver.LikelihoodSweepDone | khun_poker.py:246-270 | the finished likelihood sweep gives every key its likelihood and changes nothing else |
| KuhnSolver.LikelihoodSweepReady | khun_poker.py:264 | in registration order, the root key a last key reads is done, with a likelihood in (0, 1/3] |
| KuhnSolver.LikelihoodsKeepStrategies | khun_poker.py:246-270 | the likelihood phase keeps every strategy |
| KuhnSolver.StoreLikelihoodConsistent | khun_poker.py:247-270 | storing one likelihood keeps the table well formed and every key done so far consistent |
| KuhnSolver.StoredLikelihoodConsistent | khun_poker.py:247-270 | the stored likelihood is the one the new table determines, in (0, 1/3] |
| KuhnSolver.LikelihoodSweepStep | khun_poker.py:247-270 | one more key continues the likelihood sweep |
| KuhnSolver.GainsSweepStart | khun_poker.py:273-282 | before `calcGains`, every key's record is ready and its target is the gained record |
| KuhnSolver.GainsSweepDone | khun_poker.py:273-282 | the finished gain sweep leaves each key's gained record and nothing else changed |
| KuhnSolver.PhasesReadyForGains | khun_poker.py:352-357 | after the utility and likelihood phases, every record has what `calcGains` reads |
| KuhnSolver.StrategiesSweepStart | khun_poker.py:285-292 | before `updateStrategies`, every record is healthy and its target is the renormalised record |
| KuhnSolver.StrategiesSweepDone | khun_poker.py:285-292 | the finished sweep leaves each key's renormalised record and nothing else changed |
| KuhnSolver.KuhnCfr.constructor | khun_poker.py:12-13 | the table and the key list start empty |
| KuhnSolver.KuhnCfr.InitInfoSets | khun_poker.py:164-169 | `sortedInfoSets` gains the registered keys in order, and each key gets a fresh record; other records are untouched |
| KuhnSolver.KuhnCfr.RegisterHistories | khun_poker.py:165-169 | the outer loop appends three keys per history, each with a fresh record |
| KuhnSolver.KuhnCfr.RegisterRanks | khun_poker.py:166-169 | the inner loop appends rank + history for each rank, each with a fresh record |
| KuhnSolver.KuhnCfr.BeliefsOf | khun_poker.py:174-191 | one key's beliefs are the specified ones: 1/2 at a root key, Bayes' rule otherwise |
| KuhnSolver.KuhnCfr.PosteriorOf | khun_poker.py:180-191 | the two ancestor loops compute the specified posterior |
| KuhnSolver.KuhnCfr.AncestorTotalOf | khun_poker.py:182-185 | the first loop computes the ancestors' total probability of the last action |
| KuhnSolver.KuhnCfr.PosteriorLoop | khun_poker.py:186-191 | the second loop divides each ancestor's probability by the total |
| KuhnSolver.KuhnCfr.UpdateBeliefs | khun_poker.py:172-193 | every key gets the beliefs the strategies determine; nothing else changes; the invariant is kept |
| KuhnSolver.KuhnCfr.UpdateBeliefsAt | khun_poker.py:173-191 | one pass of the loop continues the belief sweep |
| KuhnSolver.KuhnCfr.UpdateUtilities | khun_poker.py:352-353 | the reversed sweep leaves every key with the utilities the table determines; only utilities change |
| KuhnSolver.KuhnCfr.CalcInfoSetLikelihoods | khun_poker.py:246-270 | every key gets its reach likelihood; nothing else changes |
| KuhnSolver.KuhnCfr.CalcGains | khun_poker.py:273-282 | cumulative gains grow by gain x likelihood; the result is the non-negative sum of all gains |
| KuhnSolver.KuhnCfr.AddGainsToAll | khun_poker.py:275-281 | the loop over keys stores every gained record and returns the sum of their gains |
| KuhnSolver.KuhnCfr.GainedRecordOf | khun_poker.py:276-281 | one record's body gives the gained record and its gain |
| KuhnSolver.KuhnCfr.AddRecordGains | khun_poker.py:277-281 | the loop over actions computes `AddGains` and adds its total to the running total |
| KuhnSolver.KuhnCfr.LikelihoodOf | khun_poker.py:248-270 | one key's likelihood is the specified one |
| KuhnSolver.KuhnCfr.SecondKeyLikelihood | khun_poker.py:255-260 | a two-character key sums the opponent's probabilities over the 6 deals |
| KuhnSolver.KuhnCfr.LastKeyLikelihood | khun_poker.py:261-270 | the last key sums probability x grandparent likelihood shared over 2 pockets |
| KuhnSolver.KuhnCfr.AddAnswers | khun_poker.py:217-236 | the two accumulators together grow by the answers' weighted values |
| KuhnSolver.KuhnCfr.ActionUtilOf | khun_poker.py:202-238 | the loop over descendants computes the specified action utility |
| KuhnSolver.KuhnCfr.UpdateUtilitiesForInfoSetStr | khun_poker.py:196-243 | only the key's record changes, to the specified utilities and expected utility |
| KuhnSolver.KuhnCfr.ActionUtilsOf | khun_poker.py:201-238 | each action's utility is stored in the key's action table |
| KuhnSolver.KuhnCfr.ExpectedUtilOf | khun_poker.py:240-243 | the last loop computes the sum of strategy x utility |
| KuhnSolver.KuhnCfr.UpdateStrategies | khun_poker.py:285-292 | every key's strategy becomes each action's share of its cumulative gains; nothing else changes |
| KuhnSolver.KuhnCfr.RenormalizeAll | khun_poker.py:286-292 | the loop over keys stores every renormalised record |
| KuhnSolver.KuhnCfr.RenormalizedRecordOf | khun_poker.py:287-292 | one record's body renormalises it; the divisor is at least 1 |
| KuhnSolver.KuhnCfr.RunIteration | khun_poker.py:350-363 | one iteration runs the five phases in order, each on the table the previous one left (`IterationRan`); the total gain is the sum of the recorded per-key gains, and non-negative |
| KuhnSolver.RegisteredFresh | khun_poker.py:164-169 | `initInfoSets` from the empty table leaves exactly the twelve keys, each with a fresh record, in a well-formed table |
| KuhnSolver.IteratedStep | khun_poker.py:348-363 | a chain of iterations extended by one more iteration from its last table is still a chain |
| KuhnSolver.RanFromStep | khun_poker.py:348-363 | a run from one table to another, extended by one iteration, is a run from the same start to the new table |
| KuhnSolver.KuhnCfr.Iterations | khun_poker.py:348-363 | the `for` loop runs `numIterations` iterations, table `j + 1` being iteration `j`'s result on table `j` with total gain `iterationGains[j]`; the run starts at the table the loop began with and ends at the current one; every group-size-th gain is kept |
| KuhnSolver.KuhnCfr.Train | khun_poker.py:338-363 | the run starts from the freshly registered table and each of its `numIterations` iterations is one `RunIteration`, its gain recorded; all gains are non-negative, and every group-size-th one is kept |
| KuhnSolver.KuhnCfr.RunScript | khun_poker.py:337-363 | the script as written runs a million iterations from the fresh table, each as `RunIteration` specifies, and keeps every second total gain: exactly 500 000, all non-negative |
| PlayKuhnPoker.PlayerOnePocketIsHigher | play_khun_poker.py:7-16 | on two different cards of `CARD_MAP`, true exactly when the first has the higher index; `ValueError` exactly when neither is K or J |
| PlayKuhnPoker.CalcUtilityAtTerminalNode | play_khun_poker.py:18-32 | zero-sum payoffs at the five terminal histories; `ValueError` everywhere else |
| PlayKuhnPoker.SameComparisonAsSolver | play_khun_poker.py:7-16 | the script's comparison equals the solver's on every input |
| PlayKuhnPoker.SamePayoffsAsSolver | play_khun_poker.py:18-32 | the script's payoffs equal the solver's on every input, errors included |
| PlayKuhnPoker.CardMapDeal | play_khun_poker.py:4 | two different card indices give a valid deal, and the higher index is the higher rank |
| PlayKuhnPoker.Weights | play_khun_poker.py:42 | the weights are the entry's probabilities, in the entry's order |
| PlayKuhnPoker.GetComputerAction | play_khun_poker.py:40-44 | `ValueError` for a missing history and for weights `random.choices` refuses; otherwise "b" exactly when the scaled draw is below the weight of b |
| PlayKuhnPoker.SavedStrategy | khun_poker.py:332-334 | the saved dictionary has the table's keys, and each entry lists the probabilities of b and p in that order |
| PlayKuhnPoker.ComputerHistoryIsKey | play_khun_poker.py:85 | the history the computer is asked about is an information-set key |
| PlayKuhnPoker.ComputerMovesFromSavedStrategy | play_khun_poker.py:40-44 | against a saved well-formed table, the lookup never fails at a key, and the computer bets exactly when the draw is below its trained probability of betting |
| CoinGame.StrRange | main.py:63 | `[str(i) for i in range(lo, hi)]`, position by position |
| CoinGame.StrRangeMembers | main.py:63 | the members are exactly the decimal strings of `lo..hi-1` |
| CoinGame.StrRangeDistinct | main.py:63 | a range of decimal strings has no repeats |
| CoinGame.Pow | main.py:19 | a power of a positive base is at least 1 |
| CoinGame.Guesses | main.py:160 | `historic[1:]`, empty for an empty key |
| CoinGame.UnusedValues | main.py:108-115 | every kept value is in range and not guessed, in ascending order |
| CoinGame.Strs | main.py:109 | `str` of each number, position by position |
| CoinGame.UnusedValuesComplete | main.py:111-113 | every value in range that is not guessed is kept |
| CoinGame.UnusedTotalIsLegal | main.py:108-115 | every total from 0 to `P*C` that is not yet guessed is a legal guess |
| CoinGame.StrsMember | main.py:109 | the string of a listed number is listed |
| CoinGame.PossibleActionsMembers | main.py:108-115 | the legal guesses are exactly the strings "0".."P*C" that do not occur in `historic[1:]` |
| CoinGame.PossibleActionsAreTotals | main.py:109 | every legal guess is a total from 0 to `P*C` |
| CoinGame.PossibleActionsAscending | main.py:108-115 | the legal guesses are in ascending numeric order, so none appears twice |
| CoinGame.GetPossibleCoinsSum | main.py:117-118 | `(P - 1) * C + 1` totals |
| CoinGame.PossibleCoinsSumMembers | main.py:117-118 | exactly the decimal strings of `c` to `c + (P - 1) * C` |
| CoinGame.SumBound | main.py:87 | an `n`-tuple of entries at most `c` sums to at most `n * c` |
| CoinGame.PrependEachMembers | main.py:268 | one level of `product`: a tuple is listed exactly when its head is in range and its tail is listed |
| CoinGame.ProductMembers | main.py:268 | `product(range(c + 1), repeat=n)` lists exactly the `n`-tuples over `0..c` |
| CoinGame.WithSum | main.py:270-272 | the filter keeps at most all tuples |
| CoinGame.WithSumMembers | main.py:270-272 | the filter keeps exactly the tuples with the given sum |
| CoinGame.CoinCombinationsMembers | main.py:266-274 | the combinations are exactly the `n`-tuples over `0..C` that sum to `s` |
| CoinGame.FirstCorrectGuessFinds | main.py:164-167 | the scan finds the first player whose guess is the total; `IndexError` when the guesses run out before a match |
| CoinGame.CalcUtilTerminalNode | main.py:159-169 | one payoff per player |
| CoinGame.PayoffsSum | main.py:162-167 | one `n - 1` and `-1` elsewhere over `n` players add up to 0 |
| CoinGame.ZeroPayoffsSum | main.py:169 | all-zero payoffs add up to 0 |
| CoinGame.TerminalPayoffs | main.py:159-169 | the first correct guesser gets `P - 1` and every other player -1; all 0 when nobody is right; always zero-sum; `IndexError` exactly when fewer than `P` guesses and none is right |
| CoinGame.GetPrevInfoStatesHist | main.py:97-100 | `ValueError` exactly on a one-character key, and `C` keys otherwise |
| CoinGame.PrevInfoStatesAreCounts | main.py:100 | `historic[-1:1]` is empty, so the earlier keys are just "0".."C-1" |
| CoinGame.GetNextInfoStatesHist | main.py:102-106 | `C` keys |
| CoinGame.NextInfoStatesExtendHistory | main.py:102-106 | for a key with at most one guess, the next keys are each count followed by the guesses so far and the action |
| CoinGame.IntRange | main.py:21 | `range(lo, hi)` has `hi - lo` entries, none when `hi <= lo` |
| CoinGame.PopOccurring | main.py:21-23 | over an empty range nothing is popped |
| CoinGame.SeedGain | main.py:26 | the initial strategy and cumulative gain `1 / (P**C + 1)` is positive |
| CoinGame.NewCoinInfoSet | main.py:16-31 | a fresh record has the labels "0".."P**C", each with probability `1 / (P**C + 1)`, and nothing computed yet |
| CoinGame.UniformTotal | main.py:26 | equal strategies `x` over `n` labels add up to `n * x` |
| CoinGame.UniformIsDistribution | main.py:26 | `n` labels at `1 / n` each form a distribution |
| CoinGame.NewCoinInfoSetIsDistribution | main.py:19-27 | a fresh record plays its labels uniformly: a probability distribution |
| CoinGame.NatRange | main.py:46 | `[i for i in range(lo, hi)]`, position by position |
| CoinGame.Extensions | main.py:68-71 | every appended string is longer than the one it extends |
| CoinGame.Children | main.py:65-71 | the strings a pass appends are longer than the pass's length, so the pass does not visit them again |
| CoinGame.WithCounts | main.py:73-77 | `C + 1` full keys per guess string |
| CoinGame.TwoPlayersOneGuess | main.py:63-71 | with at most two players no pass runs, and the guess strings are "0".."P*C" |
| CoinGame.WithCountsSound | main.py:73-77 | every full key is a count up to `C` followed by a guess string |
| CoinGame.WithCountsComplete | main.py:73-77 | every count up to `C` is put in front of every guess string |
| CoinGame.VisibleIsPossible | main.py:88 | `str(sum) in get_possible_coins_sum(coin)` exactly when the sum is between `coin` and `coin + (P - 1) * C` |
| CoinGame.PriorRow | main.py:81-94 | a prior row has `P*C + 1` entries; `ZeroDivisionError` is its only failure |
| CoinGame.CountsBelowStep | main.py:86-92 | counting one more tuple adds one exactly when its total is visible and below the bound |
| CoinGame.CountsBelowNothing | main.py:83-85 | before counting, all counts are 0 |
| CoinGame.CountsBelowTotal | main.py:86-92 | the counts of all totals add up to `comb_tot` |
| CoinGame.PriorRowPrefixSum | main.py:94 | the first `n` entries of a row add up to the counts below `n` over `comb_tot` |
| CoinGame.PriorRowIsDistribution | main.py:81-94 | every computed prior row is non-negative and sums to 1 |
| CoinGame.CombTotalPositive | main.py:92 | one visible tuple makes `comb_tot` positive |
| CoinGame.PriorRowDefined | main.py:81-94 | with at least one player every row the solver builds is defined; with no player and a coin the division fails |
| CoinGame.StubUtilClosedForm | main.py:134-142 | the stub utility of a guess is its probability times (`P` x belief in that total, minus the whole belief mass) |
| CoinSpec.Reversed | main.py:319 | `reversed(xs)`, position by position |
| CoinSpec.UtilsOnlyHealthy | main.py:120-157 | changing only utilities keeps the invariant |
| CoinSpec.CombFactor | main.py:201-208 | an opponent's factor is non-negative under the invariant |
| CoinSpec.CombProbability | main.py:199-209 | `prob_comb` is non-negative under the invariant |
| CoinSpec.SumProbability | main.py:198-211 | `prob_sum` is non-negative under the invariant |
| CoinSpec.SumProbabilityNext | main.py:199-211 | one more combination adds its probability, or raises its error |
| CoinSpec.ZeroProbsKeys | main.py:193 | the fresh `probs_sum` is 0 at every total from 0 to `P*C` |
| CoinSpec.TotalProbability | main.py:196-213 | `ValueError` without players (a negative `product` repeat); non-negative under the invariant |
| CoinSpec.Posterior | main.py:216 | a belief built from non-negative parts is non-negative |
| CoinSpec.CoinSumsNext | main.py:196-213 | one more visible total stores its `prob_sum` and adds it to `prob_state`, or raises its error |
| CoinSpec.CoinSumsKeys | main.py:193-213 | `probs_sum` has every total from 0 to `P*C` and every visible total handled |
| CoinSpec.CoinSumsKeysNext | main.py:213 | one more total keeps the keys and adds its own |
| CoinSpec.CoinSumsNonNegative | main.py:196-213 | under the invariant, `probs_sum` and `prob_state` are non-negative |
| CoinSpec.AssignBeliefsKeys | main.py:215-216 | assigning beliefs keeps the earlier ones, adds one per key, and stays non-negative |
| CoinSpec.ProbsSumKeysPresent | main.py:215-216 | every key the assignment reads is present in `probs_sum` |
| CoinSpec.AssignedBeliefsCover | main.py:215-216 | afterwards, every total from 0 to `P*C` has a belief |
| CoinSpec.BeliefsStep | main.py:185-216 | one key's update changes only its beliefs, covers every total, and keeps the invariant |
| CoinSpec.BeliefsSweep | main.py:184-218 | `update_beliefs` changes only beliefs, every swept key covers every total, and the invariant is kept |
| CoinSpec.CoverExtended | main.py:185 | a belief once there stays when only beliefs change |
| CoinSpec.ActionUtils | main.py:127-152 | each listed guess's utility becomes its stub utility; nothing else changes |
| CoinSpec.UtilityOfOneGuess | main.py:134-152 | one guess's utility in closed form |
| CoinSpec.UtilityOfGuess | main.py:127-152 | each guess's utility is its strategy x (`P` x belief in the guessed total - whole belief mass) |
| CoinSpec.RecordUtilities | main.py:120-157 | `KeyError` on a missing action or belief; otherwise only utilities change, each in closed form, and the expected utility is set |
| CoinSpec.UtilitiesStep | main.py:120-157 | `KeyError` for an unregistered key; otherwise that key's record is updated and only utilities change |
| CoinSpec.UtilitiesSweep | main.py:319-320 | the utility calls change only utilities and keep the invariant |
| CoinSpec.UtilitiesSweepSucceeds | main.py:319-320 | the calls never raise on keys that have their actions and beliefs |
| CoinSpec.LikelihoodTerm | main.py:182 | one term raises `KeyError` or `TypeError`, or keeps the invariant |
| CoinSpec.LikelihoodTerms | main.py:180-182 | the inner loop sets only the key's likelihood |
| CoinSpec.LikelihoodStep | main.py:173-182 | a one-character key gets `1 / (C + 1)`; only likelihoods change; the invariant is kept |
| CoinSpec.OneLikelihoodSet | main.py:175-182 | setting one likelihood changes only likelihoods |
| CoinSpec.LikelihoodReset | main.py:175 | resetting to 0 before summing changes only that likelihood |
| CoinSpec.LikelihoodTermValue | main.py:182 | a term fails exactly when the earlier key, its action or its likelihood is missing; otherwise it adds likelihood x strategy |
| CoinSpec.LikelihoodTermAgrees | main.py:180-182 | one term on two keys from agreeing tables gives equal results |
| CoinSpec.LikelihoodTermsAgree | main.py:180-182 | two keys summing over the same earlier keys get the same total |
| CoinSpec.NonRootLikelihoodsAgree | main.py:100 | every key longer than one character, other than the counts themselves, gets the same likelihood |
| CoinSpec.LikelihoodsSweep | main.py:171-182 | only likelihoods change; every swept key has one; one-character keys have `1 / (C + 1)`; the invariant is kept |
| CoinSpec.GainsCheck | main.py:226-230 | `KeyError` for a guess without an action, `TypeError` for a missing utility, expected utility or likelihood |
| CoinSpec.RecordGains | main.py:224-231 | only cumulative gains change, each by its gain x likelihood; the total is the sum of the gains, never negative; none goes down under the invariant |
| CoinSpec.GainsStep | main.py:223-231 | `KeyError` for an unregistered key; otherwise that record's gains, and a non-negative total |
| CoinSpec.GainsSweep | main.py:220-232 | `calc_gains` returns a non-negative total; only cumulative gains change, and under the invariant none decreases |
| CoinSpec.StrategiesStep | main.py:235-244 | `KeyError` or `ZeroDivisionError`; otherwise only strategies change, and the invariant is kept |
| CoinSpec.NonNegativeTotal | main.py:238-244 | under the invariant, the total is non-negative and every share is non-negative |
| CoinSpec.CumulativeGainTotalPositive | main.py:240 | one positive gain makes the total positive |
| CoinSpec.StrategiesStepIsDistribution | main.py:234-244 | division by zero happens exactly when no legal guess has gained; otherwise the strategy is a distribution, positive wherever the gain is |
| CoinSpec.ZeroGainsTotal | main.py:240-244 | all-zero gains add up to 0 |
| CoinSpec.StrategiesSweep | main.py:234-244 | only strategies change, and the invariant is kept |
| CoinSpec.StrategiesSweepDistributions | main.py:234-244 | after the sweep, every key with a legal guess plays a distribution over its legal guesses |
| CoinSpec.GainPhasesOf | main.py:317-324 | the phases of one iteration up to `calc_gains`: beliefs, utilities over the keys longest first, likelihoods, gains; a non-negative total gain, and the invariant kept |
| CoinSpec.IterationOf | main.py:317-330 | one whole iteration, the gain phases then `update_strat`: the table it leaves and its total gain, non-negative, with the invariant kept |
| CoinSpec.IterationOfPhases | main.py:317-330 | once the gain phases succeed, a whole iteration succeeds or raises exactly as its `update_strat` does, with the gain phases' total |
| CoinSpec.IteratedStep | main.py:315-334 | a chain of iterations extended by one more successful iteration from its last table is still a chain |
| CoinSpec.RanFromStep | main.py:315-334 | a run from one table to another, extended by one successful iteration, is a run from the same start to the new table |
| CoinSpec.StoppedInGainPhases | main.py:317-324 | a loop whose gain phases raise stops on that iteration, with nothing recorded for it |
| CoinSpec.StoppedInStrategies | main.py:324-330 | a loop whose `update_strat` raises `KeyError` stops on that iteration, its gain already recorded, the earlier iterations unchanged |
| CoinSpec.GainsAtLeastKept | main.py:224-244 | a table that lost no cumulative gain keeps every lower bound on them |
| CoinSpec.NoGainLostTrans | main.py:317-330 | losing no cumulative gain over two steps loses none over both |
| CoinSpec.PhaseLosesNoGain | main.py:120-244 | beliefs, utilities, likelihoods and strategies leave the cumulative gains alone, and `calc_gains` under the invariant only raises them |
| CoinSpec.GainPhasesLoseNoGain | main.py:317-324 | under the invariant, the phases up to `calc_gains` lower no cumulative gain |
| CoinSpec.SeededStrategiesStep | main.py:236-244 | when every cumulative gain is at least a positive floor, one key's regret matching never divides by zero: it can raise only `KeyError` |
| CoinSpec.SeededStrategiesSweep | main.py:234-244 | the same for the whole `update_strat` loop |
| CoinSpec.IterationKeepsGainFloor | main.py:317-330 | from a table whose gains are at least a positive floor, a whole iteration keeps that floor, and its `update_strat` raises only `KeyError` |
| CoinCfr.ScriptGainGroupSize | main.py:306-312 | with the script's constants, every 10 000th iteration's gain is kept, a million in all |
| CoinCfr.PopGuessed | main.py:111-113 | popping a guessed label keeps the loop invariant of `get_possible_actions` |
| CoinCfr.KeepUnguessed | main.py:111-113 | an unguessed label stays |
| CoinCfr.ChildrenNext | main.py:66-71 | visiting one more string appends its extensions when it has the pass's length |
| CoinCfr.ProductEntryBound | main.py:86-88 | each tuple of `product` sums to at most `n * C` |
| CoinCfr.GetCoinCombinationsOf | main.py:266-274 | `ValueError` exactly for a negative player count; otherwise the filtered `product`, in order |
| CoinCfr.RegisterStep | main.py:59 | registering one more key extends the registration |
| CoinCfr.NewCoinInfoSetHealthy | main.py:16-31 | a fresh record keeps the invariant |
| CoinCfr.RegisteredHealthy | main.py:53-77 | registering fresh records keeps the invariant |
| CoinCfr.RegisteredSeeded | main.py:26 | registering fresh records keeps every cumulative gain at least `1 / (P**C + 1)` |
| CoinCfr.ContinuedAppend | main.py:332-334 | recording another gain keeps the earlier iterations the loop went on after |
| CoinCfr.ContinuedStep | main.py:333 | the loop goes on after an iteration when more are due and its gain is above 0.1 |
| CoinCfr.GainsCheckNext | main.py:226-230 | one more guess in the gain loop's checks, in closed form |
| CoinCfr.AddGainsNext | main.py:226-230 | one more guess: its cumulative gain grows by gain x likelihood, and the gain joins the total |
| CoinCfr.IterationRecorded | main.py:326-334 | one iteration's bookkeeping: its gain is kept when its index is a multiple of the group, and the loop goes on exactly under the break rule |
| CoinCfr.CoinCfr.constructor | main.py:42-51 | `coins` is 0..C; the table, key list and prior start empty |
| CoinCfr.CoinCfr.GetPossibleActions | main.py:108-115 | the popping loop computes exactly the legal guesses |
| CoinCfr.CoinCfr.AppendExtensions | main.py:68-71 | the inner loop appends exactly the extensions |
| CoinCfr.CoinCfr.ExtendPass | main.py:66-71 | a pass that also visits what it appends appends exactly the children of the strings there before |
| CoinCfr.CoinCfr.ExtendOriginals | main.py:66-71 | the visits to the original strings append their children |
| CoinCfr.CoinCfr.OpponentHistoricsOf | main.py:63-71 | `historics` after its loops |
| CoinCfr.CoinCfr.CountedStep | main.py:86-92 | counting one tuple updates `sum_counter` and `comb_tot` exactly when its total is visible |
| CoinCfr.CoinCfr.CountVisible | main.py:82-92 | the counting loop counts every visible tuple under its total and in `comb_tot` |
| CoinCfr.CoinCfr.PriorRowOf | main.py:94 | computes the specified prior row |
| CoinCfr.CoinCfr.PriorOf | main.py:81-94 | succeeds exactly when every row is defined, and then stores each row; otherwise `ZeroDivisionError` |
| CoinCfr.CoinCfr.RegisterRoots | main.py:56-59 | a fresh record for each count "0".."C" |
| CoinCfr.CoinCfr.RegisterCounts | main.py:74-77 | a fresh record for each count in front of a guess string |
| CoinCfr.CoinCfr.RegisterHistorics | main.py:73-77 | every guess string behind every count is registered |
| CoinCfr.CoinCfr.InitInfoSets | main.py:53-94 | all full keys are registered fresh; `sorted_infoSets` is them sorted by length; the prior holds each defined row, else `ZeroDivisionError` |
| CoinCfr.CoinCfr.RegisterInfoSets | main.py:56-79 | the registration passes give every key a fresh record and sort the key list by length |
| CoinCfr.CoinCfr.CombFactorOf | main.py:201-208 | computes the specified opponent factor |
| CoinCfr.CoinCfr.CombProbabilityOf | main.py:199-209 | computes the specified `prob_comb` |
| CoinCfr.CoinCfr.SumProbabilityOf | main.py:198-211 | computes `prob_sum` and the new `prob_state` |
| CoinCfr.CoinCfr.TotalProbabilityOf | main.py:197-213 | one visible total's `prob_sum` and `prob_state`, or its error |
| CoinCfr.CoinCfr.CoinSumsOf | main.py:195-213 | computes the specified `probs_sum` and `prob_state` |
| CoinCfr.CoinCfr.AssignBeliefsOf | main.py:215-216 | computes the specified belief assignment |
| CoinCfr.CoinCfr.BeliefsAt | main.py:186-216 | one key's belief update is the specified one |
| CoinCfr.CoinCfr.UpdateBeliefs | main.py:184-218 | the new table is the specified belief sweep, or its first error |
| CoinCfr.CoinCfr.TerminalUtilOf | main.py:134-142 | the stub utility when every total has a belief; `KeyError` otherwise |
| CoinCfr.CoinCfr.ActionUtilsOf | main.py:127-152 | fails (with `KeyError`) exactly when a guess has no action or a total has no belief; otherwise the specified utilities |
| CoinCfr.CoinCfr.ExpectedUtilOf | main.py:154-157 | the sum of strategy x utility |
| CoinCfr.CoinCfr.RecordUtilitiesOf | main.py:121-157 | the record's update is the specified one |
| CoinCfr.CoinCfr.UpdateUtilitiesOfInfoStates | main.py:120-157 | the new table is the specified utility step, or its error |
| CoinCfr.CoinCfr.UpdateUtilitiesReversed | main.py:319-320 | the new table is the utility sweep over the reversed keys, or its first error |
| CoinCfr.CoinCfr.LikelihoodAt | main.py:174-182 | one key's likelihood update is the specified one |
| CoinCfr.CoinCfr.LikelihoodTermsOf | main.py:180-182 | the loop over earlier keys computes the specified sum |
| CoinCfr.CoinCfr.CalcInfosetLikelihoods | main.py:171-182 | the new table is the specified likelihood sweep, or its first error |
| CoinCfr.CoinCfr.AddGainsOf | main.py:225-230 | fails exactly when the checks do, with their error; otherwise the specified gains and total |
| CoinCfr.CoinCfr.GainsAt | main.py:224-230 | one key's gain update and total are the specified ones |
| CoinCfr.CoinCfr.CalcGains | main.py:220-232 | the new table and `totalGain` are the specified gain sweep, or its first error |
| CoinCfr.CoinCfr.CumulativeGainTotalOf | main.py:238-240 | `sum(gains)`, or `KeyError` exactly when a guess has no action |
| CoinCfr.CoinCfr.RenormalizedOf | main.py:242-244 | `ZeroDivisionError` exactly when there is a guess and the total is 0; otherwise the renormalised actions |
| CoinCfr.CoinCfr.StrategiesAt | main.py:236-244 | one key's strategy update is the specified one |
| CoinCfr.CoinCfr.UpdateStrat | main.py:234-244 | the new table is the specified strategy sweep, or its first error |
| CoinCfr.CoinCfr.GainPhases | main.py:317-324 | the four phases up to `calc_gains` leave exactly the table and total gain of `GainPhasesOf`, or raise its exception; on success the invariant, with the seed floor on gains, holds and the gain is non-negative |
| CoinCfr.CoinCfr.StrategyPhase | main.py:330 | `update_strat` leaves exactly the table of `StrategiesSweep`, or raises its exception, which is only ever `KeyError`; on success every key with a legal guess plays a distribution |
| CoinCfr.CoinCfr.RecordGain | main.py:326-328 | the gain is kept exactly when the iteration number is a multiple of the group size |
| CoinCfr.CoinCfr.Train | main.py:314-334 | table `j + 1` is `IterationOf` table `j`, with total gain `iterationGains[j]`, from the starting table on; an exception stops the loop on the iteration that raised it, after recording its gain when `update_strat` raised; the loop stops only after `numIterations` iterations or a gain of at most 0.1, and went on after every earlier one; kept gains are every group-size-th; strategies end as distributions |
| CoinCfr.RunMain | main.py:302-334 | `main` with the script's constants starts from the registered table and runs the chain of iterations `Train` describes; it keeps at most a million gains, and ends with the keys sorted by length and strategies that are distributions |

## Left out

- Input and output: argument parsing, `print`, `json` load and save,
  matplotlib plotting, `tabulate` and `printInfoSetDataTable`. The saved
  strategy is modelled only as the value `save_strategy` writes
  (`PlayKuhnPoker.SavedStrategy`).
- Randomness: the class `Player`, the shuffled deal and the coin toss in
  `play_round`. `random.choices` in `get_computer_action` appears only as
  its draw, a parameter.
- Interactive play: `get_human_action`, `play_round`, the play script's
  `main`, and the coin-game play script (`play_coin_game.py` is not part of
  this model).
- IEEE floating point: probabilities are exact reals, so rounding and
  underflow are not modelled.
- `setInitialStrategiesToSpecificValues`: nothing calls it.
- The `lru_cache` on `get_coin_combinations`: it changes only speed.
- `CoinCfr.CoinCfr.constructor`: `self.coins` is set but never read.
- The state after an exception: a failing phase reports its first error.
  The table it leaves behind is not described, because the training loop
  stops there.
- Python's iteration order for the set of Kuhn histories depends on string
  hashing. It is a parameter (`setIterationOrder`), and the properties are
  proved for every order.
- KuhnSolver.KuhnCfr.UpdateBeliefs, UpdateUtilities, CalcInfoSetLikelihoods,
  CalcGains and UpdateStrategies require the table invariant and the
  results of the earlier phases. The source would raise `KeyError` or
  `TypeError` when called out of order. Those error paths are not
  modelled. Instead, `KuhnSolver.KuhnCfr.RunIteration` and `Train` prove
  that the phase order keeps the requirements true.
- CoinCfr.CoinCfr.Train: the iteration count is a parameter. `RunMain`
  passes the script's 10 000 000 000.
- CoinGame.CalcUtilTerminalNode and CoinGame.GetNextInfoStatesHist: the
  solver never calls them, because their call sites in the utility update
  are commented out. They are modelled as functions only.
