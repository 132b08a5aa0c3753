/** The coin-game solver's state and its phases (main.py 41-244 and the
    training loop of `main` at 302-334): the table of information-set
    records, the list of keys ordered by length, and the prior over the
    coin total for each count of own coins. Each phase is a method that
    works as the source does, loop by loop, and is proved to compute
    exactly what the corresponding function of `CoinSpec` describes,
    exception included. */
module CoinCfr {
  import opened Outcomes
  import opened PyStr
  import opened RegretMatching
  import opened CoinGame
  import opened CoinSpec
  import opened Training

  const NUM_ITERATIONS: nat := 10_000_000_000
  const NUM_GAINS_TO_PLOT: nat := 1_000_000

  /** With the script's constants every ten-thousandth iteration's total
      gain is kept, a million of them when all iterations run. */
  lemma ScriptGainGroupSize()
    ensures GainGroupSize(NUM_ITERATIONS, NUM_GAINS_TO_PLOT) == 10_000
    ensures (NUM_ITERATIONS + 10_000 - 1) / 10_000 == NUM_GAINS_TO_PLOT
  {
  }

  // ---------------------------------------------------------------------
  // Helpers for the loops

  /** One more number at the end of a range of decimal strings. */
  lemma StrRangeSnoc(lo: nat, hi: nat)
    requires lo <= hi
    ensures StrRange(lo, hi + 1) == StrRange(lo, hi) + [Str(hi)]
  {
  }

  /** `str` of a list with one more number in front. */
  lemma StrsCons(v: nat, vs: seq<nat>)
    ensures Strs([v] + vs) == [Str(v)] + Strs(vs)
  {
  }

  /** One step of the popping loop of `get_possible_actions` when str(j) is
      guessed: popping the label at position `j` leaves the labels below `j`
      followed by the unguessed ones from `j`. */
  lemma PopGuessed(guesses: string, j: nat, n: nat, actions: seq<string>)
    requires j < n && Contains(guesses, Str(j))
    requires actions == StrRange(0, j + 1) + Strs(UnusedValues(guesses, j + 1, n))
    ensures |actions| > j && actions[..j] + actions[j + 1..] == StrRange(0, j) + Strs(UnusedValues(guesses, j, n))
  {
    var head := StrRange(0, j);
    var tail := Strs(UnusedValues(guesses, j + 1, n));
    StrRangeSnoc(0, j);
    assert actions == head + [Str(j)] + tail;
    assert actions[..j] == head;
    assert actions[j + 1..] == tail;
    assert UnusedValues(guesses, j, n) == UnusedValues(guesses, j + 1, n);
  }

  /** The same step when str(j) is not guessed: the label stays. */
  lemma KeepUnguessed(guesses: string, j: nat, n: nat, actions: seq<string>)
    requires j < n && !Contains(guesses, Str(j))
    requires actions == StrRange(0, j + 1) + Strs(UnusedValues(guesses, j + 1, n))
    ensures actions == StrRange(0, j) + Strs(UnusedValues(guesses, j, n))
  {
    var tail := UnusedValues(guesses, j + 1, n);
    StrRangeSnoc(0, j);
    StrsCons(j, tail);
    SnocThenCons(StrRange(0, j), Str(j), Strs(tail));
    assert UnusedValues(guesses, j, n) == [j] + tail;
  }

  /** The pass for length `j` visiting one more string of `hs`. */
  lemma ChildrenNext(hs: seq<string>, idx: nat, j: nat, n: nat)
    requires idx < |hs|
    ensures Children(hs[..idx + 1], j, n) == Children(hs[..idx], j, n) + (if |hs[idx]| == j then Extensions(hs[idx], n) else [])
  {
    PrefixStep(hs, idx);
  }

  /** The `k`-th entry of the product is one of its tuples: `k` entries of
      at most `C`, whose total is at most `k * C`. */
  lemma ProductEntryBound(n: nat, c: nat, ts: seq<seq<nat>>, j: nat)
    requires ts == Product(n, c) && j < |ts|
    ensures Sum(ts[j]) <= n * c
  {
    ProductMembers(n, c, ts[j]);
    SumBound(ts[j], c);
  }

  /** `get_coin_combinations(num_players, coin_sum, num_coins)`: the tuples
      of `product(range(num_coins + 1), repeat=num_players)` whose sum is
      `coin_sum`, in the order `product` gives them; `product` refuses a
      negative repeat count with a `ValueError`. */
  method GetCoinCombinationsOf(numPlayers: int, coinSum: int, numCoins: nat) returns (r: Result<seq<seq<nat>>>)
    ensures r.Failure? <==> numPlayers < 0
    ensures r.Failure? ==> r.error == ValueError
    ensures r.Success? ==> r.value == GetCoinCombinations(numPlayers, coinSum, numCoins)
  {
    if numPlayers < 0 {
      return Failure(ValueError);
    }
    var allCombinations := Product(numPlayers, numCoins);
    var validCombinations: seq<seq<nat>> := [];
    for i := 0 to |allCombinations|
      invariant validCombinations == WithSum(allCombinations[..i], coinSum)
    {
      var comb := allCombinations[i];
      PrefixStep(allCombinations, i);
      if Sum(comb) == coinSum {
        validCombinations := validCombinations + [comb];
      }
    }
    WholePrefix(allCombinations, |allCombinations|);
    return Success(validCombinations);
  }

  /** The keys `keys` have been registered in `m` on top of `m0`: each with
      a fresh record, every other key untouched. */
  ghost predicate Registered(m0: Table, m: Table, keys: seq<string>, numberCoins: nat, numberPlayers: nat) {
    (forall k :: k in m <==> k in m0 || k in keys) &&
    (forall k :: k in keys ==> m[k] == NewCoinInfoSet(k, numberCoins, numberPlayers)) &&
    (forall k :: k in m0 && k !in keys ==> m[k] == m0[k])
  }

  /** Registering one more key. */
  lemma RegisterStep(m0: Table, m: Table, keys: seq<string>, k: string, numberCoins: nat, numberPlayers: nat)
    requires Registered(m0, m, keys, numberCoins, numberPlayers)
    ensures Registered(m0, m[k := NewCoinInfoSet(k, numberCoins, numberPlayers)], keys + [k], numberCoins, numberPlayers)
  {
  }

  /** A fresh record keeps the invariant: uniform strategies, no beliefs, no likelihood. */
  lemma NewCoinInfoSetHealthy(historic: string, numberCoins: nat, numberPlayers: nat)
    ensures HealthyRecord(NewCoinInfoSet(historic, numberCoins, numberPlayers))
  {
  }

  /** Registering fresh records keeps the invariant. */
  lemma RegisteredHealthy(m0: Table, m: Table, keys: seq<string>, numberCoins: nat, numberPlayers: nat)
    requires Registered(m0, m, keys, numberCoins, numberPlayers) && Healthy(m0)
    ensures Healthy(m)
  {
    forall k | k in m ensures HealthyRecord(m[k]) {
      if k in keys {
        NewCoinInfoSetHealthy(k, numberCoins, numberPlayers);
      }
    }
  }

  /** Registering fresh records keeps every cumulative gain at least the seed. */
  lemma RegisteredSeeded(m0: Table, m: Table, keys: seq<string>, numberCoins: nat, numberPlayers: nat)
    requires Registered(m0, m, keys, numberCoins, numberPlayers)
    requires GainsAtLeast(m0, SeedGain(numberPlayers, numberCoins))
    ensures GainsAtLeast(m, SeedGain(numberPlayers, numberCoins))
  {
    forall k, a | k in m && a in m[k].actions ensures m[k].actions[a].cumulativeGain >= SeedGain(numberPlayers, numberCoins) {
      if k !in keys {
        assert m[k] == m0[k];
      }
    }
  }

  // ---------------------------------------------------------------------
  // Once a fold has raised, it stays raised: the source stops at the first
  // exception, and so do the loops below.

  lemma {:induction false} CombProbabilityStuck(m: Table, numberPlayers: nat, numberCoins: nat, historic: string, comb: seq<nat>, i: nat, k: nat)
    requires i <= k <= |comb| && CombProbability(m, numberPlayers, numberCoins, historic, comb, i).Failure?
    ensures CombProbability(m, numberPlayers, numberCoins, historic, comb, k) == CombProbability(m, numberPlayers, numberCoins, historic, comb, i)
  {
    if k > i {
      CombProbabilityStuck(m, numberPlayers, numberCoins, historic, comb, i, k - 1);
    }
  }

  /** One more opponent's factor. */
  lemma CombProbabilityNext(m: Table, numberPlayers: nat, numberCoins: nat, historic: string, comb: seq<nat>, i: nat)
    requires i < |comb| && CombProbability(m, numberPlayers, numberCoins, historic, comb, i).Success?
    ensures var f := CombFactor(m, numberPlayers, numberCoins, historic, comb, i);
            CombProbability(m, numberPlayers, numberCoins, historic, comb, i + 1) ==
              if f.Failure? then Failure(f.error)
              else Success(Scaled(CombProbability(m, numberPlayers, numberCoins, historic, comb, i).value, f.value))
  {
  }

  lemma {:induction false} SumProbabilityStuck(m: Table, numberPlayers: nat, numberCoins: nat, historic: string, combs: seq<seq<nat>>, i: nat, k: nat)
    requires i <= k <= |combs| && SumProbability(m, numberPlayers, numberCoins, historic, combs, i).Failure?
    ensures SumProbability(m, numberPlayers, numberCoins, historic, combs, k) == SumProbability(m, numberPlayers, numberCoins, historic, combs, i)
  {
    if k > i {
      SumProbabilityStuck(m, numberPlayers, numberCoins, historic, combs, i, k - 1);
    }
  }

  lemma {:induction false} CoinSumsStuck(m: Table, numberPlayers: nat, numberCoins: nat, historic: string, coin: nat, sums: seq<nat>, i: nat, k: nat)
    requires i <= k <= |sums| && CoinSums(m, numberPlayers, numberCoins, historic, coin, sums, i).Failure?
    ensures CoinSums(m, numberPlayers, numberCoins, historic, coin, sums, k) == CoinSums(m, numberPlayers, numberCoins, historic, coin, sums, i)
  {
    if k > i {
      CoinSumsStuck(m, numberPlayers, numberCoins, historic, coin, sums, i, k - 1);
    }
  }

  lemma {:induction false} AssignBeliefsStuck(beliefs: map<string, real>, keys: seq<nat>, probs: map<string, real>, prior: Prior, coin: nat, probState: real, i: nat, k: nat)
    requires i <= k <= |keys| && forall j :: 0 <= j < |keys| ==> Str(keys[j]) in probs
    requires AssignBeliefs(beliefs, keys, probs, prior, coin, probState, i).Failure?
    ensures AssignBeliefs(beliefs, keys, probs, prior, coin, probState, k) == AssignBeliefs(beliefs, keys, probs, prior, coin, probState, i)
  {
    if k > i {
      AssignBeliefsStuck(beliefs, keys, probs, prior, coin, probState, i, k - 1);
    }
  }

  /** One more belief assigned. */
  lemma AssignBeliefsNext(beliefs: map<string, real>, keys: seq<nat>, probs: map<string, real>, prior: Prior, coin: nat, probState: real, t: nat)
    requires t < |keys| && forall j :: 0 <= j < |keys| ==> Str(keys[j]) in probs
    requires AssignBeliefs(beliefs, keys, probs, prior, coin, probState, t).Success?
    ensures var b := AssignBeliefs(beliefs, keys, probs, prior, coin, probState, t).value;
            var v := keys[t];
            AssignBeliefs(beliefs, keys, probs, prior, coin, probState, t + 1) ==
              if Str(coin) !in prior then Failure(KeyError)
              else if v >= |prior[Str(coin)]| then Failure(IndexError)
              else if probState == 0.0 then Failure(ZeroDivisionError)
              else Success(b[Str(v) := Posterior(probs[Str(v)], prior[Str(coin)][v], probState)])
  {
  }

  /** A failing prefix of the belief sweep fails the next one alike. */
  lemma BeliefsSweepFailNext(m: Table, prior: Prior, numberPlayers: nat, numberCoins: nat, keys: seq<string>, j: nat)
    requires j < |keys| && BeliefsSweep(m, prior, numberPlayers, numberCoins, keys[..j]).Failure?
    ensures BeliefsSweep(m, prior, numberPlayers, numberCoins, keys[..j + 1]) == BeliefsSweep(m, prior, numberPlayers, numberCoins, keys[..j])
  {
    PrefixStep(keys, j);
  }

  lemma {:induction false} BeliefsSweepStuck(m: Table, prior: Prior, numberPlayers: nat, numberCoins: nat, keys: seq<string>, i: nat, k: nat)
    requires i <= k <= |keys| && BeliefsSweep(m, prior, numberPlayers, numberCoins, keys[..i]).Failure?
    ensures BeliefsSweep(m, prior, numberPlayers, numberCoins, keys[..k]) == BeliefsSweep(m, prior, numberPlayers, numberCoins, keys[..i])
    decreases k - i
  {
    if i < k {
      BeliefsSweepFailNext(m, prior, numberPlayers, numberCoins, keys, i);
      BeliefsSweepStuck(m, prior, numberPlayers, numberCoins, keys, i + 1, k);
    }
  }

  /** A failing prefix of the utility sweep fails the next one alike. */
  lemma UtilitiesSweepFailNext(m: Table, numberPlayers: nat, numberCoins: nat, keys: seq<string>, j: nat)
    requires j < |keys| && UtilitiesSweep(m, numberPlayers, numberCoins, keys[..j]).Failure?
    ensures UtilitiesSweep(m, numberPlayers, numberCoins, keys[..j + 1]) == UtilitiesSweep(m, numberPlayers, numberCoins, keys[..j])
  {
    PrefixStep(keys, j);
  }

  /** A failing prefix of the utility sweep fails the longer ones alike. */
  lemma {:induction false} UtilitiesSweepStuck(m: Table, numberPlayers: nat, numberCoins: nat, keys: seq<string>, i: nat, k: nat)
    requires i <= k <= |keys| && UtilitiesSweep(m, numberPlayers, numberCoins, keys[..i]).Failure?
    ensures UtilitiesSweep(m, numberPlayers, numberCoins, keys[..k]) == UtilitiesSweep(m, numberPlayers, numberCoins, keys[..i])
    decreases k - i
  {
    if i < k {
      UtilitiesSweepFailNext(m, numberPlayers, numberCoins, keys, i);
      UtilitiesSweepStuck(m, numberPlayers, numberCoins, keys, i + 1, k);
    }
  }

  /** One more key in the utility sweep. */
  lemma UtilitiesSweepNext(m: Table, numberPlayers: nat, numberCoins: nat, keys: seq<string>, j: nat)
    requires j < |keys|
    ensures var prev := UtilitiesSweep(m, numberPlayers, numberCoins, keys[..j]);
            UtilitiesSweep(m, numberPlayers, numberCoins, keys[..j + 1]) ==
              if prev.Failure? then prev else UtilitiesStep(prev.value, numberPlayers, numberCoins, keys[j])
  {
    PrefixStep(keys, j);
  }

  /** A failing term of a likelihood sum fails the whole sum alike. */
  lemma {:induction false} LikelihoodTermsStuck(m: Table, historic: string, prevs: seq<string>, i: nat, k: nat)
    requires historic in m && m[historic].likelihood.Some? && i <= k <= |prevs|
    requires forall j :: 0 <= j < |prevs| ==> |prevs[j]| >= 1
    requires LikelihoodTerms(m, historic, prevs, i).Failure?
    ensures LikelihoodTerms(m, historic, prevs, k) == LikelihoodTerms(m, historic, prevs, i)
  {
    if k > i {
      LikelihoodTermsStuck(m, historic, prevs, i, k - 1);
    }
  }

  /** One more earlier key in a likelihood sum, in closed form. */
  lemma LikelihoodTermsNext(m: Table, historic: string, prevs: seq<string>, k: nat, m': Table)
    requires historic in m && m[historic].likelihood.Some? && k < |prevs|
    requires forall j :: 0 <= j < |prevs| ==> |prevs[j]| >= 1
    requires LikelihoodTerms(m, historic, prevs, k) == Success(m')
    ensures historic in m' && m'[historic].likelihood.Some? && |prevs[k]| >= 1
    ensures var p := prevs[k];
            LikelihoodTerms(m, historic, prevs, k + 1) ==
              if p !in m' || p[|p| - 1..] !in m'[p].actions then Failure(KeyError)
              else if m'[p].likelihood.None? then Failure(TypeError)
              else Success(m'[historic := m'[historic].(likelihood := Some(m'[historic].likelihood.value + Contribution(m'[p], p)))])
  {
  }

  /** A failing prefix of the likelihood sweep fails the next one alike. */
  lemma LikelihoodsSweepFailNext(m: Table, numberCoins: nat, keys: seq<string>, j: nat)
    requires j < |keys| && LikelihoodsSweep(m, numberCoins, keys[..j]).Failure?
    ensures LikelihoodsSweep(m, numberCoins, keys[..j + 1]) == LikelihoodsSweep(m, numberCoins, keys[..j])
  {
    PrefixStep(keys, j);
  }

  /** A failing prefix of the likelihood sweep fails the longer ones alike. */
  lemma {:induction false} LikelihoodsSweepStuck(m: Table, numberCoins: nat, keys: seq<string>, i: nat, k: nat)
    requires i <= k <= |keys| && LikelihoodsSweep(m, numberCoins, keys[..i]).Failure?
    ensures LikelihoodsSweep(m, numberCoins, keys[..k]) == LikelihoodsSweep(m, numberCoins, keys[..i])
    decreases k - i
  {
    if i < k {
      LikelihoodsSweepFailNext(m, numberCoins, keys, i);
      LikelihoodsSweepStuck(m, numberCoins, keys, i + 1, k);
    }
  }

  /** One more key in the likelihood sweep. */
  lemma LikelihoodsSweepNext(m: Table, numberCoins: nat, keys: seq<string>, j: nat)
    requires j < |keys|
    ensures var prev := LikelihoodsSweep(m, numberCoins, keys[..j]);
            LikelihoodsSweep(m, numberCoins, keys[..j + 1]) ==
              if prev.Failure? then prev else LikelihoodStep(prev.value, numberCoins, keys[j])
  {
    PrefixStep(keys, j);
  }

  /** A failing prefix of the gain loop's checks fails the longer ones alike. */
  lemma {:induction false} GainsCheckStuck(acts: ActionTable, labels: seq<string>, expectedUtil: Option<real>, likelihood: Option<real>, i: nat, k: nat)
    requires i <= k <= |labels| && GainsCheck(acts, labels[..i], expectedUtil, likelihood).Fail?
    ensures GainsCheck(acts, labels[..k], expectedUtil, likelihood) == GainsCheck(acts, labels[..i], expectedUtil, likelihood)
  {
    if k > i {
      GainsCheckStuck(acts, labels, expectedUtil, likelihood, i, k - 1);
      assert labels[..k][..k - 1] == labels[..k - 1];
    }
  }

  /** One more key in the gain sweep, from the table `prev` and total
      `total` of the keys before it. */
  lemma GainsSweepNext(m: Table, numberPlayers: nat, numberCoins: nat, keys: seq<string>, j: nat, prev: Table, total: real)
    requires j < |keys| && GainsSweep(m, numberPlayers, numberCoins, keys[..j]) == Success((prev, total))
    ensures GainsStep(prev, numberPlayers, numberCoins, keys[j]).Failure? ==>
              GainsSweep(m, numberPlayers, numberCoins, keys[..j + 1]) == Failure(GainsStep(prev, numberPlayers, numberCoins, keys[j]).error)
    ensures GainsStep(prev, numberPlayers, numberCoins, keys[j]).Success? ==>
              GainsSweep(m, numberPlayers, numberCoins, keys[..j + 1]).Success? &&
              GainsSweep(m, numberPlayers, numberCoins, keys[..j + 1]).value.0 == GainsStep(prev, numberPlayers, numberCoins, keys[j]).value.0 &&
              GainsSweep(m, numberPlayers, numberCoins, keys[..j + 1]).value.1 == total + GainsStep(prev, numberPlayers, numberCoins, keys[j]).value.1
  {
    var ks := keys[..j + 1];
    assert ks[..|ks| - 1] == keys[..j] && ks[|ks| - 1] == keys[j];
  }

  /** A failing prefix of the gain sweep fails the next one alike. */
  lemma GainsSweepFailNext(m: Table, numberPlayers: nat, numberCoins: nat, keys: seq<string>, j: nat)
    requires j < |keys| && GainsSweep(m, numberPlayers, numberCoins, keys[..j]).Failure?
    ensures GainsSweep(m, numberPlayers, numberCoins, keys[..j + 1]) == GainsSweep(m, numberPlayers, numberCoins, keys[..j])
  {
    PrefixStep(keys, j);
  }

  /** A failing prefix of the gain sweep fails the longer ones alike. */
  lemma {:induction false} GainsSweepStuck(m: Table, numberPlayers: nat, numberCoins: nat, keys: seq<string>, i: nat, k: nat)
    requires i <= k <= |keys| && GainsSweep(m, numberPlayers, numberCoins, keys[..i]).Failure?
    ensures GainsSweep(m, numberPlayers, numberCoins, keys[..k]) == GainsSweep(m, numberPlayers, numberCoins, keys[..i])
    decreases k - i
  {
    if i < k {
      GainsSweepFailNext(m, numberPlayers, numberCoins, keys, i);
      GainsSweepStuck(m, numberPlayers, numberCoins, keys, i + 1, k);
    }
  }

  /** One more key in the strategy sweep. */
  lemma StrategiesSweepNext(m: Table, numberPlayers: nat, numberCoins: nat, keys: seq<string>, j: nat)
    requires j < |keys|
    ensures var prev := StrategiesSweep(m, numberPlayers, numberCoins, keys[..j]);
            StrategiesSweep(m, numberPlayers, numberCoins, keys[..j + 1]) ==
              if prev.Failure? then prev else StrategiesStep(prev.value, numberPlayers, numberCoins, keys[j])
  {
    PrefixStep(keys, j);
  }

  /** A failing prefix of the strategy sweep fails the next one alike. */
  lemma StrategiesSweepFailNext(m: Table, numberPlayers: nat, numberCoins: nat, keys: seq<string>, j: nat)
    requires j < |keys| && StrategiesSweep(m, numberPlayers, numberCoins, keys[..j]).Failure?
    ensures StrategiesSweep(m, numberPlayers, numberCoins, keys[..j + 1]) == StrategiesSweep(m, numberPlayers, numberCoins, keys[..j])
  {
    PrefixStep(keys, j);
  }

  /** A failing prefix of the strategy sweep fails the longer ones alike. */
  lemma {:induction false} StrategiesSweepStuck(m: Table, numberPlayers: nat, numberCoins: nat, keys: seq<string>, i: nat, k: nat)
    requires i <= k <= |keys| && StrategiesSweep(m, numberPlayers, numberCoins, keys[..i]).Failure?
    ensures StrategiesSweep(m, numberPlayers, numberCoins, keys[..k]) == StrategiesSweep(m, numberPlayers, numberCoins, keys[..i])
    decreases k - i
  {
    if i < k {
      StrategiesSweepFailNext(m, numberPlayers, numberCoins, keys, i);
      StrategiesSweepStuck(m, numberPlayers, numberCoins, keys, i + 1, k);
    }
  }

  /** One more total in the stub utility's sum. */
  lemma TerminalUtilNext(beliefs: map<string, real>, probAction: real, action: string, numberPlayers: nat, sums: seq<string>, i: nat)
    requires i < |sums| && BeliefsCover(beliefs, sums[..i]) && sums[i] in beliefs
    ensures BeliefsCover(beliefs, sums[..i + 1])
    ensures TerminalUtil(beliefs, probAction, action, numberPlayers, sums[..i + 1]) ==
              TerminalUtil(beliefs, probAction, action, numberPlayers, sums[..i]) +
                TerminalTerm(beliefs[sums[i]], probAction, GuessPayoff(action, sums[i], numberPlayers))
  {
    PrefixStep(sums, i);
  }

  /** The loop went on after each of its first `n` iterations: more
      iterations were due after them, and each recorded gain among them was
      above 0.1. */
  ghost predicate Continued(gains: seq<real>, n: int, numIterations: nat) {
    (n <= 0 || n < numIterations) && forall j :: 0 <= j < n && j < |gains| ==> gains[j] > 0.1
  }

  /** Another recorded gain does not change the earlier ones. */
  lemma ContinuedAppend(gains: seq<real>, n: int, numIterations: nat, totGain: real)
    requires Continued(gains, n, numIterations) && n <= |gains|
    ensures Continued(gains + [totGain], n, numIterations)
  {
    var longer := gains + [totGain];
    forall j | 0 <= j < n && j < |longer| ensures longer[j] > 0.1 {
      assert longer[j] == gains[j];
    }
  }

  /** An iteration the loop goes on after joins those it went on after. */
  lemma ContinuedStep(gains: seq<real>, i: nat, numIterations: nat)
    requires Continued(gains, i, numIterations) && i < |gains|
    requires i + 1 < numIterations && gains[i] > 0.1
    ensures Continued(gains, i + 1, numIterations)
  {
  }

  /** One more guess checked by the gain loop, in closed form. */
  lemma GainsCheckNext(acts: ActionTable, labels: seq<string>, expectedUtil: Option<real>, likelihood: Option<real>, j: nat)
    requires j < |labels| && GainsCheck(acts, labels[..j], expectedUtil, likelihood).Pass?
    ensures GainsCheck(acts, labels[..j + 1], expectedUtil, likelihood) ==
              if labels[j] !in acts then Fail(KeyError)
              else if acts[labels[j]].util.None? || expectedUtil.None? || likelihood.None? then Fail(TypeError)
              else Pass
  {
    PrefixStep(labels, j);
  }

  /** One more guess in the gain loop: its cumulative gain grows by its gain
      times the likelihood, and the gain joins the running total. */
  lemma AddGainsNext(acts: ActionTable, labels: seq<string>, expectedUtil: real, likelihood: real, j: nat)
    requires j < |labels| && HasUtils(acts, labels[..j + 1])
    ensures HasUtils(acts, labels[..j]) && labels[j] in acts && acts[labels[j]].util.Some?
    ensures j == 0 ==> AddGains(acts, labels[..j], expectedUtil, likelihood).0 == acts &&
                       AddGains(acts, labels[..j], expectedUtil, likelihood).1 == 0.0
    ensures var prev := AddGains(acts, labels[..j], expectedUtil, likelihood);
            var next := AddGains(acts, labels[..j + 1], expectedUtil, likelihood);
            var a := labels[j];
            var gain := Gain(acts[a].util.value, expectedUtil);
            next.0 == prev.0[a := prev.0[a].(cumulativeGain := prev.0[a].cumulativeGain + Scaled(gain, likelihood))] &&
            next.1 == prev.1 + gain
  {
    PrefixStep(labels, j);
    assert labels[j] in labels[..j + 1];
    assert forall x :: x in labels[..j] ==> x in labels[..j + 1];
  }

  /** The bookkeeping of one iteration of the main loop: recording its total
      gain `totGain` keeps every recorded and every continued iteration, and
      the loop goes on after it when more iterations are due and `totGain`
      is above 0.1. */
  lemma IterationRecorded(totGains: seq<real>, iterationGains: seq<real>, g: nat, numIterations: nat, totGain: real)
    requires Recorded(totGains, iterationGains, g) && NonNegative(iterationGains) && totGain >= 0.0
    requires Continued(iterationGains, |iterationGains|, numIterations)
    ensures var n := |iterationGains|;
            var longer := iterationGains + [totGain];
            Recorded(if n % g == 0 then totGains + [totGain] else totGains, longer, g) && NonNegative(longer) &&
            Continued(longer, n, numIterations) &&
            (n + 1 < numIterations && totGain > 0.1 ==> Continued(longer, n + 1, numIterations))
  {
    var n := |iterationGains|;
    RecordedStep(totGains, iterationGains, g, totGain);
    ContinuedAppend(iterationGains, n, numIterations, totGain);
    if n + 1 < numIterations && totGain > 0.1 {
      ContinuedStep(iterationGains + [totGain], n, numIterations);
    }
  }

  class CoinCfr {
    const numberCoins: nat
    const numberPlayers: nat
    /** `self.coins`, the possible counts of own coins; nothing reads it. */
    const coins: seq<nat>
    var infoSets: Table
    var sortedInfoSets: seq<string>
    var coinSumPrior: Prior

    /** The invariant every phase keeps: no negative strategy, belief,
        likelihood or prior entry, and no cumulative gain below the seed
        `1 / (P**C + 1)` every action starts with. */
    ghost predicate Valid()
      reads this
    {
      Healthy(infoSets) && PriorNonNegative(coinSumPrior) && GainsAtLeast(infoSets, SeedGain(numberPlayers, numberCoins))
    }

    /** `CFR(number_coins, number_players)`: nothing registered yet. */
    constructor (numberCoins: nat, numberPlayers: nat)
      ensures this.numberCoins == numberCoins && this.numberPlayers == numberPlayers
      ensures coins == NatRange(0, numberCoins + 1)
      ensures infoSets == map[] && sortedInfoSets == [] && coinSumPrior == map[]
      ensures Valid()
    {
      this.numberCoins := numberCoins;
      this.numberPlayers := numberPlayers;
      coins := NatRange(0, numberCoins + 1);
      infoSets := map[];
      sortedInfoSets := [];
      coinSumPrior := map[];
    }

    // -------------------------------------------------------------------
    // get_possible_actions

    /** `get_possible_actions(historic)`: the labels "0" to str(P * C), then,
        from the last position down to the first, the label at position `j`
        popped whenever str(j) occurs among the guesses. */
    method GetPossibleActions(historic: string) returns (actions: seq<string>)
      ensures actions == PossibleActions(numberPlayers, numberCoins, historic)
    {
      var n := numberPlayers * numberCoins + 1;
      var guesses := Guesses(historic);
      actions := StrRange(0, n);
      var j := n;
      while j > 0
        invariant 0 <= j <= n
        invariant actions == StrRange(0, j) + Strs(UnusedValues(guesses, j, n))
      {
        j := j - 1;
        if Contains(guesses, Str(j)) {
          PopGuessed(guesses, j, n, actions);
          actions := actions[..j] + actions[j + 1..];
        } else {
          KeepUnguessed(guesses, j, n, actions);
        }
      }
    }

    // -------------------------------------------------------------------
    // init_info_sets

    /** The inner loop of a pass: `hist + str(k)` appended for each `k` below
        `n` whose text does not occur in `hist`. */
    static method AppendExtensions(historics: seq<string>, hist: string, n: nat) returns (r: seq<string>)
      ensures r == historics + Extensions(hist, n)
    {
      r := historics;
      for k := 0 to n
        invariant r == historics + Extensions(hist, k)
      {
        if !Contains(hist, Str(k)) {
          r := r + [hist + Str(k)];
        }
      }
    }

    /** One pass `j` of `for hist in historics`, which also visits the
        strings it appends: every string of length `j` gets its extensions
        appended. The strings there before the pass are visited first; the
        appended ones are longer than `j` and so append nothing themselves. */
    static method ExtendPass(historics: seq<string>, j: nat, n: nat) returns (r: seq<string>)
      ensures r == historics + Children(historics, j, n)
    {
      r := ExtendOriginals(historics, j, n);
      var idx := |historics|;
      while idx < |r|
        invariant |historics| <= idx <= |r|
      {
        var hist := r[idx];
        assert |hist| > j;
        idx := idx + 1;
      }
    }

    /** The visits of a pass `j` to the strings there before it. */
    static method ExtendOriginals(historics: seq<string>, j: nat, n: nat) returns (r: seq<string>)
      ensures r == historics + Children(historics, j, n)
    {
      r := historics;
      for idx := 0 to |historics|
        invariant r == historics + Children(historics[..idx], j, n)
      {
        var hist := r[idx];
        ChildrenNext(historics, idx, j, n);
        assert hist == historics[idx];
        if |hist| == j {
          r := AppendExtensions(r, hist, n);
        }
      }
      WholePrefix(historics, |historics|);
    }

    /** `historics` after its loops: the decimal strings of 0 to `P * C`, then
        passes `j = 1 .. P - 2`, each extending the strings of length `j`. */
    method OpponentHistoricsOf() returns (historics: seq<string>)
      ensures historics == OpponentHistorics(numberPlayers, numberCoins)
    {
      var n := numberPlayers * numberCoins + 1;
      historics := StrRange(0, n);
      var j := 1;
      while j < numberPlayers - 1
        invariant 1 <= j
        invariant GrowFrom(historics, j, numberPlayers - 1, n) == OpponentHistorics(numberPlayers, numberCoins)
        decreases numberPlayers - 1 - j
      {
        historics := ExtendPass(historics, j, n);
        j := j + 1;
      }
    }

    /** The tuples of `ts` counted, by total, for a holder of `coin` coins:
        `sum_counter[str(v)]` for every total `v` below `n`. */
    static ghost predicate Counted(counter: map<string, nat>, ts: seq<seq<nat>>, numberPlayers: nat, numberCoins: nat, coin: nat, n: nat) {
      forall v :: 0 <= v < n ==> Str(v) in counter && counter[Str(v)] == SumCount(ts, numberPlayers, numberCoins, coin, v)
    }

    /** Counting one more tuple: its total's entry goes up by one when the
        total is visible, and so does `comb_tot`. */
    static lemma CountedStep(counter: map<string, nat>, ts: seq<seq<nat>>, j: nat, numberPlayers: nat, numberCoins: nat, coin: nat, n: nat)
      requires j < |ts| && Sum(ts[j]) < n
      requires Counted(counter, ts[..j], numberPlayers, numberCoins, coin, n)
      ensures var s := Sum(ts[j]);
              Visible(numberPlayers, numberCoins, coin, s) ==>
                Counted(counter[Str(s) := counter[Str(s)] + 1], ts[..j + 1], numberPlayers, numberCoins, coin, n)
      ensures !Visible(numberPlayers, numberCoins, coin, Sum(ts[j])) ==>
                Counted(counter, ts[..j + 1], numberPlayers, numberCoins, coin, n)
      ensures CombTotal(ts[..j + 1], numberPlayers, numberCoins, coin) ==
                CombTotal(ts[..j], numberPlayers, numberCoins, coin) + (if Visible(numberPlayers, numberCoins, coin, Sum(ts[j])) then 1 else 0)
    {
      PrefixStep(ts, j);
      var s := Sum(ts[j]);
      forall v | 0 <= v < n && v != s ensures Str(v) != Str(s) {
        StrInjective(v, s);
      }
    }

    /** The counting loop of `coin_sum_prior[str(coin)]`: every tuple of
        `product` whose total the holder of `coin` coins can see is counted
        under its total and in `comb_tot`. */
    static method CountVisible(numberPlayers: nat, numberCoins: nat, coin: nat) returns (sumCounter: map<string, nat>, combTot: nat)
      ensures Counted(sumCounter, Product(numberPlayers, numberCoins), numberPlayers, numberCoins, coin, numberPlayers * numberCoins + 1)
      ensures combTot == CombTotal(Product(numberPlayers, numberCoins), numberPlayers, numberCoins, coin)
    {
      var n := numberPlayers * numberCoins + 1;
      var allCombinations := Product(numberPlayers, numberCoins);
      var sums := StrRange(0, n);
      sumCounter := map s | s in sums :: 0;
      assert forall v :: 0 <= v < n ==> sums[v] == Str(v) && sums[v] in sums;
      var possibleSum := GetPossibleCoinsSum(numberPlayers, numberCoins, coin);
      combTot := 0;
      for j := 0 to |allCombinations|
        invariant Counted(sumCounter, allCombinations[..j], numberPlayers, numberCoins, coin, n)
        invariant combTot == CombTotal(allCombinations[..j], numberPlayers, numberCoins, coin)
      {
        var comb := allCombinations[j];
        var combSum := Sum(comb);
        ProductEntryBound(numberPlayers, numberCoins, allCombinations, j);
        CountedStep(sumCounter, allCombinations, j, numberPlayers, numberCoins, coin, n);
        VisibleIsPossible(numberPlayers, numberCoins, coin, combSum);
        if Str(combSum) !in possibleSum {
          continue;
        }
        sumCounter := sumCounter[Str(combSum) := sumCounter[Str(combSum)] + 1];
        combTot := combTot + 1;
      }
      WholePrefix(allCombinations, |allCombinations|);
    }

    /** `coin_sum_prior[str(coin)]`: each count divided by `comb_tot`. */
    static method PriorRowOf(numberPlayers: nat, numberCoins: nat, coin: nat) returns (r: Result<seq<real>>)
      ensures r == PriorRow(numberPlayers, numberCoins, coin)
    {
      var n := numberPlayers * numberCoins + 1;
      var sumCounter, combTot := CountVisible(numberPlayers, numberCoins, coin);
      if combTot == 0 {
        return Failure(ZeroDivisionError);
      }
      var row := seq(n, i requires 0 <= i < n => sumCounter[Str(i)] as real / combTot as real);
      assert row == PriorRow(numberPlayers, numberCoins, coin).value;
      r := Success(row);
    }

    /** The prior loop of `init_info_sets`: the row of each count 0 to `C`,
        stopping at the first `ZeroDivisionError`. */
    static method PriorOf(numberPlayers: nat, numberCoins: nat, prior0: Prior) returns (o: Outcome, prior: Prior)
      requires PriorNonNegative(prior0)
      ensures o.Pass? <==> forall coin :: 0 <= coin <= numberCoins ==> PriorRow(numberPlayers, numberCoins, coin).Success?
      ensures o.Fail? ==> o.error == ZeroDivisionError
      ensures o.Pass? ==> forall coin :: 0 <= coin <= numberCoins ==>
                Str(coin) in prior && PriorRow(numberPlayers, numberCoins, coin) == Success(prior[Str(coin)])
      ensures PriorNonNegative(prior)
    {
      prior := prior0;
      for coin := 0 to numberCoins + 1
        invariant forall c :: 0 <= c < coin ==> PriorRow(numberPlayers, numberCoins, c).Success?
        invariant forall c :: 0 <= c < coin ==>
                    Str(c) in prior && PriorRow(numberPlayers, numberCoins, c) == Success(prior[Str(c)])
        invariant PriorNonNegative(prior)
      {
        var row := PriorRowOf(numberPlayers, numberCoins, coin);
        if row.Failure? {
          return Fail(row.error), prior;
        }
        PriorRowIsDistribution(numberPlayers, numberCoins, coin);
        forall c | 0 <= c < coin ensures Str(c) != Str(coin) {
          StrInjective(c, coin);
        }
        prior := prior[Str(coin) := row.value];
      }
      return Pass, prior;
    }

    /** The first loop of `init_info_sets`: a fresh record for each count of
        the first player, "0" to str(C). */
    static method RegisterRoots(m0: Table, numberCoins: nat, numberPlayers: nat) returns (m: Table, full: seq<string>)
      ensures full == StrRange(0, numberCoins + 1)
      ensures Registered(m0, m, full, numberCoins, numberPlayers)
    {
      m, full := m0, [];
      for i := 0 to numberCoins + 1
        invariant full == StrRange(0, i)
        invariant Registered(m0, m, full, numberCoins, numberPlayers)
      {
        RegisterStep(m0, m, full, Str(i), numberCoins, numberPlayers);
        StrRangeSnoc(0, i);
        full := full + [Str(i)];
        m := m[Str(i) := NewCoinInfoSet(Str(i), numberCoins, numberPlayers)];
      }
    }

    /** The inner loop over `nc`: a fresh record for `str(nc) + hist`. */
    static method RegisterCounts(ghost m0: Table, m: Table, full: seq<string>, hist: string, numberCoins: nat, numberPlayers: nat)
      returns (m': Table, full': seq<string>)
      requires Registered(m0, m, full, numberCoins, numberPlayers)
      ensures full' == full + seq(numberCoins + 1, x requires 0 <= x <= numberCoins => Str(x) + hist)
      ensures Registered(m0, m', full', numberCoins, numberPlayers)
    {
      m', full' := m, full;
      for nc := 0 to numberCoins + 1
        invariant full' == full + seq(nc, x requires 0 <= x < nc => Str(x) + hist)
        invariant Registered(m0, m', full', numberCoins, numberPlayers)
      {
        var fullHist := Str(nc) + hist;
        RegisterStep(m0, m', full', fullHist, numberCoins, numberPlayers);
        full' := full' + [fullHist];
        m' := m'[fullHist := NewCoinInfoSet(fullHist, numberCoins, numberPlayers)];
      }
    }

    /** The loop over `historics`: every guess string behind every count. */
    static method RegisterHistorics(ghost m0: Table, m: Table, roots: seq<string>, historics: seq<string>, numberCoins: nat, numberPlayers: nat)
      returns (m': Table, full: seq<string>)
      requires Registered(m0, m, roots, numberCoins, numberPlayers)
      ensures full == roots + WithCounts(historics, numberCoins)
      ensures Registered(m0, m', full, numberCoins, numberPlayers)
    {
      m', full := m, roots;
      for h := 0 to |historics|
        invariant full == roots + WithCounts(historics[..h], numberCoins)
        invariant Registered(m0, m', full, numberCoins, numberPlayers)
      {
        PrefixStep(historics, h);
        m', full := RegisterCounts(m0, m', full, historics[h], numberCoins, numberPlayers);
      }
      WholePrefix(historics, |historics|);
    }

    /** `init_info_sets`: a fresh record for each count of the first player
        and for each guess string behind each count, `sorted_infoSets` the
        keys in registration order sorted by length (duplicates kept), then
        the prior row of each count. `ZeroDivisionError` when a row has no
        visible combination, which happens only without players. */
    method InitInfoSets() returns (o: Outcome)
      requires Valid()
      modifies this
      ensures Registered(old(infoSets), infoSets, FullHistorics(numberPlayers, numberCoins), numberCoins, numberPlayers)
      ensures sortedInfoSets == SortedByLength(FullHistorics(numberPlayers, numberCoins))
      ensures o.Pass? <==> forall coin :: 0 <= coin <= numberCoins ==> PriorRow(numberPlayers, numberCoins, coin).Success?
      ensures o.Fail? ==> o.error == ZeroDivisionError
      ensures o.Pass? ==> forall coin :: 0 <= coin <= numberCoins ==>
                Str(coin) in coinSumPrior && PriorRow(numberPlayers, numberCoins, coin) == Success(coinSumPrior[Str(coin)])
      ensures Valid()
    {
      RegisterInfoSets();
      o, coinSumPrior := PriorOf(numberPlayers, numberCoins, coinSumPrior);
    }

    /** The registration passes of `init_info_sets`: the records of every
        key and `sorted_infoSets`. */
    method RegisterInfoSets()
      requires Healthy(infoSets) && GainsAtLeast(infoSets, SeedGain(numberPlayers, numberCoins))
      modifies this`infoSets, this`sortedInfoSets
      ensures Registered(old(infoSets), infoSets, FullHistorics(numberPlayers, numberCoins), numberCoins, numberPlayers)
      ensures sortedInfoSets == SortedByLength(FullHistorics(numberPlayers, numberCoins))
      ensures Healthy(infoSets) && GainsAtLeast(infoSets, SeedGain(numberPlayers, numberCoins))
    {
      var m, roots := RegisterRoots(infoSets, numberCoins, numberPlayers);
      var historics := OpponentHistoricsOf();
      var fullHistorics;
      m, fullHistorics := RegisterHistorics(infoSets, m, roots, historics, numberCoins, numberPlayers);
      RegisteredHealthy(infoSets, m, fullHistorics, numberCoins, numberPlayers);
      RegisteredSeeded(infoSets, m, fullHistorics, numberCoins, numberPlayers);
      infoSets := m;
      sortedInfoSets := SortedByLength(fullHistorics);
    }

    // -------------------------------------------------------------------
    // update_beliefs

    /** The factor of opponent `i` in `prob_comb`: the strategy of the guess
        it made at its own key, or one over the number of legal guesses when
        it has not guessed yet. */
    method CombFactorOf(m: Table, historic: string, comb: seq<nat>, i: nat) returns (r: Result<real>)
      requires i < |comb|
      ensures r == CombFactor(m, numberPlayers, numberCoins, historic, comb, i)
    {
      var oppHistoric := Str(comb[i]) + PySlice(historic, 1, i + 1);
      if i < |historic| - 1 {
        var oppAction := [historic[i + 1]];
        if oppHistoric !in m || oppAction !in m[oppHistoric].actions {
          return Failure(KeyError);
        }
        return Success(m[oppHistoric].actions[oppAction].strategy);
      } else {
        var possibleActions := GetPossibleActions(historic);
        if |possibleActions| == 0 {
          return Failure(ZeroDivisionError);
        }
        return Success(1.0 / (|possibleActions| as real));
      }
    }

    /** `prob_comb` for the opponents' coins `comb`: `1 / (C + 1)` times the
        factor of each opponent. */
    method CombProbabilityOf(m: Table, historic: string, comb: seq<nat>) returns (r: Result<real>)
      ensures r == CombProbability(m, numberPlayers, numberCoins, historic, comb, |comb|)
    {
      var probComb := 1.0 / ((numberCoins + 1) as real);
      for i := 0 to |comb|
        invariant CombProbability(m, numberPlayers, numberCoins, historic, comb, i) == Success(probComb)
      {
        var factor := CombFactorOf(m, historic, comb, i);
        CombProbabilityNext(m, numberPlayers, numberCoins, historic, comb, i);
        if factor.Failure? {
          CombProbabilityStuck(m, numberPlayers, numberCoins, historic, comb, i + 1, |comb|);
          return Failure(factor.error);
        }
        probComb := Scaled(probComb, factor.value);
      }
      return Success(probComb);
    }

    /** The loop over `coin_combs`: `prob_sum` and, added to `probState0`,
        the new `prob_state`. */
    method SumProbabilityOf(m: Table, historic: string, combs: seq<seq<nat>>, probState0: real) returns (r: Result<(real, real)>)
      ensures var s := SumProbability(m, numberPlayers, numberCoins, historic, combs, |combs|);
              r == if s.Success? then Success((s.value, probState0 + s.value)) else Failure(s.error)
    {
      var probSum := 0.0;
      var probState := probState0;
      for k := 0 to |combs|
        invariant SumProbability(m, numberPlayers, numberCoins, historic, combs, k) == Success(probSum)
        invariant probState == probState0 + probSum
      {
        var probComb := CombProbabilityOf(m, historic, combs[k]);
        SumProbabilityNext(m, numberPlayers, numberCoins, historic, combs, k);
        if probComb.Failure? {
          SumProbabilityStuck(m, numberPlayers, numberCoins, historic, combs, k + 1, |combs|);
          return Failure(probComb.error);
        }
        probSum := probSum + probComb.value;
        probState := probState + probComb.value;
      }
      return Success((probSum, probState));
    }

    /** One turn of the loop over `possible_sum_coins`: the combinations of
        the opponents' coins that make up `total`, and their probability
        `prob_sum`, also added to `probState0` as the new `prob_state`. */
    method TotalProbabilityOf(m: Table, historic: string, coin: nat, total: nat, probState0: real) returns (r: Result<(real, real)>)
      ensures var p := TotalProbability(m, numberPlayers, numberCoins, historic, coin, total);
              (p.Failure? ==> r.Failure? && r.error == p.error) &&
              (p.Success? ==> r.Success? && r.value.0 == p.value && r.value.1 == probState0 + p.value)
    {
      var coinCombs := GetCoinCombinationsOf(numberPlayers - 1, total - coin, numberCoins);
      if coinCombs.Failure? {
        return Failure(coinCombs.error);
      }
      r := SumProbabilityOf(m, historic, coinCombs.value, probState0);
    }

    /** The loop over `possible_sum_coins`, here the visible totals `sums`:
        `probs_sum`, starting from 0 for every total, and `prob_state`. */
    method CoinSumsOf(m: Table, historic: string, coin: nat, sums: seq<nat>) returns (r: Result<(map<string, real>, real)>)
      ensures r == CoinSums(m, numberPlayers, numberCoins, historic, coin, sums, |sums|)
    {
      var probsSum := ZeroProbs(numberPlayers * numberCoins + 1);
      var probState := 0.0;
      for t := 0 to |sums|
        invariant var acc := CoinSums(m, numberPlayers, numberCoins, historic, coin, sums, t);
                  acc.Success? && acc.value.0 == probsSum && acc.value.1 == probState
      {
        var coinSum := sums[t];
        var probSum := TotalProbabilityOf(m, historic, coin, coinSum, probState);
        CoinSumsNext(m, numberPlayers, numberCoins, historic, coin, sums, t, probsSum, probState);
        if probSum.Failure? {
          CoinSumsStuck(m, numberPlayers, numberCoins, historic, coin, sums, t + 1, |sums|);
          return Failure(probSum.error);
        }
        probsSum := probsSum[Str(coinSum) := probSum.value.0];
        probState := probSum.value.1;
      }
      return Success((probsSum, probState));
    }

    /** The last loop of `update_beliefs`: for each key of `probs_sum`, the
        belief `probs_sum[s] * prior[str(coin)][int(s)] / prob_state`. */
    static method AssignBeliefsOf(beliefs0: map<string, real>, keys: seq<nat>, probs: map<string, real>, prior: Prior, coin: nat, probState: real)
      returns (r: Result<map<string, real>>)
      requires forall j :: 0 <= j < |keys| ==> Str(keys[j]) in probs
      ensures r == AssignBeliefs(beliefs0, keys, probs, prior, coin, probState, |keys|)
    {
      var beliefs := beliefs0;
      for t := 0 to |keys|
        invariant AssignBeliefs(beliefs0, keys, probs, prior, coin, probState, t) == Success(beliefs)
      {
        var v := keys[t];
        AssignBeliefsNext(beliefs0, keys, probs, prior, coin, probState, t);
        if Str(coin) !in prior || v >= |prior[Str(coin)]| || probState == 0.0 {
          AssignBeliefsStuck(beliefs0, keys, probs, prior, coin, probState, t + 1, |keys|);
          if Str(coin) !in prior {
            return Failure(KeyError);
          } else if v >= |prior[Str(coin)]| {
            return Failure(IndexError);
          }
          return Failure(ZeroDivisionError);
        }
        beliefs := beliefs[Str(v) := Posterior(probs[Str(v)], prior[Str(coin)][v], probState)];
      }
      return Success(beliefs);
    }

    /** The body of `update_beliefs` for one key, on the table `m`. */
    method BeliefsAt(m: Table, prior: Prior, historic: string) returns (r: Result<Table>)
      ensures r == BeliefsStep(m, prior, numberPlayers, numberCoins, historic)
    {
      if historic !in m {
        return Failure(KeyError);
      }
      var state := m[historic];
      if |historic| == 0 {
        return Failure(IndexError);
      }
      if !('0' <= historic[0] <= '9') {
        return Failure(ValueError);
      }
      var coinChoosen := DigitValue(historic[0]);
      var possibleSumCoins := VisibleSums(numberPlayers, numberCoins, coinChoosen);
      var acc := CoinSumsOf(m, historic, coinChoosen, possibleSumCoins);
      if acc.Failure? {
        return Failure(acc.error);
      }
      var keys := ProbsSumKeys(numberPlayers, numberCoins, coinChoosen);
      ProbsSumKeysPresent(m, numberPlayers, numberCoins, historic, coinChoosen);
      var beliefs := AssignBeliefsOf(state.beliefs, keys, acc.value.0, prior, coinChoosen, acc.value.1);
      if beliefs.Failure? {
        return Failure(beliefs.error);
      }
      return Success(m[historic := state.(beliefs := beliefs.value)]);
    }

    /** `update_beliefs`: the beliefs of every key, in the order of
        `sorted_infoSets`; each key sees the strategies as they are, and the
        first exception stops the sweep. */
    method UpdateBeliefs() returns (o: Outcome)
      modifies this`infoSets
      ensures o.Pass? ==> BeliefsSweep(old(infoSets), coinSumPrior, numberPlayers, numberCoins, sortedInfoSets) == Success(infoSets)
      ensures o.Fail? ==> BeliefsSweep(old(infoSets), coinSumPrior, numberPlayers, numberCoins, sortedInfoSets) == Failure(o.error)
    {
      ghost var m0 := infoSets;
      for i := 0 to |sortedInfoSets|
        invariant BeliefsSweep(m0, coinSumPrior, numberPlayers, numberCoins, sortedInfoSets[..i]) == Success(infoSets)
      {
        var r := BeliefsAt(infoSets, coinSumPrior, sortedInfoSets[i]);
        PrefixStep(sortedInfoSets, i);
        if r.Failure? {
          BeliefsSweepStuck(m0, coinSumPrior, numberPlayers, numberCoins, sortedInfoSets, i + 1, |sortedInfoSets|);
          WholePrefix(sortedInfoSets, |sortedInfoSets|);
          return Fail(r.error);
        }
        infoSets := r.value;
      }
      WholePrefix(sortedInfoSets, |sortedInfoSets|);
      return Pass;
    }

    // -------------------------------------------------------------------
    // update_utilities_of_info_states

    /** The inner loop of `update_utilities_of_info_states` for the guess
        `action` played with probability `probAction`: each total's belief
        times `probAction` times the stub payoff, `P - 1` for a hit and `-1`
        otherwise; `KeyError` when a total has no belief. */
    method TerminalUtilOf(beliefs: map<string, real>, probAction: real, action: string) returns (r: Result<real>)
      ensures var sums := StrRange(0, numberPlayers * numberCoins + 1);
              if BeliefsCover(beliefs, sums) then r == Success(TerminalUtil(beliefs, probAction, action, numberPlayers, sums))
              else r == Failure(KeyError)
    {
      var n := numberPlayers * numberCoins + 1;
      ghost var sums := StrRange(0, n);
      var utilsTerminalState := 0.0;
      for i := 0 to n
        invariant BeliefsCover(beliefs, sums[..i])
        invariant utilsTerminalState == TerminalUtil(beliefs, probAction, action, numberPlayers, sums[..i])
      {
        assert sums[i] == Str(i);
        if Str(i) !in beliefs {
          assert sums[i] in sums;
          return Failure(KeyError);
        }
        TerminalUtilNext(beliefs, probAction, action, numberPlayers, sums, i);
        var utilsPlayer := GuessPayoff(action, Str(i), numberPlayers);
        utilsTerminalState := utilsTerminalState + TerminalTerm(beliefs[Str(i)], probAction, utilsPlayer);
      }
      WholePrefix(sums, n);
      return Success(utilsTerminalState);
    }

    /** The loop over the legal guesses `possibleActions` of
        `update_utilities_of_info_states` on the record `st`: a utility for
        each; `KeyError` when a guess has no action or a total has no belief. */
    method ActionUtilsOf(st: InfoSetData, possibleActions: seq<string>) returns (r: Result<ActionTable>)
      ensures var sums := StrRange(0, numberPlayers * numberCoins + 1);
              r.Failure? <==> !HasActions(st.actions, possibleActions) || (possibleActions != [] && !BeliefsCover(st.beliefs, sums))
      ensures r.Failure? ==> r.error == KeyError
      ensures r.Success? && possibleActions == [] ==> r.value == st.actions
      ensures r.Success? && possibleActions != [] ==>
                r.value == ActionUtils(st.actions, possibleActions, st.beliefs, numberPlayers, StrRange(0, numberPlayers * numberCoins + 1))
    {
      ghost var sums := StrRange(0, numberPlayers * numberCoins + 1);
      var acts := st.actions;
      for j := 0 to |possibleActions|
        invariant HasActions(st.actions, possibleActions[..j])
        invariant j == 0 ==> acts == st.actions
        invariant j > 0 ==> BeliefsCover(st.beliefs, sums) &&
                            acts == ActionUtils(st.actions, possibleActions[..j], st.beliefs, numberPlayers, sums)
      {
        var action := possibleActions[j];
        PrefixStep(possibleActions, j);
        assert action in possibleActions;
        if action !in acts {
          return Failure(KeyError);
        }
        var probAction := acts[action].strategy;
        var utilsTerminalState := TerminalUtilOf(st.beliefs, probAction, action);
        if utilsTerminalState.Failure? {
          return Failure(KeyError);
        }
        acts := acts[action := acts[action].(util := Some(utilsTerminalState.value))];
      }
      WholePrefix(possibleActions, |possibleActions|);
      return Success(acts);
    }

    /** The last loop of `update_utilities_of_info_states`: the sum of
        `strategy * util` over `labels`. */
    static method ExpectedUtilOf(acts: ActionTable, labels: seq<string>) returns (expectedUtil: real)
      requires HasUtils(acts, labels)
      ensures expectedUtil == ExpectedUtil(acts, labels)
    {
      expectedUtil := 0.0;
      for j := 0 to |labels|
        invariant expectedUtil == ExpectedUtil(acts, labels[..j])
      {
        PrefixStep(labels, j);
        assert labels[j] in labels;
        var actionData := acts[labels[j]];
        expectedUtil := expectedUtil + actionData.strategy * actionData.util.value;
      }
      WholePrefix(labels, |labels|);
    }

    /** The body of `update_utilities_of_info_states` on the record `st` of
        `historic`: the utility of every legal guess, then the expected
        utility of the record's strategy. */
    method RecordUtilitiesOf(st: InfoSetData, historic: string) returns (r: Result<InfoSetData>)
      ensures r == RecordUtilities(st, numberPlayers, numberCoins, historic)
    {
      var possibleActions := GetPossibleActions(historic);
      var acts := ActionUtilsOf(st, possibleActions);
      if acts.Failure? {
        return Failure(acts.error);
      }
      var expectedUtil := ExpectedUtilOf(acts.value, possibleActions);
      return Success(st.(actions := acts.value, expectedUtil := Some(expectedUtil)));
    }

    /** `update_utilities_of_info_states(historic)`. */
    method UpdateUtilitiesOfInfoStates(historic: string) returns (o: Outcome)
      modifies this`infoSets
      ensures o.Pass? ==> UtilitiesStep(old(infoSets), numberPlayers, numberCoins, historic) == Success(infoSets)
      ensures o.Fail? ==> UtilitiesStep(old(infoSets), numberPlayers, numberCoins, historic) == Failure(o.error)
    {
      if historic !in infoSets {
        return Fail(KeyError);
      }
      var d := RecordUtilitiesOf(infoSets[historic], historic);
      if d.Failure? {
        return Fail(d.error);
      }
      infoSets := infoSets[historic := d.value];
      return Pass;
    }

    /** The utility pass of the training loop: every key of
        `sorted_infoSets`, longest first. */
    method UpdateUtilitiesReversed() returns (o: Outcome)
      modifies this`infoSets
      ensures o.Pass? ==> UtilitiesSweep(old(infoSets), numberPlayers, numberCoins, Reversed(sortedInfoSets)) == Success(infoSets)
      ensures o.Fail? ==> UtilitiesSweep(old(infoSets), numberPlayers, numberCoins, Reversed(sortedInfoSets)) == Failure(o.error)
    {
      ghost var m0 := infoSets;
      ghost var keys := Reversed(sortedInfoSets);
      for j := 0 to |sortedInfoSets|
        invariant UtilitiesSweep(m0, numberPlayers, numberCoins, keys[..j]) == Success(infoSets)
      {
        var infoSetStr := sortedInfoSets[|sortedInfoSets| - 1 - j];
        assert keys[j] == infoSetStr;
        UtilitiesSweepNext(m0, numberPlayers, numberCoins, keys, j);
        o := UpdateUtilitiesOfInfoStates(infoSetStr);
        if o.Fail? {
          UtilitiesSweepStuck(m0, numberPlayers, numberCoins, keys, j + 1, |keys|);
          WholePrefix(keys, |keys|);
          return;
        }
      }
      WholePrefix(keys, |keys|);
      return Pass;
    }

    // -------------------------------------------------------------------
    // calc_infoset_likelihoods

    /** The body of `calc_infoset_likelihoods` for one key, on the table `m`:
        the likelihood is reset to 0, then set to `1 / (C + 1)` for a
        one-character key, or else grows by each earlier key's likelihood
        times its strategy for its own last character. */
    method LikelihoodAt(m: Table, historic: string) returns (r: Result<Table>)
      ensures r == LikelihoodStep(m, numberCoins, historic)
    {
      if historic !in m {
        return Failure(KeyError);
      }
      var state := m[historic].(likelihood := Some(0.0));
      if |historic| == 1 {
        state := state.(likelihood := Some(1.0 / ((numberCoins + 1) as real)));
        return Success(m[historic := state]);
      }
      var prevStates := GetPrevInfoStatesHist(numberCoins, historic).value;
      PrevInfoStatesAreCounts(numberCoins, historic);
      r := LikelihoodTermsOf(m[historic := state], historic, prevStates);
    }

    /** The loop over `prev_states` of `calc_infoset_likelihoods`: each
        earlier key's likelihood times its strategy for its own last
        character is added to the likelihood of `historic`. */
    static method LikelihoodTermsOf(m: Table, historic: string, prevStates: seq<string>) returns (r: Result<Table>)
      requires historic in m && m[historic].likelihood.Some?
      requires forall j :: 0 <= j < |prevStates| ==> |prevStates[j]| >= 1
      ensures r == LikelihoodTerms(m, historic, prevStates, |prevStates|)
    {
      var infoSets := m;
      for k := 0 to |prevStates|
        invariant LikelihoodTerms(m, historic, prevStates, k) == Success(infoSets)
      {
        var prevState := prevStates[k];
        LikelihoodTermsNext(m, historic, prevStates, k, infoSets);
        if prevState !in infoSets || prevState[|prevState| - 1..] !in infoSets[prevState].actions {
          LikelihoodTermsStuck(m, historic, prevStates, k + 1, |prevStates|);
          return Failure(KeyError);
        }
        if infoSets[prevState].likelihood.None? {
          LikelihoodTermsStuck(m, historic, prevStates, k + 1, |prevStates|);
          return Failure(TypeError);
        }
        var state := infoSets[historic];
        infoSets := infoSets[historic := state.(likelihood := Some(state.likelihood.value + Contribution(infoSets[prevState], prevState)))];
      }
      return Success(infoSets);
    }

    /** `calc_infoset_likelihoods`: the likelihood of every key, in the order
        of `sorted_infoSets`; the first exception stops the sweep. */
    method CalcInfosetLikelihoods() returns (o: Outcome)
      modifies this`infoSets
      ensures o.Pass? ==> LikelihoodsSweep(old(infoSets), numberCoins, sortedInfoSets) == Success(infoSets)
      ensures o.Fail? ==> LikelihoodsSweep(old(infoSets), numberCoins, sortedInfoSets) == Failure(o.error)
    {
      ghost var m0 := infoSets;
      for i := 0 to |sortedInfoSets|
        invariant LikelihoodsSweep(m0, numberCoins, sortedInfoSets[..i]) == Success(infoSets)
      {
        LikelihoodsSweepNext(m0, numberCoins, sortedInfoSets, i);
        var r := LikelihoodAt(infoSets, sortedInfoSets[i]);
        if r.Failure? {
          LikelihoodsSweepStuck(m0, numberCoins, sortedInfoSets, i + 1, |sortedInfoSets|);
          WholePrefix(sortedInfoSets, |sortedInfoSets|);
          return Fail(r.error);
        }
        infoSets := r.value;
      }
      WholePrefix(sortedInfoSets, |sortedInfoSets|);
      return Pass;
    }

    // -------------------------------------------------------------------
    // calc_gains

    /** The loop over the legal guesses of `calc_gains` on the record `st`:
        each guess's instantaneous gain `max(0, util - expectedUtil)` is
        added to the running `totalGain0`, and times the likelihood to its
        cumulative gain. */
    static method AddGainsOf(st: InfoSetData, possibleActions: seq<string>, totalGain0: real) returns (r: Result<(ActionTable, real)>)
      ensures var check := GainsCheck(st.actions, possibleActions, st.expectedUtil, st.likelihood);
              check.Fail? <==> r.Failure?
      ensures r.Failure? ==> r.error == GainsCheck(st.actions, possibleActions, st.expectedUtil, st.likelihood).error
      ensures r.Success? && possibleActions == [] ==> r.value.0 == st.actions && r.value.1 == totalGain0
      ensures r.Success? && possibleActions != [] ==>
                st.expectedUtil.Some? && st.likelihood.Some? && HasUtils(st.actions, possibleActions) &&
                r.value.0 == AddGains(st.actions, possibleActions, st.expectedUtil.value, st.likelihood.value).0 &&
                r.value.1 == totalGain0 + AddGains(st.actions, possibleActions, st.expectedUtil.value, st.likelihood.value).1
    {
      var acts := st.actions;
      var totalGain := totalGain0;
      for j := 0 to |possibleActions|
        invariant GainsCheck(st.actions, possibleActions[..j], st.expectedUtil, st.likelihood).Pass?
        invariant j == 0 ==> acts == st.actions && totalGain == totalGain0
        invariant j > 0 ==> st.expectedUtil.Some? && st.likelihood.Some? &&
                            acts == AddGains(st.actions, possibleActions[..j], st.expectedUtil.value, st.likelihood.value).0 &&
                            totalGain == totalGain0 + AddGains(st.actions, possibleActions[..j], st.expectedUtil.value, st.likelihood.value).1
      {
        var action := possibleActions[j];
        GainsCheckNext(st.actions, possibleActions, st.expectedUtil, st.likelihood, j);
        if action !in acts {
          GainsCheckStuck(st.actions, possibleActions, st.expectedUtil, st.likelihood, j + 1, |possibleActions|);
          WholePrefix(possibleActions, |possibleActions|);
          return Failure(KeyError);
        }
        var util := acts[action].util;
        if util.None? || st.expectedUtil.None? || st.likelihood.None? {
          GainsCheckStuck(st.actions, possibleActions, st.expectedUtil, st.likelihood, j + 1, |possibleActions|);
          WholePrefix(possibleActions, |possibleActions|);
          return Failure(TypeError);
        }
        AddGainsNext(st.actions, possibleActions, st.expectedUtil.value, st.likelihood.value, j);
        var gain := Gain(util.value, st.expectedUtil.value);
        totalGain := totalGain + gain;
        acts := acts[action := acts[action].(cumulativeGain := acts[action].cumulativeGain + Scaled(gain, st.likelihood.value))];
      }
      WholePrefix(possibleActions, |possibleActions|);
      return Success((acts, totalGain));
    }

    /** The body of `calc_gains` for one key, on the table `m`, with the
        running total `totalGain0`. */
    method GainsAt(m: Table, historic: string, totalGain0: real) returns (r: Result<(Table, real)>)
      ensures r.Failure? <==> GainsStep(m, numberPlayers, numberCoins, historic).Failure?
      ensures r.Failure? ==> r.error == GainsStep(m, numberPlayers, numberCoins, historic).error
      ensures r.Success? ==> r.value.0 == GainsStep(m, numberPlayers, numberCoins, historic).value.0 &&
                             r.value.1 == totalGain0 + GainsStep(m, numberPlayers, numberCoins, historic).value.1
    {
      if historic !in m {
        return Failure(KeyError);
      }
      var state := m[historic];
      var possibleActions := GetPossibleActions(historic);
      var added := AddGainsOf(state, possibleActions, totalGain0);
      if added.Failure? {
        return Failure(added.error);
      }
      return Success((m[historic := state.(actions := added.value.0)], added.value.1));
    }

    /** `calc_gains`: the cumulative gains of every key, in the order of
        `sorted_infoSets`, and the total instantaneous gain; the first
        exception stops the sweep. */
    method CalcGains() returns (o: Outcome, totalGain: real)
      modifies this`infoSets
      ensures o.Pass? ==> GainsSweep(old(infoSets), numberPlayers, numberCoins, sortedInfoSets).Success? &&
                          GainsSweep(old(infoSets), numberPlayers, numberCoins, sortedInfoSets).value.0 == infoSets &&
                          GainsSweep(old(infoSets), numberPlayers, numberCoins, sortedInfoSets).value.1 == totalGain
      ensures o.Fail? ==> GainsSweep(old(infoSets), numberPlayers, numberCoins, sortedInfoSets) == Failure(o.error)
    {
      ghost var m0 := infoSets;
      totalGain := 0.0;
      for i := 0 to |sortedInfoSets|
        invariant GainsSweep(m0, numberPlayers, numberCoins, sortedInfoSets[..i]).Success?
        invariant GainsSweep(m0, numberPlayers, numberCoins, sortedInfoSets[..i]).value.0 == infoSets
        invariant GainsSweep(m0, numberPlayers, numberCoins, sortedInfoSets[..i]).value.1 == totalGain
      {
        GainsSweepNext(m0, numberPlayers, numberCoins, sortedInfoSets, i, infoSets, totalGain);
        var r := GainsAt(infoSets, sortedInfoSets[i], totalGain);
        if r.Failure? {
          GainsSweepStuck(m0, numberPlayers, numberCoins, sortedInfoSets, i + 1, |sortedInfoSets|);
          WholePrefix(sortedInfoSets, |sortedInfoSets|);
          return Fail(r.error), totalGain;
        }
        infoSets, totalGain := r.value.0, r.value.1;
      }
      WholePrefix(sortedInfoSets, |sortedInfoSets|);
      return Pass, totalGain;
    }

    // -------------------------------------------------------------------
    // update_strat

    /** `gains = [state.actions[action].cumulativeGain for action in
        possible_actions]` and `sum(gains)`; `KeyError` for a guess without
        an action. */
    static method CumulativeGainTotalOf(acts: ActionTable, possibleActions: seq<string>) returns (r: Result<real>)
      ensures r.Failure? <==> !HasActions(acts, possibleActions)
      ensures r.Failure? ==> r.error == KeyError
      ensures r.Success? ==> r.value == CumulativeGainTotal(acts, possibleActions)
    {
      var gains: seq<real> := [];
      for j := 0 to |possibleActions|
        invariant HasActions(acts, possibleActions[..j])
        invariant |gains| == j && forall i :: 0 <= i < j ==> gains[i] == acts[possibleActions[i]].cumulativeGain
      {
        PrefixStep(possibleActions, j);
        if possibleActions[j] !in acts {
          assert possibleActions[j] in possibleActions;
          return Failure(KeyError);
        }
        gains := gains + [acts[possibleActions[j]].cumulativeGain];
      }
      WholePrefix(possibleActions, |possibleActions|);
      var totGains := 0.0;
      for j := 0 to |gains|
        invariant totGains == CumulativeGainTotal(acts, possibleActions[..j])
      {
        PrefixStep(possibleActions, j);
        totGains := totGains + gains[j];
      }
      WholePrefix(possibleActions, |possibleActions|);
      return Success(totGains);
    }

    /** The last loop of `update_strat`: each legal guess's strategy becomes
        its cumulative gain over `totGains`; `ZeroDivisionError` when there
        is a guess and `totGains` is 0. */
    static method RenormalizedOf(acts: ActionTable, possibleActions: seq<string>, totGains: real) returns (r: Result<ActionTable>)
      requires HasActions(acts, possibleActions)
      ensures possibleActions == [] ==> r == Success(acts)
      ensures possibleActions != [] && totGains == 0.0 ==> r == Failure(ZeroDivisionError)
      ensures possibleActions != [] && totGains != 0.0 ==> r == Success(Renormalized(acts, possibleActions, totGains))
    {
      var actions := acts;
      for j := 0 to |possibleActions|
        invariant j == 0 ==> actions == acts
        invariant j > 0 ==> totGains != 0.0 && actions == Renormalized(acts, possibleActions[..j], totGains)
      {
        PrefixStep(possibleActions, j);
        assert possibleActions[j] in possibleActions;
        var action := possibleActions[j];
        if totGains == 0.0 {
          return Failure(ZeroDivisionError);
        }
        var gain := actions[action].cumulativeGain;
        actions := actions[action := actions[action].(strategy := Share(gain, totGains))];
      }
      WholePrefix(possibleActions, |possibleActions|);
      return Success(actions);
    }

    /** The body of `update_strat` for one key, on the table `m`. */
    method StrategiesAt(m: Table, historic: string) returns (r: Result<Table>)
      ensures r == StrategiesStep(m, numberPlayers, numberCoins, historic)
    {
      if historic !in m {
        return Failure(KeyError);
      }
      var state := m[historic];
      var possibleActions := GetPossibleActions(historic);
      var totGains := CumulativeGainTotalOf(state.actions, possibleActions);
      if totGains.Failure? {
        return Failure(totGains.error);
      }
      var actions := RenormalizedOf(state.actions, possibleActions, totGains.value);
      if actions.Failure? {
        return Failure(actions.error);
      }
      return Success(m[historic := state.(actions := actions.value)]);
    }

    /** `update_strat`: regret matching at every key, in the order of
        `sorted_infoSets`; the first exception stops the sweep. */
    method UpdateStrat() returns (o: Outcome)
      modifies this`infoSets
      ensures o.Pass? ==> StrategiesSweep(old(infoSets), numberPlayers, numberCoins, sortedInfoSets) == Success(infoSets)
      ensures o.Fail? ==> StrategiesSweep(old(infoSets), numberPlayers, numberCoins, sortedInfoSets) == Failure(o.error)
    {
      ghost var m0 := infoSets;
      for i := 0 to |sortedInfoSets|
        invariant StrategiesSweep(m0, numberPlayers, numberCoins, sortedInfoSets[..i]) == Success(infoSets)
      {
        StrategiesSweepNext(m0, numberPlayers, numberCoins, sortedInfoSets, i);
        var r := StrategiesAt(infoSets, sortedInfoSets[i]);
        if r.Failure? {
          StrategiesSweepStuck(m0, numberPlayers, numberCoins, sortedInfoSets, i + 1, |sortedInfoSets|);
          WholePrefix(sortedInfoSets, |sortedInfoSets|);
          return Fail(r.error);
        }
        infoSets := r.value;
      }
      WholePrefix(sortedInfoSets, |sortedInfoSets|);
      return Pass;
    }

    // -------------------------------------------------------------------
    // The training loop of `main`

    /** Every key of `sorted_infoSets` with a legal guess plays a probability
        distribution over its legal guesses. */
    ghost predicate StrategiesAreDistributions()
      reads this
    {
      forall k :: k in sortedInfoSets && PossibleActions(numberPlayers, numberCoins, k) != [] ==>
        k in infoSets && HasActions(infoSets[k].actions, PossibleActions(numberPlayers, numberCoins, k)) &&
        IsDistribution(infoSets[k].actions, PossibleActions(numberPlayers, numberCoins, k))
    }

    /** The first part of an iteration of the training loop: beliefs,
        utilities from the longest key down, likelihoods, then gains; the
        table they leave and `totGain` are those `GainPhasesOf` specifies,
        and the invariant is kept. */
    method GainPhases() returns (o: Outcome, totGain: real)
      requires Valid()
      modifies this`infoSets
      ensures o.Pass? ==> GainPhasesOf(old(infoSets), coinSumPrior, numberPlayers, numberCoins, sortedInfoSets) == Success((infoSets, totGain))
      ensures o.Fail? ==> GainPhasesOf(old(infoSets), coinSumPrior, numberPlayers, numberCoins, sortedInfoSets) == Failure(o.error)
      ensures o.Pass? ==> Valid() && totGain >= 0.0
    {
      ghost var m0 := infoSets;
      IterationKeepsGainFloor(m0, coinSumPrior, numberPlayers, numberCoins, sortedInfoSets, SeedGain(numberPlayers, numberCoins));
      totGain := 0.0;
      o := UpdateBeliefs();
      if o.Fail? {
        return;
      }
      o := UpdateUtilitiesReversed();
      if o.Fail? {
        return;
      }
      o := CalcInfosetLikelihoods();
      if o.Fail? {
        return;
      }
      o, totGain := CalcGains();
    }

    /** The last part of an iteration of the training loop: the strategies,
        which then form a probability distribution at every key with a
        legal guess. Since no cumulative gain is below the seed, the only
        exception is `KeyError`: it never divides by zero. */
    method StrategyPhase() returns (o: Outcome)
      requires Valid()
      modifies this`infoSets
      ensures o.Pass? ==> StrategiesSweep(old(infoSets), numberPlayers, numberCoins, sortedInfoSets) == Success(infoSets)
      ensures o.Fail? ==> StrategiesSweep(old(infoSets), numberPlayers, numberCoins, sortedInfoSets) == Failure(o.error)
      ensures o.Fail? ==> o.error == KeyError
      ensures o.Pass? ==> Valid() && StrategiesAreDistributions()
    {
      ghost var m := infoSets;
      SeededStrategiesSweep(m, numberPlayers, numberCoins, sortedInfoSets, SeedGain(numberPlayers, numberCoins));
      o := UpdateStrat();
      if o.Pass? {
        StrategiesSweepDistributions(m, numberPlayers, numberCoins, sortedInfoSets);
        PhaseLosesNoGain(m, infoSets);
        GainsAtLeastKept(m, infoSets, SeedGain(numberPlayers, numberCoins));
      }
    }

    /** Lines 326-328 of the loop: the iteration's total gain is kept for the
        plot when the iteration number is a multiple of `g`. */
    static method RecordGain(totGains: seq<real>, ghost iterationGains: seq<real>, i: nat, g: nat, ghost numIterations: nat, totGain: real)
      returns (totGains': seq<real>, ghost iterationGains': seq<real>)
      requires i == |iterationGains|
      requires Recorded(totGains, iterationGains, g) && NonNegative(iterationGains) && totGain >= 0.0
      requires Continued(iterationGains, |iterationGains|, numIterations)
      ensures iterationGains' == iterationGains + [totGain]
      ensures Recorded(totGains', iterationGains', g) && NonNegative(iterationGains')
      ensures Continued(iterationGains', |iterationGains|, numIterations)
      ensures |iterationGains| + 1 < numIterations && totGain > 0.1 ==> Continued(iterationGains', |iterationGains| + 1, numIterations)
    {
      IterationRecorded(totGains, iterationGains, g, numIterations, totGain);
      totGains' := totGains;
      if i % g == 0 {
        totGains' := totGains + [totGain];
      }
      iterationGains' := iterationGains + [totGain];
    }

    /** The `while True` loop of `main`: iterations until `numIterations` of
        them have run or one's total gain is at most 0.1, keeping the total
        gain of every `g`-th iteration, `g` being `numIterations //
        numGainsToPlot` raised to 1. `tables` are the tables the loop
        starts its iterations with: iteration `j` turns `tables[j]` into
        `tables[j + 1]` with total gain `iterationGains[j]`, as
        `IterationOf` specifies. `iterationGains` also holds the gain of a
        last iteration whose `update_strat` raised. */
    method Train(numIterations: nat, numGainsToPlot: nat)
      returns (o: Outcome, totGains: seq<real>, ghost iterationGains: seq<real>, ghost tables: seq<Table>)
      requires numGainsToPlot > 0 && Valid()
      modifies this`infoSets
      ensures |tables| >= 1 && tables[0] == old(infoSets)
      ensures Iterated(tables, iterationGains, coinSumPrior, numberPlayers, numberCoins, sortedInfoSets)
      ensures o.Pass? ==> RanFrom(tables, iterationGains, coinSumPrior, numberPlayers, numberCoins, sortedInfoSets, old(infoSets), infoSets)
      ensures o.Fail? ==> StoppedAt(tables, iterationGains, o.error, coinSumPrior, numberPlayers, numberCoins, sortedInfoSets)
      ensures Recorded(totGains, iterationGains, GainGroupSize(numIterations, numGainsToPlot)) && NonNegative(iterationGains)
      ensures Continued(iterationGains, |iterationGains| - 1, numIterations)
      ensures o.Pass? ==> |iterationGains| >= 1 &&
                          (|iterationGains| >= numIterations || iterationGains[|iterationGains| - 1] <= 0.1)
      ensures o.Pass? ==> Valid() && StrategiesAreDistributions()
    {
      var gainGrpSize := numIterations / numGainsToPlot;
      if gainGrpSize == 0 {
        gainGrpSize := 1;
      }
      assert gainGrpSize == GainGroupSize(numIterations, numGainsToPlot);
      totGains := [];
      iterationGains := [];
      tables := [infoSets];
      RecordedNothing(gainGrpSize);
      var i := 0;
      while true
        invariant Valid()
        invariant i == |iterationGains| && i <= numIterations
        invariant RanFrom(tables, iterationGains, coinSumPrior, numberPlayers, numberCoins, sortedInfoSets, old(infoSets), infoSets)
        invariant Recorded(totGains, iterationGains, gainGrpSize) && NonNegative(iterationGains)
        invariant Continued(iterationGains, i, numIterations)
        decreases numIterations - i
      {
        var totGain;
        ghost var m := infoSets;
        o, totGain := GainPhases();
        if o.Fail? {
          StoppedInGainPhases(tables, iterationGains, o.error, coinSumPrior, numberPlayers, numberCoins, sortedInfoSets);
          return;
        }
        ghost var gained := infoSets;
        ghost var gainsBefore := iterationGains;
        totGains, iterationGains := RecordGain(totGains, iterationGains, i, gainGrpSize, numIterations, totGain);
        o := StrategyPhase();
        if o.Fail? {
          StoppedInStrategies(tables, gainsBefore, coinSumPrior, numberPlayers, numberCoins, sortedInfoSets, gained, totGain);
          return;
        }
        RanFromStep(tables, gainsBefore, coinSumPrior, numberPlayers, numberCoins, sortedInfoSets, old(infoSets), m, gained, totGain, infoSets);
        tables := tables + [infoSets];
        i := i + 1;
        if i >= numIterations || totGain <= 0.1 {
          break;
        }
      }
    }
  }

  /** Integer division does not reverse the order. */
  lemma DivMonotone(a: nat, b: nat, g: nat)
    requires a <= b && g > 0
    ensures a / g <= b / g
  {
    var qa, ra := a / g, a % g;
    var qb, rb := b / g, b % g;
    assert (qa - qb) * g == (a - b) + (rb - ra);
    if qa - qb >= 1 {
      assert false;
    }
  }

  /** `main` once its arguments are parsed: a solver for `numberCoins` and
      `numberPlayers`, its information sets, then the training loop with
      the script's constants, which keeps at most a million total gains.
      `tables[0]` is the freshly registered table; each iteration turns
      `tables[j]` into `tables[j + 1]` with total gain `iterationGains[j]`,
      as `IterationOf` specifies, and `totGains` keeps every 10 000th gain. */
  method RunMain(numberCoins: nat, numberPlayers: nat)
    returns (cfr: CoinCfr, o: Outcome, totGains: seq<real>, ghost iterationGains: seq<real>, ghost tables: seq<Table>)
    ensures fresh(cfr) && cfr.numberCoins == numberCoins && cfr.numberPlayers == numberPlayers
    ensures cfr.sortedInfoSets == SortedByLength(FullHistorics(numberPlayers, numberCoins))
    ensures |tables| >= 1 && Registered(map[], tables[0], FullHistorics(numberPlayers, numberCoins), numberCoins, numberPlayers)
    ensures Iterated(tables, iterationGains, cfr.coinSumPrior, numberPlayers, numberCoins, cfr.sortedInfoSets)
    ensures Recorded(totGains, iterationGains, 10_000) && NonNegative(iterationGains)
    ensures o.Pass? ==> RanFrom(tables, iterationGains, cfr.coinSumPrior, numberPlayers, numberCoins, cfr.sortedInfoSets, tables[0], cfr.infoSets)
    ensures o.Pass? ==> |iterationGains| >= 1 && (|iterationGains| >= NUM_ITERATIONS || iterationGains[|iterationGains| - 1] <= 0.1)
    ensures o.Pass? ==> cfr.Valid() && cfr.StrategiesAreDistributions()
    ensures |totGains| <= NUM_GAINS_TO_PLOT
  {
    cfr := new CoinCfr(numberCoins, numberPlayers);
    o := cfr.InitInfoSets();
    ScriptGainGroupSize();
    if o.Fail? {
      RecordedNothing(10_000);
      return cfr, o, [], [], [cfr.infoSets];
    }
    o, totGains, iterationGains, tables := cfr.Train(NUM_ITERATIONS, NUM_GAINS_TO_PLOT);
    DivMonotone(|iterationGains| + 10_000 - 1, NUM_ITERATIONS + 10_000 - 1, 10_000);
  }
}
