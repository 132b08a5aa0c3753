/** What one sweep of each phase of the coin-game solver (main.py 120-244)
    does to the table of information sets, as functions: a sweep is a left
    fold of a per-key step over the keys in the order the loop visits them,
    and a step either gives the new table or the Python exception that the
    loop body raises first. Beside each phase, the invariants it keeps. */
module CoinSpec {
  import opened Outcomes
  import opened PyStr
  import opened RegretMatching
  import opened CoinGame

  /** `self.infoSets`. */
  type Table = map<string, InfoSetData>

  /** `self.coin_sum_prior`. */
  type Prior = map<string, seq<real>>

  /** `reversed(xs)`. */
  function Reversed<T>(xs: seq<T>): (r: seq<T>)
    ensures |r| == |xs| && forall i :: 0 <= i < |xs| ==> r[i] == xs[|xs| - 1 - i]
  {
    seq(|xs|, i requires 0 <= i < |xs| => xs[|xs| - 1 - i])
  }

  // ---------------------------------------------------------------------
  // The invariant every phase keeps

  predicate NonNegativeValues(b: map<string, real>) {
    forall s :: s in b ==> b[s] >= 0.0
  }

  /** Strategies, cumulative gains, beliefs and the likelihood are never negative. */
  predicate HealthyRecord(d: InfoSetData) {
    (forall a :: a in d.actions ==> d.actions[a].strategy >= 0.0 && d.actions[a].cumulativeGain >= 0.0) &&
    NonNegativeValues(d.beliefs) &&
    (d.likelihood.Some? ==> d.likelihood.value >= 0.0)
  }

  predicate Healthy(m: Table) {
    forall h :: h in m ==> HealthyRecord(m[h])
  }

  /** Every prior row is non-negative, as `PriorRow` makes it. */
  predicate PriorNonNegative(prior: Prior) {
    forall c :: c in prior ==> forall v :: 0 <= v < |prior[c]| ==> prior[c][v] >= 0.0
  }

  /** `e` is `d` with new beliefs, every earlier belief key kept. */
  predicate BeliefsGrown(d: InfoSetData, e: InfoSetData) {
    e == d.(beliefs := e.beliefs) && d.beliefs.Keys <= e.beliefs.Keys
  }

  /** `e` is `d` with at most the utilities and the expected utility changed. */
  predicate SameButUtils(d: InfoSetData, e: InfoSetData) {
    e.beliefs == d.beliefs && e.likelihood == d.likelihood && e.actions.Keys == d.actions.Keys &&
    forall a :: a in d.actions ==>
      e.actions[a].strategy == d.actions[a].strategy && e.actions[a].cumulativeGain == d.actions[a].cumulativeGain
  }

  /** `e` is `d` with a likelihood set. */
  predicate LikelihoodSet(d: InfoSetData, e: InfoSetData) {
    e == d.(likelihood := e.likelihood) && e.likelihood.Some?
  }

  /** `e` is `d` with at most the cumulative gains changed. */
  predicate SameButGains(d: InfoSetData, e: InfoSetData) {
    e == d.(actions := e.actions) && e.actions.Keys == d.actions.Keys &&
    forall a :: a in d.actions ==> e.actions[a] == d.actions[a].(cumulativeGain := e.actions[a].cumulativeGain)
  }

  /** No cumulative gain of `d` has gone down in `e`. */
  predicate GainsGrew(d: InfoSetData, e: InfoSetData) {
    forall a :: a in d.actions && a in e.actions ==> e.actions[a].cumulativeGain >= d.actions[a].cumulativeGain
  }

  /** `e` is `d` with at most the strategies changed. */
  predicate SameButStrategies(d: InfoSetData, e: InfoSetData) {
    e == d.(actions := e.actions) && e.actions.Keys == d.actions.Keys &&
    forall a :: a in d.actions ==> e.actions[a] == d.actions[a].(strategy := e.actions[a].strategy)
  }

  /** Only beliefs changed, each earlier belief key kept. */
  predicate BeliefsOnly(m: Table, m': Table) {
    m'.Keys == m.Keys && forall k :: k in m ==> BeliefsGrown(m[k], m'[k])
  }

  /** Only utilities and expected utilities changed. */
  predicate UtilsOnly(m: Table, m': Table) {
    m'.Keys == m.Keys && forall k :: k in m ==> SameButUtils(m[k], m'[k])
  }

  /** Only likelihoods changed. */
  predicate LikelihoodsOnly(m: Table, m': Table) {
    m'.Keys == m.Keys && forall k :: k in m ==> m'[k] == m[k].(likelihood := m'[k].likelihood)
  }

  /** Only cumulative gains changed. */
  predicate GainsOnly(m: Table, m': Table) {
    m'.Keys == m.Keys && forall k :: k in m ==> SameButGains(m[k], m'[k])
  }

  /** No cumulative gain went down. */
  predicate GainsGrewAll(m: Table, m': Table) {
    forall k :: k in m && k in m' ==> GainsGrew(m[k], m'[k])
  }

  /** Only strategies changed. */
  predicate StrategiesOnly(m: Table, m': Table) {
    m'.Keys == m.Keys && forall k :: k in m ==> SameButStrategies(m[k], m'[k])
  }

  lemma BeliefsOnlyTrans(m1: Table, m2: Table, m3: Table)
    requires BeliefsOnly(m1, m2) && BeliefsOnly(m2, m3)
    ensures BeliefsOnly(m1, m3)
  {
    forall k | k in m1 ensures BeliefsGrown(m1[k], m3[k]) {
      assert BeliefsGrown(m1[k], m2[k]) && BeliefsGrown(m2[k], m3[k]);
    }
  }

  lemma UtilsOnlyTrans(m1: Table, m2: Table, m3: Table)
    requires UtilsOnly(m1, m2) && UtilsOnly(m2, m3)
    ensures UtilsOnly(m1, m3)
  {
    forall k | k in m1 ensures SameButUtils(m1[k], m3[k]) {
      assert SameButUtils(m1[k], m2[k]) && SameButUtils(m2[k], m3[k]);
    }
  }

  lemma LikelihoodsOnlyTrans(m1: Table, m2: Table, m3: Table)
    requires LikelihoodsOnly(m1, m2) && LikelihoodsOnly(m2, m3)
    ensures LikelihoodsOnly(m1, m3)
  {
    forall k | k in m1 ensures m3[k] == m1[k].(likelihood := m3[k].likelihood) {
      assert m2[k] == m1[k].(likelihood := m2[k].likelihood);
    }
  }

  lemma GainsOnlyTrans(m1: Table, m2: Table, m3: Table)
    requires GainsOnly(m1, m2) && GainsOnly(m2, m3)
    ensures GainsOnly(m1, m3)
    ensures GainsGrewAll(m1, m2) && GainsGrewAll(m2, m3) ==> GainsGrewAll(m1, m3)
  {
    forall k | k in m1 ensures SameButGains(m1[k], m3[k]) {
      assert SameButGains(m1[k], m2[k]) && SameButGains(m2[k], m3[k]);
    }
    if GainsGrewAll(m1, m2) && GainsGrewAll(m2, m3) {
      forall k | k in m1 && k in m3 ensures GainsGrew(m1[k], m3[k]) {
        assert GainsGrew(m1[k], m2[k]) && GainsGrew(m2[k], m3[k]);
      }
    }
  }

  lemma StrategiesOnlyTrans(m1: Table, m2: Table, m3: Table)
    requires StrategiesOnly(m1, m2) && StrategiesOnly(m2, m3)
    ensures StrategiesOnly(m1, m3)
  {
    forall k | k in m1 ensures SameButStrategies(m1[k], m3[k]) {
      assert SameButStrategies(m1[k], m2[k]) && SameButStrategies(m2[k], m3[k]);
    }
  }

  /** Changing only utilities keeps the invariant. */
  lemma UtilsOnlyHealthy(m: Table, m': Table)
    requires UtilsOnly(m, m') && Healthy(m)
    ensures Healthy(m')
  {
    forall k | k in m' ensures HealthyRecord(m'[k]) {
      assert SameButUtils(m[k], m'[k]) && HealthyRecord(m[k]);
    }
  }

  // ---------------------------------------------------------------------
  // update_beliefs

  /** The factor opponent `i` contributes to `prob_comb`: the strategy of the
      guess it made at its own key when it has already guessed, or one over
      the number of legal guesses when it has not. */
  function CombFactor(m: Table, numberPlayers: nat, numberCoins: nat, historic: string, comb: seq<nat>, i: nat): (r: Result<real>)
    requires i < |comb|
    ensures Healthy(m) && r.Success? ==> r.value >= 0.0
  {
    if i < |historic| - 1 then
      var oppHistoric := Str(comb[i]) + PySlice(historic, 1, i + 1);
      var oppAction := [historic[i + 1]];
      if oppHistoric !in m then Failure(KeyError)
      else if oppAction !in m[oppHistoric].actions then Failure(KeyError)
      else Success(m[oppHistoric].actions[oppAction].strategy)
    else
      var legal := |PossibleActions(numberPlayers, numberCoins, historic)|;
      if legal == 0 then Failure(ZeroDivisionError) else Success(1.0 / (legal as real))
  }

  /** `prob_comb` after the first `k` opponents of `comb`. */
  function CombProbability(m: Table, numberPlayers: nat, numberCoins: nat, historic: string, comb: seq<nat>, k: nat): (r: Result<real>)
    requires k <= |comb|
    ensures Healthy(m) && r.Success? ==> r.value >= 0.0
  {
    if k == 0 then Success(1.0 / ((numberCoins + 1) as real))
    else
      var p :- CombProbability(m, numberPlayers, numberCoins, historic, comb, k - 1);
      var f :- CombFactor(m, numberPlayers, numberCoins, historic, comb, k - 1);
      Success(Scaled(p, f))
  }

  /** `prob_sum` after the first `k` combinations of `combs`. */
  function SumProbability(m: Table, numberPlayers: nat, numberCoins: nat, historic: string, combs: seq<seq<nat>>, k: nat): (r: Result<real>)
    requires k <= |combs|
    ensures Healthy(m) && r.Success? ==> r.value >= 0.0
  {
    if k == 0 then Success(0.0)
    else
      var s :- SumProbability(m, numberPlayers, numberCoins, historic, combs, k - 1);
      var p :- CombProbability(m, numberPlayers, numberCoins, historic, combs[k - 1], |combs[k - 1]|);
      Success(s + p)
  }

  /** One more combination's probability added to `prob_sum`. */
  lemma SumProbabilityNext(m: Table, numberPlayers: nat, numberCoins: nat, historic: string, combs: seq<seq<nat>>, k: nat)
    requires k < |combs| && SumProbability(m, numberPlayers, numberCoins, historic, combs, k).Success?
    ensures var p := CombProbability(m, numberPlayers, numberCoins, historic, combs[k], |combs[k]|);
            SumProbability(m, numberPlayers, numberCoins, historic, combs, k + 1) ==
              if p.Failure? then Failure(p.error)
              else Success(SumProbability(m, numberPlayers, numberCoins, historic, combs, k).value + p.value)
  {
  }

  /** The fresh `probs_sum`: 0 for every total from 0 to `n - 1`. */
  function ZeroProbs(n: nat): (r: map<string, real>) {
    map s | s in StrRange(0, n) :: 0.0
  }

  /** The fresh `probs_sum` is 0 at every total from 0 to `n - 1`, and nowhere negative. */
  lemma ZeroProbsKeys(n: nat)
    ensures forall i :: 0 <= i < n ==> Str(i) in ZeroProbs(n) && ZeroProbs(n)[Str(i)] == 0.0
    ensures NonNegativeValues(ZeroProbs(n))
  {
    var keys := StrRange(0, n);
    assert forall i :: 0 <= i < n ==> keys[i] == Str(i) && keys[i] in keys;
  }

  /** `prob_sum` for the visible total `total` of a holder of `coin` coins:
      the probabilities of the opponents' combinations that make it up. With
      no player `get_coin_combinations` asks `product` for a negative repeat,
      a `ValueError`. */
  function TotalProbability(m: Table, numberPlayers: nat, numberCoins: nat, historic: string, coin: nat, total: nat): (r: Result<real>)
    ensures numberPlayers == 0 ==> r == Failure(ValueError)
    ensures Healthy(m) && r.Success? ==> r.value >= 0.0
  {
    if numberPlayers == 0 then Failure(ValueError)
    else
      var combs := GetCoinCombinations(numberPlayers - 1, total - coin, numberCoins);
      SumProbability(m, numberPlayers, numberCoins, historic, combs, |combs|)
  }

  /** `probs_sum` and `prob_state` after the first `t` visible totals `sums`
      of a holder of `coin` coins. */
  function CoinSums(m: Table, numberPlayers: nat, numberCoins: nat, historic: string, coin: nat, sums: seq<nat>, t: nat): (r: Result<(map<string, real>, real)>)
    requires t <= |sums|
  {
    if t == 0 then Success((ZeroProbs(numberPlayers * numberCoins + 1), 0.0))
    else
      var acc :- CoinSums(m, numberPlayers, numberCoins, historic, coin, sums, t - 1);
      var probSum :- TotalProbability(m, numberPlayers, numberCoins, historic, coin, sums[t - 1]);
      Success((acc.0[Str(sums[t - 1]) := probSum], acc.1 + probSum))
  }

  /** The totals a holder of `coin` coins sees, `coin` to `coin + (P - 1) * C`. */
  function VisibleSums(numberPlayers: nat, numberCoins: nat, coin: nat): seq<nat> {
    NatRange(coin, (numberPlayers - 1) * numberCoins + 1 + coin)
  }

  /** The keys of `probs_sum` in insertion order: 0 to `P * C`, then the
      visible totals beyond `P * C` (none when `coin <= C`). */
  function ProbsSumKeys(numberPlayers: nat, numberCoins: nat, coin: nat): seq<nat> {
    var n := numberPlayers * numberCoins + 1;
    NatRange(0, n) + NatRange(if coin < n then n else coin, (numberPlayers - 1) * numberCoins + 1 + coin)
  }

  /** One belief: `(prob_sum * prior) / prob_state`. */
  function Posterior(probSum: real, prior: real, probState: real): (r: real)
    requires probState != 0.0
    ensures probSum >= 0.0 && prior >= 0.0 && probState > 0.0 ==> r >= 0.0
  {
    (probSum * prior) / probState
  }

  /** The beliefs after the last loop of `update_beliefs` has assigned the
      first `t` keys: `probs_sum[s] * prior[str(coin)][int(s)] / prob_state`. */
  function AssignBeliefs(beliefs: map<string, real>, keys: seq<nat>, probs: map<string, real>, prior: Prior, coin: nat, probState: real, t: nat): (r: Result<map<string, real>>)
    requires t <= |keys|
    requires forall j :: 0 <= j < |keys| ==> Str(keys[j]) in probs
  {
    if t == 0 then Success(beliefs)
    else
      var b :- AssignBeliefs(beliefs, keys, probs, prior, coin, probState, t - 1);
      var v := keys[t - 1];
      if Str(coin) !in prior then Failure(KeyError)
      else if v >= |prior[Str(coin)]| then Failure(IndexError)
      else if probState == 0.0 then Failure(ZeroDivisionError)
      else Success(b[Str(v) := Posterior(probs[Str(v)], prior[Str(coin)][v], probState)])
  }

  /** One more visible total handled. */
  lemma CoinSumsNext(m: Table, numberPlayers: nat, numberCoins: nat, historic: string, coin: nat, sums: seq<nat>, t: nat,
                     probs: map<string, real>, probState: real)
    requires t < |sums|
    requires var acc := CoinSums(m, numberPlayers, numberCoins, historic, coin, sums, t);
             acc.Success? && acc.value.0 == probs && acc.value.1 == probState
    ensures var p := TotalProbability(m, numberPlayers, numberCoins, historic, coin, sums[t]);
            var r := CoinSums(m, numberPlayers, numberCoins, historic, coin, sums, t + 1);
            (p.Failure? ==> r.Failure? && r.error == p.error) &&
            (p.Success? ==> r.Success? && r.value.0 == probs[Str(sums[t]) := p.value] && r.value.1 == probState + p.value)
  {
  }

  /** `probs_sum` has every total from 0 to `P * C` and every visible total
      handled so far. */
  lemma {:induction false} CoinSumsKeys(m: Table, numberPlayers: nat, numberCoins: nat, historic: string, coin: nat, sums: seq<nat>, t: nat)
    requires t <= |sums| && CoinSums(m, numberPlayers, numberCoins, historic, coin, sums, t).Success?
    ensures var r := CoinSums(m, numberPlayers, numberCoins, historic, coin, sums, t).value;
            HasTotals(r.0, numberPlayers * numberCoins + 1) && HasSums(r.0, sums, t)
  {
    if t == 0 {
      ZeroProbsKeys(numberPlayers * numberCoins + 1);
    } else {
      CoinSumsKeys(m, numberPlayers, numberCoins, historic, coin, sums, t - 1);
      CoinSumsKeysNext(m, numberPlayers, numberCoins, historic, coin, sums, t - 1);
    }
  }

  /** One more visible total keeps the keys of `probs_sum` and adds its own. */
  lemma CoinSumsKeysNext(m: Table, numberPlayers: nat, numberCoins: nat, historic: string, coin: nat, sums: seq<nat>, k: nat)
    requires k < |sums| && CoinSums(m, numberPlayers, numberCoins, historic, coin, sums, k + 1).Success?
    requires var r := CoinSums(m, numberPlayers, numberCoins, historic, coin, sums, k);
             r.Success? && HasTotals(r.value.0, numberPlayers * numberCoins + 1) && HasSums(r.value.0, sums, k)
    ensures var r := CoinSums(m, numberPlayers, numberCoins, historic, coin, sums, k + 1).value;
            HasTotals(r.0, numberPlayers * numberCoins + 1) && HasSums(r.0, sums, k + 1)
  {
    var acc := CoinSums(m, numberPlayers, numberCoins, historic, coin, sums, k).value;
    CoinSumsNext(m, numberPlayers, numberCoins, historic, coin, sums, k, acc.0, acc.1);
    var p := TotalProbability(m, numberPlayers, numberCoins, historic, coin, sums[k]).value;
    ProbsUpdated(acc.0, p, numberPlayers * numberCoins + 1, sums, k);
  }

  /** With non-negative strategies nothing in `probs_sum`, nor `prob_state`,
      is negative. */
  lemma {:induction false} CoinSumsNonNegative(m: Table, numberPlayers: nat, numberCoins: nat, historic: string, coin: nat, sums: seq<nat>, t: nat)
    requires t <= |sums| && CoinSums(m, numberPlayers, numberCoins, historic, coin, sums, t).Success?
    ensures var r := CoinSums(m, numberPlayers, numberCoins, historic, coin, sums, t).value;
            Healthy(m) ==> NonNegativeValues(r.0) && r.1 >= 0.0
  {
    if !Healthy(m) {
    } else if t == 0 {
      ZeroProbsKeys(numberPlayers * numberCoins + 1);
    } else {
      var prev := CoinSums(m, numberPlayers, numberCoins, historic, coin, sums, t - 1);
      CoinSumsNonNegative(m, numberPlayers, numberCoins, historic, coin, sums, t - 1);
      var acc := prev.value;
      assert NonNegativeValues(acc.0) && acc.1 >= 0.0;
      CoinSumsNext(m, numberPlayers, numberCoins, historic, coin, sums, t - 1, acc.0, acc.1);
      var p := TotalProbability(m, numberPlayers, numberCoins, historic, coin, sums[t - 1]);
      assert p.Success? && p.value >= 0.0;
      NonNegativeUpdated(acc.0, Str(sums[t - 1]), p.value);
    }
  }

  /** `probs` has a key for every total below `n`. */
  ghost predicate HasTotals(probs: map<string, real>, n: int) {
    forall i :: 0 <= i < n ==> Str(i) in probs
  }

  /** `probs` has a key for each of the first `t` visible totals. */
  ghost predicate HasSums(probs: map<string, real>, sums: seq<nat>, t: nat)
    requires t <= |sums|
  {
    forall j :: 0 <= j < t ==> Str(sums[j]) in probs
  }

  /** Recording one more visible total in `probs_sum` keeps every key and non-negativity. */
  lemma ProbsUpdated(probs: map<string, real>, p: real, n: int, sums: seq<nat>, t: nat)
    requires t < |sums|
    requires HasTotals(probs, n) && HasSums(probs, sums, t)
    ensures HasTotals(probs[Str(sums[t]) := p], n) && HasSums(probs[Str(sums[t]) := p], sums, t + 1)
  {
  }

  /** Storing a non-negative value keeps a map non-negative. */
  lemma NonNegativeUpdated(probs: map<string, real>, k: string, p: real)
    requires NonNegativeValues(probs) && p >= 0.0
    ensures NonNegativeValues(probs[k := p])
  {
  }

  /** Assigning keeps every earlier belief, adds one for each assigned key,
      and keeps the beliefs non-negative when everything it combines is. */
  lemma {:induction false} AssignBeliefsKeys(beliefs: map<string, real>, keys: seq<nat>, probs: map<string, real>, prior: Prior, coin: nat, probState: real, t: nat)
    requires t <= |keys| && forall j :: 0 <= j < |keys| ==> Str(keys[j]) in probs
    requires AssignBeliefs(beliefs, keys, probs, prior, coin, probState, t).Success?
    ensures var r := AssignBeliefs(beliefs, keys, probs, prior, coin, probState, t).value;
            beliefs.Keys <= r.Keys && (forall j :: 0 <= j < t ==> Str(keys[j]) in r) &&
            (NonNegativeValues(beliefs) && NonNegativeValues(probs) && probState >= 0.0 && PriorNonNegative(prior) ==> NonNegativeValues(r))
  {
    if t > 0 {
      AssignBeliefsKeys(beliefs, keys, probs, prior, coin, probState, t - 1);
    }
  }

  /** Every key of `probs_sum` is there when the beliefs are assigned. */
  lemma ProbsSumKeysPresent(m: Table, numberPlayers: nat, numberCoins: nat, historic: string, coin: nat)
    requires CoinSums(m, numberPlayers, numberCoins, historic, coin, VisibleSums(numberPlayers, numberCoins, coin),
                      |VisibleSums(numberPlayers, numberCoins, coin)|).Success?
    ensures var sums := VisibleSums(numberPlayers, numberCoins, coin);
            var keys := ProbsSumKeys(numberPlayers, numberCoins, coin);
            forall j :: 0 <= j < |keys| ==> Str(keys[j]) in CoinSums(m, numberPlayers, numberCoins, historic, coin, sums, |sums|).value.0
  {
    var sums := VisibleSums(numberPlayers, numberCoins, coin);
    var keys := ProbsSumKeys(numberPlayers, numberCoins, coin);
    var n := numberPlayers * numberCoins + 1;
    CoinSumsKeys(m, numberPlayers, numberCoins, historic, coin, sums, |sums|);
    forall j | 0 <= j < |keys| ensures keys[j] < n || keys[j] in sums {
      if keys[j] >= n {
        assert sums[keys[j] - coin] == keys[j];
      }
    }
  }

  /** Assigning the keys of `probs_sum` gives a belief for every total from 0 to `P * C`. */
  lemma AssignedBeliefsCover(beliefs: map<string, real>, numberPlayers: nat, numberCoins: nat, coin: nat)
    requires forall j :: 0 <= j < |ProbsSumKeys(numberPlayers, numberCoins, coin)| ==>
               Str(ProbsSumKeys(numberPlayers, numberCoins, coin)[j]) in beliefs
    ensures BeliefsCover(beliefs, StrRange(0, numberPlayers * numberCoins + 1))
  {
    var keys := ProbsSumKeys(numberPlayers, numberCoins, coin);
    var sums := StrRange(0, numberPlayers * numberCoins + 1);
    forall s | s in sums ensures s in beliefs {
      var i :| 0 <= i < |sums| && sums[i] == s;
      assert keys[i] == i;
    }
  }

  /** `update_beliefs` at one key: the beliefs of `historic` over every total,
      from the opponents' strategies and the prior row of its coin count. Only
      those beliefs change, afterwards they cover every total, and with
      non-negative strategies and prior they are non-negative. */
  function BeliefsStep(m: Table, prior: Prior, numberPlayers: nat, numberCoins: nat, historic: string): (r: Result<Table>)
    ensures r.Success? ==> historic in m && historic in r.value && r.value == m[historic := r.value[historic]] && BeliefsOnly(m, r.value)
    ensures r.Success? ==> BeliefsCover(r.value[historic].beliefs, StrRange(0, numberPlayers * numberCoins + 1))
    ensures r.Success? && Healthy(m) && PriorNonNegative(prior) ==> Healthy(r.value)
  {
    if historic !in m then Failure(KeyError)
    else if |historic| == 0 then Failure(IndexError)
    else if !('0' <= historic[0] <= '9') then Failure(ValueError)
    else
      var coin := DigitValue(historic[0]);
      var sums := VisibleSums(numberPlayers, numberCoins, coin);
      var acc :- CoinSums(m, numberPlayers, numberCoins, historic, coin, sums, |sums|);
      CoinSumsKeys(m, numberPlayers, numberCoins, historic, coin, sums, |sums|);
      CoinSumsNonNegative(m, numberPlayers, numberCoins, historic, coin, sums, |sums|);
      var keys := ProbsSumKeys(numberPlayers, numberCoins, coin);
      ProbsSumKeysPresent(m, numberPlayers, numberCoins, historic, coin);
      var beliefs :- AssignBeliefs(m[historic].beliefs, keys, acc.0, prior, coin, acc.1, |keys|);
      AssignBeliefsKeys(m[historic].beliefs, keys, acc.0, prior, coin, acc.1, |keys|);
      AssignedBeliefsCover(beliefs, numberPlayers, numberCoins, coin);
      Success(m[historic := m[historic].(beliefs := beliefs)])
  }

  /** `update_beliefs` over `keys`: only beliefs change, every swept key ends
      with a belief for every total, and the invariant is kept. */
  function BeliefsSweep(m: Table, prior: Prior, numberPlayers: nat, numberCoins: nat, keys: seq<string>): (r: Result<Table>)
    ensures r.Success? ==> BeliefsOnly(m, r.value)
    ensures r.Success? ==> AllCovered(r.value, keys, StrRange(0, numberPlayers * numberCoins + 1))
    ensures r.Success? && Healthy(m) && PriorNonNegative(prior) ==> Healthy(r.value)
  {
    if keys == [] then Success(m)
    else
      var prefix := keys[..|keys| - 1];
      var m' :- BeliefsSweep(m, prior, numberPlayers, numberCoins, prefix);
      var r := BeliefsStep(m', prior, numberPlayers, numberCoins, keys[|keys| - 1]);
      if r.Failure? then r
      else
        BeliefsOnlyTrans(m, m', r.value);
        CoverExtended(m', r.value, keys, StrRange(0, numberPlayers * numberCoins + 1));
        r
  }

  /** Every key of `keys` is in `m` with a belief for every total of `sums`. */
  ghost predicate AllCovered(m: Table, keys: seq<string>, sums: seq<string>) {
    forall k :: k in keys ==> k in m && BeliefsCover(m[k].beliefs, sums)
  }

  /** A belief for every total, once there, stays when only beliefs change;
      so covering the last key as well covers them all. */
  lemma CoverExtended(m: Table, m': Table, keys: seq<string>, sums: seq<string>)
    requires |keys| > 0 && BeliefsOnly(m, m') && AllCovered(m, keys[..|keys| - 1], sums)
    requires keys[|keys| - 1] in m' && BeliefsCover(m'[keys[|keys| - 1]].beliefs, sums)
    ensures AllCovered(m', keys, sums)
  {
    var prefix := keys[..|keys| - 1];
    forall k | k in keys ensures k in m' && BeliefsCover(m'[k].beliefs, sums) {
      if k != keys[|keys| - 1] {
        assert k in prefix;
        assert BeliefsGrown(m[k], m'[k]);
      }
    }
  }

  // ---------------------------------------------------------------------
  // update_utilities_of_info_states

  /** The utility loop over `labels`: each action's `util` becomes the stub
      utility of its guess under `beliefs`. */
  function ActionUtils(acts: ActionTable, labels: seq<string>, beliefs: map<string, real>, numberPlayers: nat, sums: seq<string>): (r: ActionTable)
    requires HasActions(acts, labels) && BeliefsCover(beliefs, sums)
    ensures r.Keys == acts.Keys
    ensures forall a :: a in acts ==> r[a].strategy == acts[a].strategy && r[a].cumulativeGain == acts[a].cumulativeGain
    ensures forall a :: a in labels ==> r[a].util == Some(TerminalUtil(beliefs, acts[a].strategy, a, numberPlayers, sums))
    ensures forall a :: a in acts && a !in labels ==> r[a] == acts[a]
  {
    if labels == [] then acts
    else
      var prefix := labels[..|labels| - 1];
      assert forall x :: x in prefix ==> x in labels;
      var acts0 := ActionUtils(acts, prefix, beliefs, numberPlayers, sums);
      var a := labels[|labels| - 1];
      acts0[a := acts0[a].(util := Some(TerminalUtil(beliefs, acts[a].strategy, a, numberPlayers, sums)))]
  }

  /** A guess's utility when it is played with probability `p`, its total
      has belief `b`, and all totals together have belief `mass`. */
  function GuessUtility(p: real, numberPlayers: nat, b: real, mass: real): real {
    p * ((numberPlayers as real) * b - mass)
  }

  /** The utility of one guess that is a total: see `UtilityOfGuess`. */
  lemma UtilityOfOneGuess(acts: ActionTable, labels: seq<string>, beliefs: map<string, real>, numberPlayers: nat, sums: seq<string>, a: string)
    requires HasActions(acts, labels) && BeliefsCover(beliefs, sums) && Distinct(sums)
    requires a in labels && a in sums
    ensures a in beliefs &&
            ActionUtils(acts, labels, beliefs, numberPlayers, sums)[a].util ==
              Some(GuessUtility(acts[a].strategy, numberPlayers, beliefs[a], BeliefMass(beliefs, sums)))
  {
    var t := TerminalUtil(beliefs, acts[a].strategy, a, numberPlayers, sums);
    StubUtilClosedForm(beliefs, acts[a].strategy, a, numberPlayers, sums);
    assert t == GuessUtility(acts[a].strategy, numberPlayers, beliefs[a], BeliefMass(beliefs, sums));
    assert ActionUtils(acts, labels, beliefs, numberPlayers, sums)[a].util == Some(t);
  }

  /** The utility of each guess in closed form: its strategy times `P`
      times the belief that the total is the guess, less the whole belief
      mass, which is what the stub's payoff of `P - 1` for a hit and `-1`
      for a miss adds up to over duplicate-free totals `sums`. */
  lemma UtilityOfGuess(acts: ActionTable, labels: seq<string>, beliefs: map<string, real>, numberPlayers: nat, sums: seq<string>)
    requires HasActions(acts, labels) && BeliefsCover(beliefs, sums) && Distinct(sums)
    requires forall a :: a in labels ==> a in sums
    ensures forall a :: a in labels ==>
              a in beliefs &&
              ActionUtils(acts, labels, beliefs, numberPlayers, sums)[a].util ==
                Some(GuessUtility(acts[a].strategy, numberPlayers, beliefs[a], BeliefMass(beliefs, sums)))
  {
    forall a | a in labels
      ensures a in beliefs &&
              ActionUtils(acts, labels, beliefs, numberPlayers, sums)[a].util ==
                Some(GuessUtility(acts[a].strategy, numberPlayers, beliefs[a], BeliefMass(beliefs, sums)))
    {
      UtilityOfOneGuess(acts, labels, beliefs, numberPlayers, sums, a);
    }
  }

  /** The body of `update_utilities_of_info_states(historic)` on the record
      `st` of `historic`: a utility for every legal guess, in the closed form
      of `UtilityOfGuess`, and their strategy-weighted sum; `KeyError` when a
      legal guess has no action or, with some legal guess, a total has no
      belief. Only utilities change. */
  function RecordUtilities(st: InfoSetData, numberPlayers: nat, numberCoins: nat, historic: string): (r: Result<InfoSetData>)
    ensures r.Failure? ==> r.error == KeyError
    ensures r.Success? ==> SameButUtils(st, r.value) && r.value.expectedUtil.Some? &&
                           HasUtils(r.value.actions, PossibleActions(numberPlayers, numberCoins, historic))
    ensures r.Success? ==>
              var sums := StrRange(0, numberPlayers * numberCoins + 1);
              forall a :: a in PossibleActions(numberPlayers, numberCoins, historic) ==>
                a in st.beliefs && a in st.actions && BeliefsCover(st.beliefs, sums) &&
                r.value.actions[a].util ==
                  Some(GuessUtility(st.actions[a].strategy, numberPlayers, st.beliefs[a], BeliefMass(st.beliefs, sums)))
  {
    var legal := PossibleActions(numberPlayers, numberCoins, historic);
    var sums := StrRange(0, numberPlayers * numberCoins + 1);
    if !HasActions(st.actions, legal) then Failure(KeyError)
    else if legal != [] && !BeliefsCover(st.beliefs, sums) then Failure(KeyError)
    else if legal == [] then Success(st.(expectedUtil := Some(0.0)))
    else
      var acts := ActionUtils(st.actions, legal, st.beliefs, numberPlayers, sums);
      assert HasUtils(acts, legal);
      PossibleActionsAreTotals(numberPlayers, numberCoins, historic);
      StrRangeDistinct(0, numberPlayers * numberCoins + 1);
      UtilityOfGuess(st.actions, legal, st.beliefs, numberPlayers, sums);
      Success(st.(actions := acts, expectedUtil := Some(ExpectedUtil(acts, legal))))
  }

  /** `update_utilities_of_info_states(historic)`: `KeyError` for a key that
      is not registered, otherwise `RecordUtilities` on its record. */
  function UtilitiesStep(m: Table, numberPlayers: nat, numberCoins: nat, historic: string): (r: Result<Table>)
    ensures r.Failure? ==> r.error == KeyError
    ensures r.Success? ==> historic in m && RecordUtilities(m[historic], numberPlayers, numberCoins, historic).Success? &&
                           r.value == m[historic := RecordUtilities(m[historic], numberPlayers, numberCoins, historic).value]
    ensures r.Success? ==> UtilsOnly(m, r.value)
  {
    if historic !in m then Failure(KeyError)
    else
      var d :- RecordUtilities(m[historic], numberPlayers, numberCoins, historic);
      Success(m[historic := d])
  }

  /** The utility calls over `keys`, in order: only utilities change. */
  function UtilitiesSweep(m: Table, numberPlayers: nat, numberCoins: nat, keys: seq<string>): (r: Result<Table>)
    ensures r.Success? ==> UtilsOnly(m, r.value)
    ensures r.Success? && Healthy(m) ==> Healthy(r.value)
  {
    if keys == [] then Success(m)
    else
      var m' :- UtilitiesSweep(m, numberPlayers, numberCoins, keys[..|keys| - 1]);
      var r := UtilitiesStep(m', numberPlayers, numberCoins, keys[|keys| - 1]);
      if r.Failure? then r
      else
        UtilsOnlyTrans(m, m', r.value);
        if Healthy(m) then UtilsOnlyHealthy(m, r.value); r else r
  }

  /** Every key of `keys` is registered, has an action for each legal
      guess and a belief for every total. */
  predicate UtilitiesReady(m: Table, numberPlayers: nat, numberCoins: nat, keys: seq<string>) {
    forall k :: k in keys ==>
      k in m && HasActions(m[k].actions, PossibleActions(numberPlayers, numberCoins, k)) &&
      BeliefsCover(m[k].beliefs, StrRange(0, numberPlayers * numberCoins + 1))
  }

  /** The utility calls never raise on keys that are ready. */
  lemma {:induction false} UtilitiesSweepSucceeds(m: Table, numberPlayers: nat, numberCoins: nat, keys: seq<string>)
    requires UtilitiesReady(m, numberPlayers, numberCoins, keys)
    ensures UtilitiesSweep(m, numberPlayers, numberCoins, keys).Success?
  {
    if keys != [] {
      var prefix := keys[..|keys| - 1];
      assert forall k :: k in prefix ==> k in keys;
      UtilitiesSweepSucceeds(m, numberPlayers, numberCoins, prefix);
      var m' := UtilitiesSweep(m, numberPlayers, numberCoins, prefix).value;
      var k := keys[|keys| - 1];
      assert k in keys && SameButUtils(m[k], m'[k]);
      assert RecordUtilities(m'[k], numberPlayers, numberCoins, k).Success?;
    }
  }

  // ---------------------------------------------------------------------
  // calc_infoset_likelihoods

  /** What the earlier key `prev`, with record `d`, adds to a likelihood:
      its own likelihood times its strategy for its last character. */
  function Contribution(d: InfoSetData, prev: string): real
    requires |prev| >= 1 && prev[|prev| - 1..] in d.actions && d.likelihood.Some?
  {
    d.likelihood.value * d.actions[prev[|prev| - 1..]].strategy
  }

  /** One `state.likelihood += prev.likelihood * prev.actions[prev[-1]].strategy`,
      reading the table as it stands (`prev` may be `state` itself). */
  function LikelihoodTerm(m: Table, historic: string, prev: string): (r: Result<Table>)
    requires historic in m && m[historic].likelihood.Some? && |prev| >= 1
    ensures r.Failure? ==> r.error == KeyError || r.error == TypeError
    ensures r.Success? && Healthy(m) ==> Healthy(r.value)
  {
    if prev !in m then Failure(KeyError)
    else if prev[|prev| - 1..] !in m[prev].actions then Failure(KeyError)
    else if m[prev].likelihood.None? then Failure(TypeError)
    else
      Success(m[historic := m[historic].(likelihood := Some(m[historic].likelihood.value + Contribution(m[prev], prev)))])
  }

  /** The inner loop over the first `k` earlier keys `prevs`. */
  function LikelihoodTerms(m: Table, historic: string, prevs: seq<string>, k: nat): (r: Result<Table>)
    requires historic in m && m[historic].likelihood.Some? && k <= |prevs|
    requires forall j :: 0 <= j < |prevs| ==> |prevs[j]| >= 1
    ensures r.Failure? ==> r.error == KeyError || r.error == TypeError
    ensures r.Success? ==> historic in r.value && r.value == m[historic := r.value[historic]] && LikelihoodSet(m[historic], r.value[historic])
    ensures r.Success? && Healthy(m) ==> Healthy(r.value)
  {
    if k == 0 then Success(m)
    else
      var m' :- LikelihoodTerms(m, historic, prevs, k - 1);
      LikelihoodTerm(m', historic, prevs[k - 1])
  }

  /** `calc_infoset_likelihoods` at one key: `1 / (C + 1)` for a one-character
      key, otherwise the sum over the earlier keys of their likelihood times
      their strategy for the last character of the earlier key. */
  function LikelihoodStep(m: Table, numberCoins: nat, historic: string): (r: Result<Table>)
    ensures r.Failure? ==> r.error == KeyError || r.error == TypeError
    ensures r.Success? ==> historic in m && historic in r.value && r.value == m[historic := r.value[historic]] && LikelihoodsOnly(m, r.value)
    ensures r.Success? ==> r.value[historic].likelihood.Some?
    ensures r.Success? && |historic| == 1 ==> r.value[historic].likelihood == Some(1.0 / ((numberCoins + 1) as real))
    ensures r.Success? && Healthy(m) ==> Healthy(r.value)
  {
    if historic !in m then Failure(KeyError)
    else
      var m0 := m[historic := m[historic].(likelihood := Some(0.0))];
      if |historic| == 1 then
        var r := m[historic := m[historic].(likelihood := Some(1.0 / ((numberCoins + 1) as real)))];
        OneLikelihoodSet(m, historic, r);
        Success(r)
      else
        var prevs := GetPrevInfoStatesHist(numberCoins, historic).value;
        assert forall j :: 0 <= j < |prevs| ==> |prevs[j]| >= 1 by {
          PrevInfoStatesAreCounts(numberCoins, historic);
        }
        var r := LikelihoodTerms(m0, historic, prevs, |prevs|);
        if r.Failure? then r
        else
          LikelihoodReset(m, historic, r.value);
          r
  }

  /** Setting one record's likelihood changes only likelihoods, and keeps
      the invariant when the new likelihood is not negative. */
  lemma OneLikelihoodSet(m: Table, historic: string, r: Table)
    requires historic in m && historic in r && r == m[historic := r[historic]]
    requires LikelihoodSet(m[historic], r[historic])
    ensures LikelihoodsOnly(m, r)
    ensures Healthy(m) && r[historic].likelihood.value >= 0.0 ==> Healthy(r)
  {
    if Healthy(m) && r[historic].likelihood.value >= 0.0 {
      assert HealthyRecord(m[historic]);
    }
  }

  /** A sum computed from a zero likelihood: only that likelihood changed
      from `m`, and the invariant is kept. */
  lemma LikelihoodReset(m: Table, historic: string, r: Table)
    requires historic in m
    requires var m0 := m[historic := m[historic].(likelihood := Some(0.0))];
             historic in r && r == m0[historic := r[historic]] && LikelihoodSet(m0[historic], r[historic]) &&
             (Healthy(m0) ==> Healthy(r))
    ensures r == m[historic := r[historic]] && LikelihoodsOnly(m, r)
    ensures Healthy(m) ==> Healthy(r)
  {
    var m0 := m[historic := m[historic].(likelihood := Some(0.0))];
    assert r == m[historic := r[historic]];
    OneLikelihoodSet(m, historic, r);
    if Healthy(m) {
      OneLikelihoodSet(m, historic, m0);
    }
  }

  /** One term in closed form: it fails exactly when `prev`, its action for
      its own last character or its likelihood is missing, and otherwise
      adds the product of the two to the likelihood of `historic`. */
  lemma LikelihoodTermValue(m: Table, historic: string, prev: string)
    requires historic in m && m[historic].likelihood.Some? && |prev| >= 1
    ensures LikelihoodTerm(m, historic, prev).Success? <==>
              prev in m && prev[|prev| - 1..] in m[prev].actions && m[prev].likelihood.Some?
    ensures LikelihoodTerm(m, historic, prev).Success? ==>
              LikelihoodTerm(m, historic, prev).value[historic].likelihood ==
                Some(m[historic].likelihood.value + Contribution(m[prev], prev))
  {
  }

  /** One term added to two keys other than `prev`, in two tables that
      agree on `prev` and on the two keys' likelihoods, fails or succeeds
      alike and leaves the two likelihoods equal. */
  lemma LikelihoodTermAgrees(m1: Table, m2: Table, h1: string, h2: string, prev: string)
    requires h1 in m1 && h2 in m2 && |prev| >= 1 && prev != h1 && prev != h2
    requires m1[h1].likelihood.Some? && m1[h1].likelihood == m2[h2].likelihood
    requires (prev in m1 <==> prev in m2) && (prev in m1 ==> m1[prev] == m2[prev])
    ensures var r1 := LikelihoodTerm(m1, h1, prev);
            var r2 := LikelihoodTerm(m2, h2, prev);
            r1.Success? == r2.Success? && (r1.Success? ==> r1.value[h1].likelihood == r2.value[h2].likelihood)
  {
    LikelihoodTermValue(m1, h1, prev);
    LikelihoodTermValue(m2, h2, prev);
    if LikelihoodTerm(m1, h1, prev).Success? {
      assert m1[prev] == m2[prev] && m1[h1].likelihood.value == m2[h2].likelihood.value;
    }
  }

  /** Two keys summing over the same earlier keys, neither of them among
      those, reach the same total from the same table. */
  lemma {:induction false} LikelihoodTermsAgree(m: Table, h1: string, h2: string, prevs: seq<string>, k: nat)
    requires h1 in m && h2 in m && k <= |prevs|
    requires forall j :: 0 <= j < |prevs| ==> |prevs[j]| >= 1
    requires h1 !in prevs && h2 !in prevs
    ensures var r1 := LikelihoodTerms(m[h1 := m[h1].(likelihood := Some(0.0))], h1, prevs, k);
            var r2 := LikelihoodTerms(m[h2 := m[h2].(likelihood := Some(0.0))], h2, prevs, k);
            r1.Success? == r2.Success? && (r1.Success? ==> r1.value[h1].likelihood == r2.value[h2].likelihood)
  {
    if k > 0 {
      LikelihoodTermsAgree(m, h1, h2, prevs, k - 1);
      var m1 := m[h1 := m[h1].(likelihood := Some(0.0))];
      var m2 := m[h2 := m[h2].(likelihood := Some(0.0))];
      var r1 := LikelihoodTerms(m1, h1, prevs, k - 1);
      var r2 := LikelihoodTerms(m2, h2, prevs, k - 1);
      var p := prevs[k - 1];
      assert p in prevs && p != h1 && p != h2;
      if r1.Success? {
        assert p in m ==> r1.value[p] == m[p] && r2.value[p] == m[p];
        LikelihoodTermAgrees(r1.value, r2.value, h1, h2, p);
      }
    }
  }

  /** The earlier keys of every key longer than one character are the
      counts `0` to `C - 1` alone (`historic[-1:1]` is empty), so every such
      key that is not itself one of them gets the same likelihood. */
  lemma NonRootLikelihoodsAgree(m: Table, numberCoins: nat, h1: string, h2: string)
    requires h1 in m && h2 in m && |h1| != 1 && |h2| != 1
    requires h1 !in StrRange(0, numberCoins) && h2 !in StrRange(0, numberCoins)
    ensures var r1 := LikelihoodStep(m, numberCoins, h1);
            var r2 := LikelihoodStep(m, numberCoins, h2);
            r1.Success? == r2.Success? && (r1.Success? ==> r1.value[h1].likelihood == r2.value[h2].likelihood)
  {
    PrevInfoStatesAreCounts(numberCoins, h1);
    PrevInfoStatesAreCounts(numberCoins, h2);
    LikelihoodTermsAgree(m, h1, h2, StrRange(0, numberCoins), numberCoins);
  }

  /** `calc_infoset_likelihoods` over `keys`: only likelihoods change, every
      swept key has one, every one-character key has `1 / (C + 1)`, and the
      invariant is kept. */
  function LikelihoodsSweep(m: Table, numberCoins: nat, keys: seq<string>): (r: Result<Table>)
    ensures r.Success? ==> LikelihoodsOnly(m, r.value)
    ensures r.Success? ==> forall k :: k in keys ==> k in r.value && r.value[k].likelihood.Some?
    ensures r.Success? ==> forall k :: k in keys && |k| == 1 ==> k in r.value && r.value[k].likelihood == Some(1.0 / ((numberCoins + 1) as real))
    ensures r.Success? && Healthy(m) ==> Healthy(r.value)
  {
    if keys == [] then Success(m)
    else
      var prefix, last := keys[..|keys| - 1], keys[|keys| - 1];
      var m' :- LikelihoodsSweep(m, numberCoins, prefix);
      var r := LikelihoodStep(m', numberCoins, last);
      if r.Failure? then r
      else
        LikelihoodsOnlyTrans(m, m', r.value);
        assert forall k :: k in keys ==> k in prefix || k == last;
        r
  }

  // ---------------------------------------------------------------------
  // calc_gains

  /** The first exception the gain loop over `labels` raises: `KeyError` for
      a guess without an action, `TypeError` when a utility, the expected
      utility or the likelihood is still `None`. */
  function GainsCheck(acts: ActionTable, labels: seq<string>, expectedUtil: Option<real>, likelihood: Option<real>): (r: Outcome)
    ensures r.Pass? ==> HasUtils(acts, labels) && (labels != [] ==> expectedUtil.Some? && likelihood.Some?)
    ensures r.Fail? ==> r.error == KeyError || r.error == TypeError
  {
    if labels == [] then Pass
    else
      var prefix := labels[..|labels| - 1];
      var a := labels[|labels| - 1];
      var r := GainsCheck(acts, prefix, expectedUtil, likelihood);
      if r.Fail? then r
      else if a !in acts then Fail(KeyError)
      else if acts[a].util.None? || expectedUtil.None? || likelihood.None? then Fail(TypeError)
      else
        assert forall x :: x in labels ==> x in prefix || x == a;
        Pass
  }

  /** The body of `calc_gains(historic)` on the record `st` of `historic`:
      the new record and the sum of its instantaneous gains, which is never
      negative. Only cumulative gains change, each legal guess's by its
      clipped gain times the likelihood, and with a healthy record none goes
      down. */
  function RecordGains(st: InfoSetData, numberPlayers: nat, numberCoins: nat, historic: string): (r: Result<(InfoSetData, real)>)
    ensures r.Failure? ==> r.error == KeyError || r.error == TypeError
    ensures r.Success? ==> r.value.1 >= 0.0 && SameButGains(st, r.value.0)
    ensures r.Success? && HealthyRecord(st) ==> HealthyRecord(r.value.0) && GainsGrew(st, r.value.0)
    ensures r.Success? && PossibleActions(numberPlayers, numberCoins, historic) != [] ==>
              var legal := PossibleActions(numberPlayers, numberCoins, historic);
              HasUtils(st.actions, legal) && st.expectedUtil.Some? && st.likelihood.Some? &&
              r.value.1 == GainTotal(st.actions, legal, st.expectedUtil.value) &&
              forall a :: a in legal ==>
                r.value.0.actions[a].cumulativeGain ==
                  st.actions[a].cumulativeGain + Scaled(Gain(st.actions[a].util.value, st.expectedUtil.value), st.likelihood.value)
  {
    var legal := PossibleActions(numberPlayers, numberCoins, historic);
    var check := GainsCheck(st.actions, legal, st.expectedUtil, st.likelihood);
    if check.Fail? then Failure(check.error)
    else if legal == [] then Success((st, 0.0))
    else
      var added := AddGains(st.actions, legal, st.expectedUtil.value, st.likelihood.value);
      PossibleActionsAscending(numberPlayers, numberCoins, historic);
      AddGainsClosedForm(st.actions, legal, st.expectedUtil.value, st.likelihood.value);
      Success((st.(actions := added.0), added.1))
  }

  /** `calc_gains(historic)`: `KeyError` for a key that is not registered,
      otherwise `RecordGains` on its record. */
  function GainsStep(m: Table, numberPlayers: nat, numberCoins: nat, historic: string): (r: Result<(Table, real)>)
    ensures r.Failure? ==> r.error == KeyError || r.error == TypeError
    ensures r.Success? ==> historic in m && RecordGains(m[historic], numberPlayers, numberCoins, historic).Success? &&
                           r.value == (m[historic := RecordGains(m[historic], numberPlayers, numberCoins, historic).value.0],
                                       RecordGains(m[historic], numberPlayers, numberCoins, historic).value.1)
    ensures r.Success? ==> r.value.1 >= 0.0 && GainsOnly(m, r.value.0)
    ensures r.Success? && Healthy(m) ==> Healthy(r.value.0) && GainsGrewAll(m, r.value.0)
  {
    if historic !in m then Failure(KeyError)
    else
      var d :- RecordGains(m[historic], numberPlayers, numberCoins, historic);
      Success((m[historic := d.0], d.1))
  }

  /** `calc_gains` over `keys`: the new table and `totalGain`, which is
      never negative. Only cumulative gains change, and under the invariant
      none goes down. */
  function GainsSweep(m: Table, numberPlayers: nat, numberCoins: nat, keys: seq<string>): (r: Result<(Table, real)>)
    ensures r.Failure? ==> r.error == KeyError || r.error == TypeError
    ensures r.Success? ==> r.value.1 >= 0.0
    ensures r.Success? ==> GainsOnly(m, r.value.0)
    ensures r.Success? && Healthy(m) ==> Healthy(r.value.0) && GainsGrewAll(m, r.value.0)
  {
    if keys == [] then Success((m, 0.0))
    else
      var acc :- GainsSweep(m, numberPlayers, numberCoins, keys[..|keys| - 1]);
      var step :- GainsStep(acc.0, numberPlayers, numberCoins, keys[|keys| - 1]);
      GainsOnlyTrans(m, acc.0, step.0);
      Success((step.0, acc.1 + step.1))
  }

  // ---------------------------------------------------------------------
  // update_strat

  /** `update_strat` at one key: every legal guess's strategy becomes its
      cumulative gain over their sum; `KeyError` for a guess without an
      action, `ZeroDivisionError` when the sum is 0. Only strategies change,
      and the invariant is kept. */
  function StrategiesStep(m: Table, numberPlayers: nat, numberCoins: nat, historic: string): (r: Result<Table>)
    ensures r.Failure? ==> r.error == KeyError || r.error == ZeroDivisionError
    ensures r.Success? ==> historic in m && historic in r.value && r.value == m[historic := r.value[historic]] && StrategiesOnly(m, r.value)
    ensures r.Success? ==> HasActions(m[historic].actions, PossibleActions(numberPlayers, numberCoins, historic))
    ensures r.Success? && Healthy(m) ==> Healthy(r.value)
  {
    if historic !in m then Failure(KeyError)
    else
      var st := m[historic];
      var legal := PossibleActions(numberPlayers, numberCoins, historic);
      if !HasActions(st.actions, legal) then Failure(KeyError)
      else if legal == [] then Success(m)
      else
        var totGains := CumulativeGainTotal(st.actions, legal);
        if totGains == 0.0 then Failure(ZeroDivisionError)
        else
          NonNegativeTotal(st.actions, legal, m, historic);
          Success(m[historic := st.(actions := Renormalized(st.actions, legal, totGains))])
  }

  /** Under the invariant a record's total cumulative gain is not negative,
      and each of its strategies after the update is a share of a positive total. */
  lemma NonNegativeTotal(acts: ActionTable, labels: seq<string>, m: Table, historic: string)
    requires HasActions(acts, labels) && historic in m && acts == m[historic].actions
    ensures Healthy(m) ==> CumulativeGainTotal(acts, labels) >= 0.0
    ensures Healthy(m) && CumulativeGainTotal(acts, labels) != 0.0 ==>
              forall a :: a in labels ==> Share(acts[a].cumulativeGain, CumulativeGainTotal(acts, labels)) >= 0.0
  {
    if Healthy(m) {
      assert HealthyRecord(m[historic]);
      CumulativeGainTotalAtLeast(acts, labels, 0.0);
      var tot := CumulativeGainTotal(acts, labels);
      if tot != 0.0 {
        forall a | a in labels ensures Share(acts[a].cumulativeGain, tot) >= 0.0 {
          SharePositive(acts[a].cumulativeGain, tot);
        }
      }
    }
  }

  /** A sum of non-negative cumulative gains with one positive term is positive. */
  lemma {:induction false} CumulativeGainTotalPositive(acts: ActionTable, labels: seq<string>, a: string)
    requires HasActions(acts, labels) && a in labels
    requires forall x :: x in labels ==> acts[x].cumulativeGain >= 0.0
    requires acts[a].cumulativeGain > 0.0
    ensures CumulativeGainTotal(acts, labels) > 0.0
  {
    var prefix, last := labels[..|labels| - 1], labels[|labels| - 1];
    assert forall x :: x in prefix ==> x in labels;
    CumulativeGainTotalAtLeast(acts, prefix, 0.0);
    if last != a {
      assert a in prefix;
      CumulativeGainTotalPositive(acts, prefix, a);
    }
  }

  /** Under the invariant, regret matching turns the legal guesses of a key
      into a probability distribution, every guess with a positive
      cumulative gain keeps a positive strategy, and it divides by zero
      only when no legal guess has gained anything. */
  lemma StrategiesStepIsDistribution(m: Table, numberPlayers: nat, numberCoins: nat, historic: string)
    requires Healthy(m) && historic in m
    requires PossibleActions(numberPlayers, numberCoins, historic) != []
    requires HasActions(m[historic].actions, PossibleActions(numberPlayers, numberCoins, historic))
    ensures var r := StrategiesStep(m, numberPlayers, numberCoins, historic);
            var legal := PossibleActions(numberPlayers, numberCoins, historic);
            (r.Failure? <==> forall a :: a in legal ==> m[historic].actions[a].cumulativeGain == 0.0) &&
            (r.Success? ==> IsDistribution(r.value[historic].actions, legal) &&
                            forall a :: a in legal && m[historic].actions[a].cumulativeGain > 0.0 ==>
                              r.value[historic].actions[a].strategy > 0.0)
  {
    var st := m[historic];
    var legal := PossibleActions(numberPlayers, numberCoins, historic);
    assert HealthyRecord(st);
    CumulativeGainTotalAtLeast(st.actions, legal, 0.0);
    if exists a :: a in legal && st.actions[a].cumulativeGain != 0.0 {
      var a :| a in legal && st.actions[a].cumulativeGain != 0.0;
      CumulativeGainTotalPositive(st.actions, legal, a);
      RenormalizedIsDistribution(st.actions, legal);
    } else {
      ZeroGainsTotal(st.actions, legal);
    }
  }

  /** Cumulative gains that are all zero add up to zero. */
  lemma {:induction false} ZeroGainsTotal(acts: ActionTable, labels: seq<string>)
    requires HasActions(acts, labels)
    requires forall a :: a in labels ==> acts[a].cumulativeGain == 0.0
    ensures CumulativeGainTotal(acts, labels) == 0.0
  {
    if labels != [] {
      var prefix := labels[..|labels| - 1];
      assert forall x :: x in prefix ==> x in labels;
      ZeroGainsTotal(acts, prefix);
    }
  }

  /** `update_strat` over `keys`: only strategies change, and the invariant is kept. */
  function StrategiesSweep(m: Table, numberPlayers: nat, numberCoins: nat, keys: seq<string>): (r: Result<Table>)
    ensures r.Failure? ==> r.error == KeyError || r.error == ZeroDivisionError
    ensures r.Success? ==> StrategiesOnly(m, r.value)
    ensures r.Success? && Healthy(m) ==> Healthy(r.value)
  {
    if keys == [] then Success(m)
    else
      var m' :- StrategiesSweep(m, numberPlayers, numberCoins, keys[..|keys| - 1]);
      var r := StrategiesStep(m', numberPlayers, numberCoins, keys[|keys| - 1]);
      if r.Failure? then r
      else
        StrategiesOnlyTrans(m, m', r.value);
        r
  }

  /** After a sweep under the invariant every swept key with a legal guess
      plays a probability distribution over its legal guesses. */
  lemma {:induction false} StrategiesSweepDistributions(m: Table, numberPlayers: nat, numberCoins: nat, keys: seq<string>)
    requires Healthy(m) && StrategiesSweep(m, numberPlayers, numberCoins, keys).Success?
    ensures var r := StrategiesSweep(m, numberPlayers, numberCoins, keys).value;
            forall k :: k in keys && PossibleActions(numberPlayers, numberCoins, k) != [] ==>
              k in r && HasActions(r[k].actions, PossibleActions(numberPlayers, numberCoins, k)) &&
              IsDistribution(r[k].actions, PossibleActions(numberPlayers, numberCoins, k))
  {
    if keys != [] {
      var prefix, last := keys[..|keys| - 1], keys[|keys| - 1];
      StrategiesSweepDistributions(m, numberPlayers, numberCoins, prefix);
      var m' := StrategiesSweep(m, numberPlayers, numberCoins, prefix).value;
      var step := StrategiesStep(m', numberPlayers, numberCoins, last);
      assert StrategiesSweep(m, numberPlayers, numberCoins, keys) == step;
      var r := step.value;
      if PossibleActions(numberPlayers, numberCoins, last) != [] {
        StrategiesStepIsDistribution(m', numberPlayers, numberCoins, last);
      }
      forall k | k in keys && k != last && PossibleActions(numberPlayers, numberCoins, k) != []
        ensures k in r && HasActions(r[k].actions, PossibleActions(numberPlayers, numberCoins, k)) &&
                IsDistribution(r[k].actions, PossibleActions(numberPlayers, numberCoins, k))
      {
        assert k in prefix;
      }
    }
  }

  // ---------------------------------------------------------------------
  // One iteration of the training loop of `main`

  /** The first part of an iteration: `update_beliefs`, the utility calls
      from the longest key down, `calc_infoset_likelihoods`, then
      `calc_gains`, whose total is the iteration's gain; the first exception
      stops it. */
  function GainPhasesOf(m: Table, prior: Prior, numberPlayers: nat, numberCoins: nat, keys: seq<string>): (r: Result<(Table, real)>)
    ensures r.Success? ==> r.value.1 >= 0.0
    ensures r.Success? && Healthy(m) && PriorNonNegative(prior) ==> Healthy(r.value.0)
  {
    var b :- BeliefsSweep(m, prior, numberPlayers, numberCoins, keys);
    var u :- UtilitiesSweep(b, numberPlayers, numberCoins, Reversed(keys));
    var l :- LikelihoodsSweep(u, numberCoins, keys);
    GainsSweep(l, numberPlayers, numberCoins, keys)
  }

  /** A whole iteration: the gain phases, then `update_strat`; the table it
      leaves and the iteration's total gain. */
  function IterationOf(m: Table, prior: Prior, numberPlayers: nat, numberCoins: nat, keys: seq<string>): (r: Result<(Table, real)>)
    ensures r.Success? ==> r.value.1 >= 0.0
    ensures r.Success? && Healthy(m) && PriorNonNegative(prior) ==> Healthy(r.value.0)
  {
    var g :- GainPhasesOf(m, prior, numberPlayers, numberCoins, keys);
    var s :- StrategiesSweep(g.0, numberPlayers, numberCoins, keys);
    Success((s, g.1))
  }

  /** Iteration `j` turned `tables[j]` into `tables[j + 1]` with total gain `gains[j]`. */
  ghost predicate IterationRan(tables: seq<Table>, gains: seq<real>, prior: Prior, numberPlayers: nat, numberCoins: nat, keys: seq<string>, j: int) {
    0 <= j < |tables| - 1 && j < |gains| &&
    IterationOf(tables[j], prior, numberPlayers, numberCoins, keys) == Success((tables[j + 1], gains[j]))
  }

  /** Every table but the last was turned into the next by one iteration. */
  ghost predicate Iterated(tables: seq<Table>, gains: seq<real>, prior: Prior, numberPlayers: nat, numberCoins: nat, keys: seq<string>) {
    forall j :: 0 <= j < |tables| - 1 ==> IterationRan(tables, gains, prior, numberPlayers, numberCoins, keys, j)
  }

  /** A whole iteration from `m` after its gain phases succeeded: it
      succeeds or fails as its `update_strat` does. */
  lemma IterationOfPhases(m: Table, prior: Prior, numberPlayers: nat, numberCoins: nat, keys: seq<string>, gained: Table, gain: real)
    requires GainPhasesOf(m, prior, numberPlayers, numberCoins, keys) == Success((gained, gain))
    ensures var s := StrategiesSweep(gained, numberPlayers, numberCoins, keys);
            s.Success? ==> IterationOf(m, prior, numberPlayers, numberCoins, keys) == Success((s.value, gain))
    ensures var s := StrategiesSweep(gained, numberPlayers, numberCoins, keys);
            s.Failure? ==> IterationOf(m, prior, numberPlayers, numberCoins, keys) == Failure(s.error)
  {
  }

  /** An iteration of a run is still one after the run is extended. */
  lemma IterationRanExtended(tables: seq<Table>, gains: seq<real>, prior: Prior, numberPlayers: nat, numberCoins: nat, keys: seq<string>,
                             m': Table, gain: real, j: int)
    requires IterationRan(tables, gains, prior, numberPlayers, numberCoins, keys, j)
    ensures IterationRan(tables + [m'], gains + [gain], prior, numberPlayers, numberCoins, keys, j)
  {
    var ts, gs := tables + [m'], gains + [gain];
    assert ts[j] == tables[j] && ts[j + 1] == tables[j + 1] && gs[j] == gains[j];
  }

  /** One more iteration, from the last table, extends the run. */
  lemma IteratedStep(tables: seq<Table>, gains: seq<real>, prior: Prior, numberPlayers: nat, numberCoins: nat, keys: seq<string>,
                     m': Table, gain: real)
    requires |tables| >= 1 && |gains| == |tables| - 1
    requires Iterated(tables, gains, prior, numberPlayers, numberCoins, keys)
    requires IterationOf(tables[|tables| - 1], prior, numberPlayers, numberCoins, keys) == Success((m', gain))
    ensures Iterated(tables + [m'], gains + [gain], prior, numberPlayers, numberCoins, keys)
  {
    var ts, gs := tables + [m'], gains + [gain];
    forall j | 0 <= j < |ts| - 1 ensures IterationRan(ts, gs, prior, numberPlayers, numberCoins, keys, j) {
      if j < |tables| - 1 {
        IterationRanExtended(tables, gains, prior, numberPlayers, numberCoins, keys, m', gain, j);
      } else {
        assert ts[j] == tables[|tables| - 1] && ts[j + 1] == m' && gs[j] == gain;
      }
    }
  }

  /** A run of iterations from `m0` that has reached `m`. */
  ghost predicate RanFrom(tables: seq<Table>, gains: seq<real>, prior: Prior, numberPlayers: nat, numberCoins: nat, keys: seq<string>,
                          m0: Table, m: Table) {
    |tables| >= 1 && |gains| == |tables| - 1 && tables[0] == m0 && tables[|tables| - 1] == m &&
    Iterated(tables, gains, prior, numberPlayers, numberCoins, keys)
  }

  /** One more successful iteration from `m` extends a run that has reached it. */
  lemma RanFromStep(tables: seq<Table>, gains: seq<real>, prior: Prior, numberPlayers: nat, numberCoins: nat, keys: seq<string>,
                    m0: Table, m: Table, gained: Table, gain: real, m': Table)
    requires RanFrom(tables, gains, prior, numberPlayers, numberCoins, keys, m0, m)
    requires GainPhasesOf(m, prior, numberPlayers, numberCoins, keys) == Success((gained, gain))
    requires StrategiesSweep(gained, numberPlayers, numberCoins, keys) == Success(m')
    ensures RanFrom(tables + [m'], gains + [gain], prior, numberPlayers, numberCoins, keys, m0, m')
  {
    IterationOfPhases(m, prior, numberPlayers, numberCoins, keys, gained, gain);
    IteratedStep(tables, gains, prior, numberPlayers, numberCoins, keys, m', gain);
  }

  /** The run stopped on an iteration from the last table that raised
      `e`: either in its gain phases, or, with its gain already recorded,
      in `update_strat` with a `KeyError`. */
  ghost predicate StoppedAt(tables: seq<Table>, gains: seq<real>, e: Error, prior: Prior, numberPlayers: nat, numberCoins: nat, keys: seq<string>) {
    |tables| >= 1 &&
    IterationOf(tables[|tables| - 1], prior, numberPlayers, numberCoins, keys) == Failure(e) &&
    (|gains| == |tables| - 1 ||
     (|gains| == |tables| && e == KeyError &&
      GainPhasesOf(tables[|tables| - 1], prior, numberPlayers, numberCoins, keys).Success? &&
      GainPhasesOf(tables[|tables| - 1], prior, numberPlayers, numberCoins, keys).value.1 == gains[|tables| - 1]))
  }

  /** A run whose next gain phases raise stops there. */
  lemma StoppedInGainPhases(tables: seq<Table>, gains: seq<real>, e: Error, prior: Prior, numberPlayers: nat, numberCoins: nat, keys: seq<string>)
    requires |tables| >= 1 && |gains| == |tables| - 1
    requires GainPhasesOf(tables[|tables| - 1], prior, numberPlayers, numberCoins, keys) == Failure(e)
    ensures StoppedAt(tables, gains, e, prior, numberPlayers, numberCoins, keys)
  {
  }

  /** A run whose next `update_strat` raises a `KeyError` stops there, the
      iteration's gain recorded, and the earlier iterations still ran. */
  lemma StoppedInStrategies(tables: seq<Table>, gains: seq<real>, prior: Prior, numberPlayers: nat, numberCoins: nat, keys: seq<string>,
                            gained: Table, gain: real)
    requires |tables| >= 1 && |gains| == |tables| - 1
    requires Iterated(tables, gains, prior, numberPlayers, numberCoins, keys)
    requires GainPhasesOf(tables[|tables| - 1], prior, numberPlayers, numberCoins, keys) == Success((gained, gain))
    requires StrategiesSweep(gained, numberPlayers, numberCoins, keys) == Failure(KeyError)
    ensures StoppedAt(tables, gains + [gain], KeyError, prior, numberPlayers, numberCoins, keys)
    ensures Iterated(tables, gains + [gain], prior, numberPlayers, numberCoins, keys)
  {
    IterationOfPhases(tables[|tables| - 1], prior, numberPlayers, numberCoins, keys, gained, gain);
    var gs := gains + [gain];
    forall j | 0 <= j < |tables| - 1 ensures IterationRan(tables, gs, prior, numberPlayers, numberCoins, keys, j) {
      assert IterationRan(tables, gains, prior, numberPlayers, numberCoins, keys, j);
      assert gs[j] == gains[j];
    }
  }

  /** Every action of every key has a cumulative gain of at least `floor`. */
  predicate GainsAtLeast(m: Table, floor: real) {
    forall k :: k in m ==> forall a :: a in m[k].actions ==> m[k].actions[a].cumulativeGain >= floor
  }

  /** `m'` has the keys and the actions of `m`, and no cumulative gain went down. */
  predicate NoGainLost(m: Table, m': Table) {
    m'.Keys == m.Keys &&
    forall k :: k in m ==> m'[k].actions.Keys == m[k].actions.Keys && GainsGrew(m[k], m'[k])
  }

  /** A table that lost no gain keeps every floor. */
  lemma GainsAtLeastKept(m: Table, m': Table, floor: real)
    requires NoGainLost(m, m') && GainsAtLeast(m, floor)
    ensures GainsAtLeast(m', floor)
  {
    forall k, a | k in m' && a in m'[k].actions ensures m'[k].actions[a].cumulativeGain >= floor {
      assert k in m && a in m[k].actions && GainsGrew(m[k], m'[k]);
    }
  }

  lemma NoGainLostTrans(m1: Table, m2: Table, m3: Table)
    requires NoGainLost(m1, m2) && NoGainLost(m2, m3)
    ensures NoGainLost(m1, m3)
  {
    forall k | k in m1 ensures m3[k].actions.Keys == m1[k].actions.Keys && GainsGrew(m1[k], m3[k]) {
      assert GainsGrew(m1[k], m2[k]) && GainsGrew(m2[k], m3[k]);
    }
  }

  /** No phase lowers a cumulative gain or changes the actions of a key:
      beliefs, utilities, likelihoods and strategies leave the gains alone,
      and under the invariant `calc_gains` only raises them. */
  lemma PhaseLosesNoGain(m: Table, m': Table)
    requires BeliefsOnly(m, m') || UtilsOnly(m, m') || LikelihoodsOnly(m, m') || StrategiesOnly(m, m') ||
             (GainsOnly(m, m') && GainsGrewAll(m, m'))
    ensures NoGainLost(m, m')
  {
    forall k | k in m ensures m'[k].actions.Keys == m[k].actions.Keys && GainsGrew(m[k], m'[k]) {
      if BeliefsOnly(m, m') {
        assert BeliefsGrown(m[k], m'[k]);
      } else if UtilsOnly(m, m') {
        assert SameButUtils(m[k], m'[k]);
      } else if LikelihoodsOnly(m, m') {
        assert m'[k].actions == m[k].actions;
      } else if StrategiesOnly(m, m') {
        assert SameButStrategies(m[k], m'[k]);
        assert forall a :: a in m[k].actions ==> m'[k].actions[a].cumulativeGain == m[k].actions[a].cumulativeGain;
      } else {
        assert SameButGains(m[k], m'[k]);
      }
    }
  }

  /** Under the invariant the gain phases lower no cumulative gain. */
  lemma GainPhasesLoseNoGain(m: Table, prior: Prior, numberPlayers: nat, numberCoins: nat, keys: seq<string>)
    requires Healthy(m) && PriorNonNegative(prior)
    requires GainPhasesOf(m, prior, numberPlayers, numberCoins, keys).Success?
    ensures NoGainLost(m, GainPhasesOf(m, prior, numberPlayers, numberCoins, keys).value.0)
  {
    var b := BeliefsSweep(m, prior, numberPlayers, numberCoins, keys).value;
    var u := UtilitiesSweep(b, numberPlayers, numberCoins, Reversed(keys)).value;
    var l := LikelihoodsSweep(u, numberCoins, keys).value;
    var g := GainsSweep(l, numberPlayers, numberCoins, keys).value.0;
    PhaseLosesNoGain(m, b);
    PhaseLosesNoGain(b, u);
    PhaseLosesNoGain(u, l);
    PhaseLosesNoGain(l, g);
    NoGainLostTrans(m, b, u);
    NoGainLostTrans(m, u, l);
    NoGainLostTrans(m, l, g);
  }

  /** When every cumulative gain is at least a positive `floor`, one key's
      regret matching never divides by zero: it can raise only `KeyError`. */
  lemma SeededStrategiesStep(m: Table, numberPlayers: nat, numberCoins: nat, historic: string, floor: real)
    requires GainsAtLeast(m, floor) && floor > 0.0
    ensures StrategiesStep(m, numberPlayers, numberCoins, historic).Failure? ==>
              StrategiesStep(m, numberPlayers, numberCoins, historic).error == KeyError
  {
    if historic in m {
      var acts := m[historic].actions;
      var legal := PossibleActions(numberPlayers, numberCoins, historic);
      if HasActions(acts, legal) && legal != [] {
        CumulativeGainTotalAtLeast(acts, legal, floor);
        assert floor * (|legal| as real) > 0.0;
      }
    }
  }

  /** The same for `update_strat` over all keys. */
  lemma {:induction false} SeededStrategiesSweep(m: Table, numberPlayers: nat, numberCoins: nat, keys: seq<string>, floor: real)
    requires GainsAtLeast(m, floor) && floor > 0.0
    ensures StrategiesSweep(m, numberPlayers, numberCoins, keys).Failure? ==>
              StrategiesSweep(m, numberPlayers, numberCoins, keys).error == KeyError
  {
    if keys != [] {
      var prefix, last := keys[..|keys| - 1], keys[|keys| - 1];
      SeededStrategiesSweep(m, numberPlayers, numberCoins, prefix, floor);
      var pre := StrategiesSweep(m, numberPlayers, numberCoins, prefix);
      if pre.Success? {
        var m' := pre.value;
        PhaseLosesNoGain(m, m');
        GainsAtLeastKept(m, m', floor);
        SeededStrategiesStep(m', numberPlayers, numberCoins, last, floor);
        assert StrategiesSweep(m, numberPlayers, numberCoins, keys) == StrategiesStep(m', numberPlayers, numberCoins, last);
      }
    }
  }

  /** Under the invariant, from a table whose cumulative gains are at least
      a positive `floor`: a whole iteration keeps that floor, and its
      `update_strat` raises only `KeyError`, never `ZeroDivisionError`. */
  lemma IterationKeepsGainFloor(m: Table, prior: Prior, numberPlayers: nat, numberCoins: nat, keys: seq<string>, floor: real)
    requires Healthy(m) && PriorNonNegative(prior) && GainsAtLeast(m, floor) && floor > 0.0
    ensures var g := GainPhasesOf(m, prior, numberPlayers, numberCoins, keys);
            g.Success? ==> GainsAtLeast(g.value.0, floor) &&
                           (StrategiesSweep(g.value.0, numberPlayers, numberCoins, keys).Failure? ==>
                              StrategiesSweep(g.value.0, numberPlayers, numberCoins, keys).error == KeyError)
    ensures var r := IterationOf(m, prior, numberPlayers, numberCoins, keys);
            r.Success? ==> GainsAtLeast(r.value.0, floor)
  {
    var g := GainPhasesOf(m, prior, numberPlayers, numberCoins, keys);
    if g.Success? {
      GainPhasesLoseNoGain(m, prior, numberPlayers, numberCoins, keys);
      GainsAtLeastKept(m, g.value.0, floor);
      SeededStrategiesSweep(g.value.0, numberPlayers, numberCoins, keys, floor);
      var s := StrategiesSweep(g.value.0, numberPlayers, numberCoins, keys);
      if s.Success? {
        PhaseLosesNoGain(g.value.0, s.value);
        GainsAtLeastKept(g.value.0, s.value, floor);
      }
    }
  }
}
