/** The bookkeeping both training loops share: the group size that decides
    which iterations' total gains are kept for plotting, and the relation
    between the kept totals and the totals of all iterations. */
module Training {
  /** `numIterations // numGainsToPlot`, raised to 1 when it is 0. */
  function GainGroupSize(numIterations: nat, numGainsToPlot: nat): (g: nat)
    requires numGainsToPlot > 0
    ensures g >= 1
    ensures numIterations >= numGainsToPlot ==> g == numIterations / numGainsToPlot
    ensures numIterations < numGainsToPlot ==> g == 1
  {
    var gainGrpSize := numIterations / numGainsToPlot;
    if gainGrpSize == 0 then 1 else gainGrpSize
  }

  /** Division by `g` undoes multiplication by `g` below a remainder of `g`. */
  lemma DivOfMultiplePlus(q: int, r: int, g: int)
    requires g > 0 && 0 <= r < g
    ensures (q * g + r) / g == q
  {
    var x := q * g + r;
    var d, m := x / g, x % g;
    assert (q - d) * g == m - r;
    if q - d >= 1 {
      assert false;
    } else if q - d <= -1 {
      assert false;
    }
  }

  /** `(n + g - 1) / g` counts the multiples of `g` below `n`: one more
      below `n + 1` exactly when `n` is one, and then `n` is the last of them. */
  lemma MultiplesStep(n: nat, g: nat)
    requires g >= 1
    ensures (n + g) / g == (n + g - 1) / g + (if n % g == 0 then 1 else 0)
    ensures n % g == 0 ==> (n + g - 1) / g * g == n
  {
    var q, r := n / g, n % g;
    if r == 0 {
      DivOfMultiplePlus(q, g - 1, g);
      DivOfMultiplePlus(q + 1, 0, g);
      assert n + g - 1 == q * g + (g - 1) && n + g == (q + 1) * g + 0;
    } else {
      DivOfMultiplePlus(q + 1, r - 1, g);
      DivOfMultiplePlus(q + 1, r, g);
      assert n + g - 1 == (q + 1) * g + (r - 1) && n + g == (q + 1) * g + r;
    }
  }

  ghost predicate NonNegative(xs: seq<real>) {
    forall j :: 0 <= j < |xs| ==> xs[j] >= 0.0
  }

  /** `totGains` holds the total gain of every `g`-th iteration of `iterationGains`,
      starting with the first. */
  ghost predicate Recorded(totGains: seq<real>, iterationGains: seq<real>, g: nat) {
    g >= 1 && |totGains| == (|iterationGains| + g - 1) / g &&
    forall j :: 0 <= j < |totGains| ==> j * g < |iterationGains| && totGains[j] == iterationGains[j * g]
  }

  /** Before the first iteration nothing is recorded. */
  lemma RecordedNothing(g: nat)
    requires g >= 1
    ensures Recorded([], [], g)
  {
    DivOfMultiplePlus(0, g - 1, g);
    assert 0 * g + (g - 1) == 0 + g - 1;
  }

  /** One more iteration: its total gain is recorded exactly when its index is a multiple of `g`. */
  lemma RecordedStep(totGains: seq<real>, iterationGains: seq<real>, g: nat, totGain: real)
    requires Recorded(totGains, iterationGains, g)
    requires NonNegative(iterationGains) && totGain >= 0.0
    ensures var n := |iterationGains|;
            Recorded(if n % g == 0 then totGains + [totGain] else totGains, iterationGains + [totGain], g)
    ensures NonNegative(iterationGains + [totGain])
  {
    var n := |iterationGains|;
    var tot := if n % g == 0 then totGains + [totGain] else totGains;
    var its := iterationGains + [totGain];
    MultiplesStep(n, g);
    assert its[n] == totGain;
    forall j | 0 <= j < |tot| ensures j * g < |its| && tot[j] == its[j * g] {
      if j < |totGains| {
        assert tot[j] == totGains[j];
      }
    }
  }
}
