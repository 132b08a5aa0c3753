/** The per-information-set records both solvers keep (InfoSetData and
    InfoSetActionData in khun_poker.py and main.py, which define them alike),
    and the arithmetic of regret matching over one information set:
    instantaneous gain, its accumulation weighted by the reach likelihood, and
    the renormalisation of cumulative gains into the next strategy. */
module RegretMatching {
  import opened Outcomes
  import opened PyStr

  /** One action of an information set. `util` is `None` until the first utility sweep. */
  datatype ActionData = ActionData(strategy: real, util: Option<real>, cumulativeGain: real)

  /** One information set. `beliefs` maps the opponents' possible private
      values to their probability; `expectedUtil` and `likelihood` are `None`
      until the first sweep computes them. */
  datatype InfoSetData = InfoSetData(
    actions: map<string, ActionData>,
    beliefs: map<string, real>,
    expectedUtil: Option<real>,
    likelihood: Option<real>)

  /** A fresh action: strategy and cumulative gain both start at `initStratVal`. */
  function NewActionData(initStratVal: real): (a: ActionData)
    ensures a.util.None?
    ensures a.strategy == initStratVal && a.cumulativeGain == a.strategy
  {
    ActionData(initStratVal, None, initStratVal)
  }

  /** The actions of an information set, by label. */
  type ActionTable = map<string, ActionData>

  predicate HasActions(acts: ActionTable, labels: seq<string>) {
    forall a :: a in labels ==> a in acts
  }

  predicate HasUtils(acts: ActionTable, labels: seq<string>) {
    HasActions(acts, labels) && forall a :: a in labels ==> acts[a].util.Some?
  }

  /** The instantaneous gain of an action, `max(0, util - expectedUtil)`. */
  function Gain(util: real, expectedUtil: real): (g: real)
    ensures g >= 0.0 && g >= util - expectedUtil
    ensures g == 0.0 || g == util - expectedUtil
  {
    if util - expectedUtil > 0.0 then util - expectedUtil else 0.0
  }

  /** The sum of the strategy probabilities of `labels`. */
  function StrategyTotal(acts: ActionTable, labels: seq<string>): real
    requires HasActions(acts, labels)
  {
    if labels == [] then 0.0
    else StrategyTotal(acts, labels[..|labels| - 1]) + acts[labels[|labels| - 1]].strategy
  }

  /** The sum of the cumulative gains of `labels` (Python's `sum(gains)`). */
  function CumulativeGainTotal(acts: ActionTable, labels: seq<string>): real
    requires HasActions(acts, labels)
  {
    if labels == [] then 0.0
    else CumulativeGainTotal(acts, labels[..|labels| - 1]) + acts[labels[|labels| - 1]].cumulativeGain
  }

  /** The expected utility of the current strategy: the sum of `strategy * util`. */
  function ExpectedUtil(acts: ActionTable, labels: seq<string>): real
    requires HasUtils(acts, labels)
  {
    if labels == [] then 0.0
    else
      var a := labels[|labels| - 1];
      ExpectedUtil(acts, labels[..|labels| - 1]) + acts[a].strategy * acts[a].util.value
  }

  /** The strategy over `labels` is a probability distribution. */
  predicate IsDistribution(acts: ActionTable, labels: seq<string>)
    requires HasActions(acts, labels)
  {
    (forall a :: a in labels ==> acts[a].strategy >= 0.0) && StrategyTotal(acts, labels) == 1.0
  }

  /** A strategy-weighted sum of utilities that all lie above `lo` lies above
      `lo` times the total weight, strictly when some weight is positive. */
  lemma {:induction false} ExpectedUtilAbove(acts: ActionTable, labels: seq<string>, lo: real)
    requires HasUtils(acts, labels)
    requires forall a :: a in labels ==> acts[a].strategy >= 0.0 && acts[a].util.value > lo
    ensures ExpectedUtil(acts, labels) >= lo * StrategyTotal(acts, labels)
    ensures StrategyTotal(acts, labels) > 0.0 ==> ExpectedUtil(acts, labels) > lo * StrategyTotal(acts, labels)
  {
    if labels != [] {
      var a := labels[|labels| - 1];
      var prefix := labels[..|labels| - 1];
      assert forall x :: x in prefix ==> x in labels;
      ExpectedUtilAbove(acts, prefix, lo);
      var e, t, s, u := ExpectedUtil(acts, prefix), StrategyTotal(acts, prefix), acts[a].strategy, acts[a].util.value;
      var e', t' := ExpectedUtil(acts, labels), StrategyTotal(acts, labels);
      assert e' == e + s * u;
      assert t' == t + s;
      WeightedStep(e, t, s, u, lo, e', t');
    }
  }

  /** One step of the weighted-sum bound: adding weight `s` at value `u > lo`. */
  lemma WeightedStep(e: real, t: real, s: real, u: real, lo: real, e': real, t': real)
    requires s >= 0.0 && u > lo
    requires e >= lo * t && (t > 0.0 ==> e > lo * t)
    requires e' == e + s * u && t' == t + s
    ensures e' >= lo * t'
    ensures t' > 0.0 ==> e' > lo * t'
  {
    ScaledGap(lo, t, s, u);
    ProductSigns(s, u - lo);
    var gap := s * (u - lo) - lo * t;
    assert e + s * u - lo * (t + s) == e + gap;
    if s == 0.0 {
      assert t + s > 0.0 ==> e - lo * t > 0.0;
    }
  }

  /** The two sides of the weighted-sum bound differ by the old gap plus `s * (u - lo)`. */
  lemma ScaledGap(lo: real, t: real, s: real, u: real)
    ensures s * u - lo * (t + s) == s * (u - lo) - lo * t
  {
  }

  /** The sign of a product of a non-negative and a positive real. */
  lemma ProductSigns(s: real, d: real)
    requires s >= 0.0 && d > 0.0
    ensures s * d >= 0.0
    ensures s > 0.0 ==> s * d > 0.0
  {
  }

  /** Regret matching never rewards every action: when the strategy is a
      distribution, some action's utility is at most the expected utility, so
      its instantaneous gain is 0. */
  lemma SomeActionHasNoGain(acts: ActionTable, labels: seq<string>)
    requires HasUtils(acts, labels) && IsDistribution(acts, labels)
    ensures exists a :: a in labels && Gain(acts[a].util.value, ExpectedUtil(acts, labels)) == 0.0
  {
    var e := ExpectedUtil(acts, labels);
    if forall a :: a in labels ==> acts[a].util.value > e {
      ExpectedUtilAbove(acts, labels, e);
      assert false;
    }
  }

  /** A value scaled by a weight, non-negative when both are: the increase
      of a cumulative gain (the instantaneous gain times the likelihood), and
      in the coin game one opponent's factor applied to `prob_comb`. */
  function Scaled(x: real, weight: real): (r: real)
    ensures x >= 0.0 && weight >= 0.0 ==> r >= 0.0
  {
    x * weight
  }

  /** The gain phase on one information set, action after action: each
      action's cumulative gain grows by its instantaneous gain times
      `likelihood`; the second component is the sum of the instantaneous gains. */
  function AddGains(acts: ActionTable, labels: seq<string>, expectedUtil: real, likelihood: real): (r: (ActionTable, real))
    requires HasUtils(acts, labels)
    ensures r.1 >= 0.0
    ensures r.0.Keys == acts.Keys
    ensures forall a :: a in acts ==> r.0[a].strategy == acts[a].strategy && r.0[a].util == acts[a].util
    ensures likelihood >= 0.0 ==> forall a :: a in acts ==> r.0[a].cumulativeGain >= acts[a].cumulativeGain
    decreases |labels|
  {
    if labels == [] then (acts, 0.0)
    else
      var prefix := labels[..|labels| - 1];
      assert forall x :: x in prefix ==> x in labels;
      var (acts0, added) := AddGains(acts, prefix, expectedUtil, likelihood);
      var a := labels[|labels| - 1];
      var ad := acts0[a];
      var gain := Gain(ad.util.value, expectedUtil);
      (acts0[a := ad.(cumulativeGain := ad.cumulativeGain + Scaled(gain, likelihood))], added + gain)
  }

  /** The sum of the instantaneous gains of `labels`. */
  function GainTotal(acts: ActionTable, labels: seq<string>, expectedUtil: real): (r: real)
    requires HasUtils(acts, labels)
    ensures r >= 0.0
  {
    if labels == [] then 0.0
    else
      var prefix := labels[..|labels| - 1];
      assert forall x :: x in prefix ==> x in labels;
      var a := labels[|labels| - 1];
      GainTotal(acts, prefix, expectedUtil) + Gain(acts[a].util.value, expectedUtil)
  }

  /** The sum of `xs`, added up from the front. */
  function RealSum(xs: seq<real>): (t: real)
    ensures (forall j :: 0 <= j < |xs| ==> xs[j] >= 0.0) ==> t >= 0.0
  {
    if xs == [] then 0.0 else RealSum(xs[..|xs| - 1]) + xs[|xs| - 1]
  }

  /** The gain phase in closed form, for a duplicate-free label list: each
      listed action gains `max(0, util - expectedUtil) * likelihood`, the others
      are untouched, and the reported total is the sum of the instantaneous gains. */
  lemma {:induction false} AddGainsClosedForm(acts: ActionTable, labels: seq<string>, expectedUtil: real, likelihood: real)
    requires HasUtils(acts, labels) && Distinct(labels)
    ensures forall a :: a in labels ==>
              AddGains(acts, labels, expectedUtil, likelihood).0[a].cumulativeGain ==
                acts[a].cumulativeGain + Scaled(Gain(acts[a].util.value, expectedUtil), likelihood)
    ensures forall a :: a in acts && a !in labels ==> AddGains(acts, labels, expectedUtil, likelihood).0[a] == acts[a]
    ensures AddGains(acts, labels, expectedUtil, likelihood).1 == GainTotal(acts, labels, expectedUtil)
  {
    if labels != [] {
      var prefix := labels[..|labels| - 1];
      assert forall x :: x in prefix ==> x in labels;
      AddGainsClosedForm(acts, prefix, expectedUtil, likelihood);
      var last := labels[|labels| - 1];
      assert last !in prefix;
    }
  }

  /** An action's share of the total cumulative gain. */
  function Share(gain: real, totGains: real): real
    requires totGains != 0.0
  {
    gain / totGains
  }

  /** The strategy update on one information set: each listed action's
      strategy becomes its cumulative gain divided by `totGains`. */
  function Renormalized(acts: ActionTable, labels: seq<string>, totGains: real): (r: ActionTable)
    requires HasActions(acts, labels) && totGains != 0.0
    ensures r.Keys == acts.Keys
    ensures forall a :: a in acts ==> r[a].cumulativeGain == acts[a].cumulativeGain && r[a].util == acts[a].util
    ensures forall a :: a in acts && a !in labels ==> r[a] == acts[a]
    ensures forall a :: a in labels ==> r[a].strategy == Share(acts[a].cumulativeGain, totGains)
    decreases |labels|
  {
    if labels == [] then acts
    else
      var prefix := labels[..|labels| - 1];
      assert forall x :: x in prefix ==> x in labels;
      var acts0 := Renormalized(acts, prefix, totGains);
      var a := labels[|labels| - 1];
      acts0[a := acts0[a].(strategy := Share(acts0[a].cumulativeGain, totGains))]
  }

  /** Summing renormalised strategies sums the cumulative gains, divided by the divisor. */
  lemma {:induction false} RenormalizedTotal(acts: ActionTable, labels: seq<string>, prefix: seq<string>, totGains: real)
    requires HasActions(acts, labels) && totGains != 0.0
    requires forall a :: a in prefix ==> a in labels
    ensures StrategyTotal(Renormalized(acts, labels, totGains), prefix) == CumulativeGainTotal(acts, prefix) / totGains
    decreases |prefix|
  {
    if prefix != [] {
      var p := prefix[..|prefix| - 1];
      assert forall a :: a in p ==> a in prefix;
      RenormalizedTotal(acts, labels, p, totGains);
      var a := prefix[|prefix| - 1];
      var r := Renormalized(acts, labels, totGains);
      assert r[a].strategy == acts[a].cumulativeGain / totGains;
      DivisionAdds(CumulativeGainTotal(acts, p), acts[a].cumulativeGain, totGains);
    }
  }

  lemma DivisionAdds(x: real, y: real, z: real)
    requires z != 0.0
    ensures x / z + y / z == (x + y) / z
  {
  }

  /** Regret matching yields a probability distribution: dividing non-negative
      cumulative gains by their positive sum gives non-negative strategies that
      sum to 1, positive where the gain is positive. */
  lemma RenormalizedIsDistribution(acts: ActionTable, labels: seq<string>)
    requires HasActions(acts, labels)
    requires forall a :: a in labels ==> acts[a].cumulativeGain >= 0.0
    requires CumulativeGainTotal(acts, labels) > 0.0
    ensures var r := Renormalized(acts, labels, CumulativeGainTotal(acts, labels));
            IsDistribution(r, labels) &&
            forall a :: a in labels && acts[a].cumulativeGain > 0.0 ==> r[a].strategy > 0.0
  {
    var tot := CumulativeGainTotal(acts, labels);
    var r := Renormalized(acts, labels, tot);
    RenormalizedTotal(acts, labels, labels, tot);
    DivisionBySelf(tot);
    forall a | a in labels
      ensures r[a].strategy >= 0.0 && (acts[a].cumulativeGain > 0.0 ==> r[a].strategy > 0.0)
    {
      SharePositive(acts[a].cumulativeGain, tot);
    }
  }

  lemma DivisionBySelf(x: real)
    requires x != 0.0
    ensures x / x == 1.0
  {
  }

  lemma SharePositive(gain: real, totGains: real)
    requires gain >= 0.0 && totGains > 0.0
    ensures Share(gain, totGains) >= 0.0
    ensures gain > 0.0 ==> Share(gain, totGains) > 0.0
  {
  }

  /** Cumulative gains that are each at least `lo` sum to at least `lo` per action. */
  lemma {:induction false} CumulativeGainTotalAtLeast(acts: ActionTable, labels: seq<string>, lo: real)
    requires HasActions(acts, labels)
    requires forall a :: a in labels ==> acts[a].cumulativeGain >= lo
    ensures CumulativeGainTotal(acts, labels) >= lo * (|labels| as real)
  {
    if labels != [] {
      var prefix := labels[..|labels| - 1];
      assert forall a :: a in prefix ==> a in labels;
      CumulativeGainTotalAtLeast(acts, prefix, lo);
    }
  }
}
