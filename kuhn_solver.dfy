/** The Kuhn poker solver's state and its phases (khun_poker.py 164-292 and
    the iteration loop at 337-363): a table of information-set records keyed
    by the deciding player's rank and the public history, and the list of
    keys in registration order. Each phase is proved to leave exactly the
    table the corresponding function of `KuhnSpec` describes. */
module KuhnSolver {
  import opened Outcomes
  import opened PyStr
  import opened KuhnPoker
  import opened RegretMatching
  import opened KuhnSpec
  import opened Training

  const NUM_ITERATIONS: nat := 1_000_000
  const NUM_GAINS_TO_PLOT: nat := 500_000

  /** With the script's constants every second iteration's total gain is
      recorded, 500 000 of them in all. */
  lemma ScriptGainGroupSize()
    ensures GainGroupSize(NUM_ITERATIONS, NUM_GAINS_TO_PLOT) == 2
    ensures (NUM_ITERATIONS + 2 - 1) / 2 == NUM_GAINS_TO_PLOT
  {
  }

  /** Fresh records for the registered keys, whatever order Python's set
      iteration gives the histories, form a well-formed table. */
  lemma FreshTableWellFormed(setIterationOrder: seq<string>, m: InfoSets)
    requires multiset(setIterationOrder) == multiset(["", "p", "b", "pb"])
    requires forall k :: k in InfoSetKeys(SortedByLength(setIterationOrder)) ==> k in m && m[k] == NewInfoSetData()
    ensures RegistryOrder(InfoSetKeys(SortedByLength(setIterationOrder)))
    ensures WellFormed(m)
  {
    RegistryFromAnyEnumeration(setIterationOrder);
    assert HealthyRecord(NewInfoSetData());
  }

  /** Every key in the registration order is a key of a well-formed table. */
  lemma RegistryKeys(keys: seq<string>, m: InfoSets)
    requires RegistryOrder(keys) && WellFormed(m)
    ensures forall j :: 0 <= j < |keys| ==> IsInfoSetKey(keys[j]) && keys[j] in m
  {
    forall j | 0 <= j < |keys| ensures IsInfoSetKey(keys[j]) && keys[j] in m {
      assert keys[j] in keys;
    }
  }

  /** Part way through a sweep over `keys` that gives each key the record
      `target` holds for it: the first `i` keys hold their targets,
      everything else is as in the starting table `m0`. */
  ghost predicate Swept(m0: InfoSets, m: InfoSets, keys: seq<string>, i: nat, target: InfoSets) {
    i <= |keys| && m.Keys == m0.Keys &&
    (forall j :: 0 <= j < |keys| ==> keys[j] in m0 && keys[j] in target) &&
    (forall j :: 0 <= j < i ==> m[keys[j]] == target[keys[j]]) &&
    (forall j :: i <= j < |keys| ==> m[keys[j]] == m0[keys[j]]) &&
    (forall k :: k in m0 && k !in keys ==> m[k] == m0[k])
  }

  /** Storing the next key's target continues the sweep. */
  lemma SweepStep(m0: InfoSets, m: InfoSets, keys: seq<string>, i: nat, target: InfoSets)
    requires Distinct(keys) && Swept(m0, m, keys, i, target) && i < |keys|
    ensures keys[i] in m && m[keys[i]] == m0[keys[i]]
    ensures Swept(m0, m[keys[i] := target[keys[i]]], keys, i + 1, target)
  {
    var m' := m[keys[i] := target[keys[i]]];
    forall j | 0 <= j < i + 1 ensures m'[keys[j]] == target[keys[j]] {
      if j < i {
        assert keys[j] != keys[i];
      }
    }
    forall j | i + 1 <= j < |keys| ensures m'[keys[j]] == m0[keys[j]] {
      assert keys[j] != keys[i];
    }
  }

  /** A finished sweep has stored every key's target and changed nothing else. */
  lemma SweepDone(m0: InfoSets, m: InfoSets, keys: seq<string>, target: InfoSets)
    requires Swept(m0, m, keys, |keys|, target)
    ensures forall k :: k in keys ==> k in m && k in target && m[k] == target[k]
    ensures forall k :: k in m0 && k !in keys ==> m[k] == m0[k]
  {
    forall k | k in keys ensures k in m && k in target && m[k] == target[k] {
      var j :| 0 <= j < |keys| && keys[j] == k;
    }
  }

  /** The records `updateBeliefs` stores: each key's beliefs as the
      strategies of the starting table determine them. */
  ghost function BeliefsTarget(m0: InfoSets): (target: InfoSets)
    requires WellFormed(m0)
    ensures forall k :: k in target ==> k in m0 && IsInfoSetKey(k)
  {
    map k | k in m0 && IsInfoSetKey(k) :: m0[k].(beliefs := UpdatedBeliefs(m0, k))
  }

  /** The table after `updateBeliefs`: every key's beliefs are the ones the
      strategies of the table before determine, and nothing else changed. */
  ghost predicate BeliefsUpdated(m0: InfoSets, m: InfoSets) {
    WellFormed(m0) && m.Keys == m0.Keys &&
    (forall k :: IsInfoSetKey(k) ==> m[k] == m0[k].(beliefs := UpdatedBeliefs(m0, k))) &&
    (forall k :: k in m0 && !IsInfoSetKey(k) ==> m[k] == m0[k])
  }

  lemma BeliefsSweepDone(m0: InfoSets, m: InfoSets, keys: seq<string>)
    requires WellFormed(m0) && RegistryOrder(keys) && Swept(m0, m, keys, |keys|, BeliefsTarget(m0))
    ensures BeliefsUpdated(m0, m)
  {
    SweepDone(m0, m, keys, BeliefsTarget(m0));
  }

  /** Part way through `updateBeliefs` over the registered keys: the table
      stays well-formed with the strategies it started with, and the first
      `i` keys hold the beliefs the starting table determines. */
  ghost predicate BeliefsSweep(m0: InfoSets, m: InfoSets, keys: seq<string>, i: nat) {
    RegistryOrder(keys) && WellFormed(m0) && WellFormed(m) && SameStrategies(m0, m) &&
    Swept(m0, m, keys, i, BeliefsTarget(m0))
  }

  /** Before `updateBeliefs` stores anything, no key has been swept. */
  lemma BeliefsSweepStart(m0: InfoSets, keys: seq<string>)
    requires RegistryOrder(keys) && WellFormed(m0)
    ensures BeliefsSweep(m0, m0, keys, 0)
  {
    RegistryKeys(keys, m0);
    var target := BeliefsTarget(m0);
    forall j | 0 <= j < |keys|
      ensures keys[j] in target
    {
      RegisteredRecord(m0, keys[j]);
    }
  }

  /** Storing new beliefs at the next key continues the sweep. */
  lemma BeliefsSweepStep(m0: InfoSets, m: InfoSets, keys: seq<string>, i: nat)
    requires BeliefsSweep(m0, m, keys, i) && i < |keys|
    ensures WellFormed(m) && IsInfoSetKey(keys[i]) && keys[i] in m
    ensures BeliefsSweep(m0, m[keys[i] := m[keys[i]].(beliefs := UpdatedBeliefs(m, keys[i]))], keys, i + 1)
  {
    var k := keys[i];
    RegistryKeys(keys, m0);
    SweepStep(m0, m, keys, i, BeliefsTarget(m0));
    assert BeliefsTarget(m0)[k] == m0[k].(beliefs := UpdatedBeliefs(m0, k));
    UpdatedBeliefsFrame(m0, m, k);
    var d := m[k].(beliefs := UpdatedBeliefs(m, k));
    StoreKeepsWellFormed(m, k, d);
    StoreKeepsStrategies(m, k, d);
    SameStrategiesTransitive(m0, m, m[k := d]);
  }

  /** Each key's beliefs hold both other ranks, as `updateBeliefs` leaves them. */
  ghost predicate BeliefsHeld(m: InfoSets) {
    forall k {:trigger IsInfoSetKey(k)} :: IsInfoSetKey(k) ==>
      k in m && forall o :: o in RANKS && o != k[..1] ==> o in m[k].beliefs
  }

  /** A belief distribution for `k` holds a belief about each rank other
      than `k`'s own. */
  lemma DistributionCoversOtherRanks(beliefs: map<string, real>, k: string)
    requires |k| >= 1 && k[..1] in RANKS && BeliefsAreDistribution(beliefs, k)
    ensures forall o :: o in RANKS && o != k[..1] ==> o in beliefs
  {
    var opps := GetPossibleOpponentPockets(k[..1]);
    assert forall o :: o in RANKS && o != k[..1] ==> o == opps[0] || o == opps[1];
  }

  /** After `updateBeliefs` every key holds a belief about each other rank. */
  lemma UpdatedBeliefsHeld(m0: InfoSets, m: InfoSets)
    requires BeliefsUpdated(m0, m)
    ensures BeliefsHeld(m)
  {
    forall k | IsInfoSetKey(k)
      ensures k in m && forall o :: o in RANKS && o != k[..1] ==> o in m[k].beliefs
    {
      UpdatedBeliefsAreDistribution(m0, k);
      DistributionCoversOtherRanks(UpdatedBeliefs(m0, k), k);
      assert m[k].beliefs == UpdatedBeliefs(m0, k);
    }
  }

  /** `m` differs from `m0` at most in utilities and expected utilities. */
  ghost predicate OnlyUtilitiesChanged(m0: InfoSets, m: InfoSets) {
    SameStrategies(m0, m) &&
    forall k :: k in m0 ==>
      m[k].beliefs == m0[k].beliefs && m[k].likelihood == m0[k].likelihood &&
      forall a :: a in m0[k].actions ==> m[k].actions[a].cumulativeGain == m0[k].actions[a].cumulativeGain
  }

  /** Part way through the reversed sweep of `updateUtilitiesForInfoSetStr`:
      the keys from position `i` on hold the utilities the table determines. */
  ghost predicate UtilitiesSweep(m0: InfoSets, m: InfoSets, keys: seq<string>, i: nat) {
    RegistryOrder(keys) && i <= |keys| && WellFormed(m) && BeliefsHeld(m0) && OnlyUtilitiesChanged(m0, m) &&
    forall j :: i <= j < |keys| ==> UtilitiesConsistent(m, keys[j])
  }

  /** The table after the utility phase: every key's utilities are the ones
      the table determines, and nothing but utilities changed. */
  ghost predicate UtilitiesUpdated(m0: InfoSets, m: InfoSets) {
    WellFormed(m) && OnlyUtilitiesChanged(m0, m) &&
    forall k :: IsInfoSetKey(k) ==> UtilitiesConsistent(m, k)
  }

  lemma UtilitiesSweepStart(m0: InfoSets, keys: seq<string>)
    requires RegistryOrder(keys) && WellFormed(m0) && BeliefsHeld(m0)
    ensures UtilitiesSweep(m0, m0, keys, |keys|)
  {
  }

  lemma UtilitiesSweepDone(m0: InfoSets, m: InfoSets, keys: seq<string>)
    requires UtilitiesSweep(m0, m, keys, 0)
    ensures UtilitiesUpdated(m0, m)
  {
    forall k | IsInfoSetKey(k)
      ensures UtilitiesConsistent(m, k)
    {
      var j :| 0 <= j < |keys| && keys[j] == k;
    }
  }

  /** The key before position `i` can be updated: its beliefs are in place
      and, for a root key, the key after "pb" is longer and already done. */
  lemma UtilitiesSweepReady(m0: InfoSets, m: InfoSets, keys: seq<string>, i: nat)
    requires UtilitiesSweep(m0, m, keys, i) && 0 < i
    ensures UtilReady(m, keys[i - 1])
  {
    var k := keys[i - 1];
    assert k in keys;
    RegisteredRecord(m, k);
    if |k| == 1 {
      assert (k + "pb")[..1] == k[..1] && (k + "pb")[1..] == "pb";
      assert k + "pb" in keys;
      var j :| 0 <= j < |keys| && keys[j] == k + "pb";
      ShorterKeyComesFirst(keys, i - 1, j);
    }
  }

  /** Storing the updated record at `k` changes nothing but utilities. */
  lemma StoreUtilitiesFrame(m0: InfoSets, m: InfoSets, k: string)
    requires UtilReady(m, k) && OnlyUtilitiesChanged(m0, m)
    ensures OnlyUtilitiesChanged(m0, m[k := UpdatedUtilities(m, k)])
  {
    var d := UpdatedUtilities(m, k);
    var m2 := m[k := d];
    StoreKeepsStrategies(m, k, d);
    SameStrategiesTransitive(m0, m, m2);
    forall j | j in m0
      ensures m2[j].beliefs == m0[j].beliefs && m2[j].likelihood == m0[j].likelihood
      ensures forall a :: a in m0[j].actions ==> m2[j].actions[a].cumulativeGain == m0[j].actions[a].cumulativeGain
    {
      if j == k {
        assert m2[j] == d;
      } else {
        assert m2[j] == m[j];
      }
    }
  }

  /** Storing the updated record at the key before position `i` keeps every
      key from there on consistent. */
  lemma StoreUtilitiesConsistent(m: InfoSets, keys: seq<string>, i: nat)
    requires RegistryOrder(keys) && 0 < i <= |keys| && UtilReady(m, keys[i - 1])
    requires forall j :: i <= j < |keys| ==> UtilitiesConsistent(m, keys[j])
    ensures forall j :: i - 1 <= j < |keys| ==> UtilitiesConsistent(m[keys[i - 1] := UpdatedUtilities(m, keys[i - 1])], keys[j])
  {
    var k := keys[i - 1];
    var m2 := m[k := UpdatedUtilities(m, k)];
    forall j | i - 1 <= j < |keys|
      ensures UtilitiesConsistent(m2, keys[j])
    {
      if j == i - 1 {
        UpdatedUtilitiesConsistent(m, k);
      } else {
        assert |k| <= |keys[j]| && k != keys[j];
        UtilitiesStayConsistent(m, k, keys[j]);
      }
    }
  }

  /** Storing the updated record at the key before position `i` continues the sweep. */
  lemma UtilitiesSweepStep(m0: InfoSets, m: InfoSets, keys: seq<string>, i: nat)
    requires UtilitiesSweep(m0, m, keys, i) && 0 < i && UtilReady(m, keys[i - 1])
    ensures UtilitiesSweep(m0, m[keys[i - 1] := UpdatedUtilities(m, keys[i - 1])], keys, i - 1)
  {
    var k := keys[i - 1];
    UpdatedUtilitiesConsistent(m, k);
    StoreUtilitiesConsistent(m, keys, i);
    StoreUtilitiesFrame(m0, m, k);
  }

  /** `m` differs from `m0` at most in likelihoods. */
  ghost predicate OnlyLikelihoodsChanged(m0: InfoSets, m: InfoSets) {
    m.Keys == m0.Keys && forall k :: k in m0 ==> m[k] == m0[k].(likelihood := m[k].likelihood)
  }

  /** The record at `k` holds the likelihood the table determines, in (0, 1/3]. */
  ghost predicate LikelihoodConsistent(m: InfoSets, k: string) {
    WellFormed(m) && IsInfoSetKey(k) && LikelihoodReady(m, k) &&
    m[k].likelihood == Some(UpdatedLikelihood(m, k)) && 0.0 < m[k].likelihood.value <= 1.0 / 3.0
  }

  /** Part way through `calcInfoSetLikelihoods`: the first `i` keys hold their likelihoods. */
  ghost predicate LikelihoodSweep(m0: InfoSets, m: InfoSets, keys: seq<string>, i: nat) {
    RegistryOrder(keys) && i <= |keys| && WellFormed(m) && OnlyLikelihoodsChanged(m0, m) &&
    forall j :: 0 <= j < i ==> LikelihoodConsistent(m, keys[j])
  }

  /** The table after `calcInfoSetLikelihoods`: every key holds the
      likelihood the table determines, and nothing else changed. */
  ghost predicate LikelihoodsUpdated(m0: InfoSets, m: InfoSets) {
    WellFormed(m) && OnlyLikelihoodsChanged(m0, m) &&
    forall k :: IsInfoSetKey(k) ==> LikelihoodConsistent(m, k)
  }

  lemma LikelihoodSweepDone(m0: InfoSets, m: InfoSets, keys: seq<string>)
    requires LikelihoodSweep(m0, m, keys, |keys|)
    ensures LikelihoodsUpdated(m0, m)
  {
    forall k | IsInfoSetKey(k)
      ensures LikelihoodConsistent(m, k)
    {
      var j :| 0 <= j < |keys| && keys[j] == k;
    }
  }

  /** The key at position `i` can be computed: for the last key of the game,
      its root key is shorter and already done. */
  lemma LikelihoodSweepReady(m0: InfoSets, m: InfoSets, keys: seq<string>, i: nat)
    requires LikelihoodSweep(m0, m, keys, i) && i < |keys|
    ensures IsInfoSetKey(keys[i]) && LikelihoodReady(m, keys[i])
    ensures |keys[i]| >= 3 ==> 0.0 < m[keys[i][..|keys[i]| - 2]].likelihood.value <= 1.0 / 3.0
  {
    var k := keys[i];
    assert k in keys;
    if |k| >= 3 {
      var root := k[..|k| - 2];
      assert |k| == 3 && root == k[..1] && root[..1] == k[..1] && root[1..] == "";
      assert root in keys;
      var j :| 0 <= j < |keys| && keys[j] == root;
      ShorterKeyComesFirst(keys, j, i);
    }
  }

  /** A table that differs only in likelihoods has the same strategies. */
  lemma LikelihoodsKeepStrategies(m0: InfoSets, m: InfoSets)
    requires OnlyLikelihoodsChanged(m0, m)
    ensures SameStrategies(m0, m)
  {
    forall k | k in m0
      ensures m[k].actions == m0[k].actions
    {
      assert m[k] == m0[k].(likelihood := m[k].likelihood);
    }
  }

  /** Storing the likelihood at position `i` keeps every key up to there consistent. */
  lemma StoreLikelihoodConsistent(m: InfoSets, keys: seq<string>, i: nat)
    requires RegistryOrder(keys) && i < |keys| && WellFormed(m) && IsInfoSetKey(keys[i]) && LikelihoodReady(m, keys[i])
    requires |keys[i]| >= 3 ==> 0.0 < m[keys[i][..|keys[i]| - 2]].likelihood.value <= 1.0 / 3.0
    requires forall j :: 0 <= j < i ==> LikelihoodConsistent(m, keys[j])
    ensures WellFormed(m[keys[i] := m[keys[i]].(likelihood := Some(UpdatedLikelihood(m, keys[i])))])
    ensures forall j :: 0 <= j <= i ==>
              LikelihoodConsistent(m[keys[i] := m[keys[i]].(likelihood := Some(UpdatedLikelihood(m, keys[i])))], keys[j])
  {
    var k := keys[i];
    var m2 := m[k := m[k].(likelihood := Some(UpdatedLikelihood(m, k)))];
    RegisteredRecord(m, k);
    StoreKeepsWellFormed(m, k, m2[k]);
    LikelihoodsKeepStrategies(m, m2);
    forall j | 0 <= j <= i
      ensures LikelihoodConsistent(m2, keys[j])
    {
      if j == i {
        StoredLikelihoodConsistent(m, k);
      } else {
        assert |keys[j]| <= |k| && keys[j] != k;
        UpdatedLikelihoodFrame(m, m2, keys[j]);
      }
    }
  }

  /** The likelihood stored at `k` is the one the new table determines, in (0, 1/3]. */
  lemma StoredLikelihoodConsistent(m: InfoSets, k: string)
    requires WellFormed(m) && IsInfoSetKey(k) && LikelihoodReady(m, k)
    requires |k| >= 3 ==> 0.0 < m[k[..|k| - 2]].likelihood.value <= 1.0 / 3.0
    ensures LikelihoodConsistent(m[k := m[k].(likelihood := Some(UpdatedLikelihood(m, k)))], k)
  {
    var m2 := m[k := m[k].(likelihood := Some(UpdatedLikelihood(m, k)))];
    RegisteredRecord(m, k);
    StoreKeepsWellFormed(m, k, m2[k]);
    LikelihoodsKeepStrategies(m, m2);
    LikelihoodBounds(m, k);
    UpdatedLikelihoodFrame(m, m2, k);
  }

  /** Storing the likelihood at position `i` continues the sweep. */
  lemma LikelihoodSweepStep(m0: InfoSets, m: InfoSets, keys: seq<string>, i: nat)
    requires LikelihoodSweep(m0, m, keys, i) && i < |keys|
    requires IsInfoSetKey(keys[i]) && LikelihoodReady(m, keys[i])
    requires |keys[i]| >= 3 ==> 0.0 < m[keys[i][..|keys[i]| - 2]].likelihood.value <= 1.0 / 3.0
    ensures LikelihoodSweep(m0, m[keys[i] := m[keys[i]].(likelihood := Some(UpdatedLikelihood(m, keys[i])))], keys, i + 1)
  {
    StoreLikelihoodConsistent(m, keys, i);
  }

  /** The records `calcGains` stores. */
  ghost function GainsTarget(m0: InfoSets): InfoSets
    requires GainsReadyAll(m0)
  {
    map k | k in m0 && IsInfoSetKey(k) :: GainedRecord(m0[k])
  }

  /** The table after `calcGains`: each key's cumulative gains grew by its
      instantaneous gains times its likelihood, and nothing else changed. */
  ghost predicate GainsUpdated(m0: InfoSets, m: InfoSets) {
    WellFormed(m) && GainsReadyAll(m0) && m.Keys == m0.Keys &&
    (forall k :: IsInfoSetKey(k) ==> m[k] == GainedRecord(m0[k])) &&
    (forall k :: k in m0 && !IsInfoSetKey(k) ==> m[k] == m0[k])
  }

  /** Before `calcGains` stores anything: each key's record is ready and
      its target is the gained record. */
  lemma GainsSweepStart(m0: InfoSets, keys: seq<string>)
    requires RegistryOrder(keys) && WellFormed(m0) && GainsReadyAll(m0)
    ensures Swept(m0, m0, keys, 0, GainsTarget(m0))
    ensures forall j :: 0 <= j < |keys| ==>
              keys[j] in m0 && GainReady(m0[keys[j]]) && GainsTarget(m0)[keys[j]] == GainedRecord(m0[keys[j]])
  {
    RegistryKeys(keys, m0);
  }

  lemma GainsSweepDone(m0: InfoSets, m: InfoSets, keys: seq<string>)
    requires RegistryOrder(keys) && WellFormed(m0) && GainsReadyAll(m0)
    requires Swept(m0, m, keys, |keys|, GainsTarget(m0))
    ensures GainsUpdated(m0, m)
  {
    var target := GainsTarget(m0);
    SweepDone(m0, m, keys, target);
    forall k | IsInfoSetKey(k)
      ensures k in m && HealthyRecord(m[k]) && m[k] == GainedRecord(m0[k])
    {
      assert k in keys;
      RegisteredRecord(m0, k);
      GainedRecordHealthy(m0[k]);
    }
  }

  /** The utility phase followed by the likelihood phase leaves every record
      ready for `calcGains`: utilities, expected utility and a positive likelihood. */
  lemma PhasesReadyForGains(m0: InfoSets, m1: InfoSets, m2: InfoSets)
    requires UtilitiesUpdated(m0, m1) && LikelihoodsUpdated(m1, m2)
    ensures GainsReadyAll(m2)
  {
    forall k | IsInfoSetKey(k) ensures k in m2 && GainReady(m2[k]) {
      assert UtilitiesConsistent(m1, k) && LikelihoodConsistent(m2, k);
      assert m2[k] == m1[k].(likelihood := m2[k].likelihood);
    }
  }

  /** The records `updateStrategies` stores. */
  ghost function StrategiesTarget(m0: InfoSets): InfoSets
    requires WellFormed(m0)
  {
    map k | k in m0 && IsInfoSetKey(k) :: RenormalizedRecord(m0[k])
  }

  /** The table after `updateStrategies`: each key's strategy is its share of
      the cumulative gains, and nothing else changed. */
  ghost predicate StrategiesUpdated(m0: InfoSets, m: InfoSets) {
    WellFormed(m0) && WellFormed(m) && m.Keys == m0.Keys &&
    (forall k :: IsInfoSetKey(k) ==> m[k] == RenormalizedRecord(m0[k])) &&
    (forall k :: k in m0 && !IsInfoSetKey(k) ==> m[k] == m0[k])
  }

  lemma StrategiesSweepStart(m0: InfoSets, keys: seq<string>)
    requires RegistryOrder(keys) && WellFormed(m0)
    ensures Swept(m0, m0, keys, 0, StrategiesTarget(m0))
    ensures forall j :: 0 <= j < |keys| ==>
              keys[j] in m0 && HealthyRecord(m0[keys[j]]) && StrategiesTarget(m0)[keys[j]] == RenormalizedRecord(m0[keys[j]])
  {
    RegistryKeys(keys, m0);
  }

  lemma StrategiesSweepDone(m0: InfoSets, m: InfoSets, keys: seq<string>)
    requires RegistryOrder(keys) && WellFormed(m0)
    requires Swept(m0, m, keys, |keys|, StrategiesTarget(m0))
    ensures StrategiesUpdated(m0, m)
  {
    var target := StrategiesTarget(m0);
    SweepDone(m0, m, keys, target);
    forall k | IsInfoSetKey(k)
      ensures k in m && HealthyRecord(m[k]) && m[k] == RenormalizedRecord(m0[k])
    {
      assert k in keys;
      RenormalizedRecordHealthy(m0[k]);
    }
  }

  /** The table `initInfoSets` leaves: a fresh record for each of `keys`. */
  ghost predicate FreshTable(m: InfoSets, keys: seq<string>) {
    (forall k :: k in m <==> k in keys) && (forall k :: k in m ==> m[k] == NewInfoSetData())
  }

  /** `initInfoSets` from the empty table leaves a fresh, well-formed table. */
  lemma RegisteredFresh(setIterationOrder: seq<string>, m0: InfoSets, m: InfoSets)
    requires multiset(setIterationOrder) == multiset(["", "p", "b", "pb"]) && m0 == map[]
    requires forall k :: k in m <==> k in m0 || k in InfoSetKeys(SortedByLength(setIterationOrder))
    requires forall k :: k in InfoSetKeys(SortedByLength(setIterationOrder)) ==> m[k] == NewInfoSetData()
    ensures FreshTable(m, InfoSetKeys(SortedByLength(setIterationOrder)))
    ensures RegistryOrder(InfoSetKeys(SortedByLength(setIterationOrder))) && WellFormed(m)
  {
    FreshTableWellFormed(setIterationOrder, m);
  }

  /** The tables one iteration leaves between its phases. */
  datatype Phases = Phases(beliefs: InfoSets, utilities: InfoSets, likelihoods: InfoSets, gained: InfoSets)

  /** One iteration turned `m0` into `m` through the tables `p`, with total
      gain `totGain`: beliefs, utilities, likelihoods, gains, then
      strategies, the gain being the sum over `keys` of the recorded
      per-key gains. */
  ghost predicate IterationRan(m0: InfoSets, p: Phases, m: InfoSets, totGain: real, keys: seq<string>) {
    BeliefsUpdated(m0, p.beliefs) && UtilitiesUpdated(p.beliefs, p.utilities) &&
    LikelihoodsUpdated(p.utilities, p.likelihoods) && GainsUpdated(p.likelihoods, p.gained) &&
    StrategiesUpdated(p.gained, m) &&
    totGain == RealSum(RecordGains(p.likelihoods, keys))
  }

  /** A run of `|phases|` iterations from `tables[0]`: iteration `j` turned
      `tables[j]` into `tables[j + 1]` through `phases[j]`, with total gain
      `gains[j]`. */
  ghost predicate Iterated(tables: seq<InfoSets>, phases: seq<Phases>, gains: seq<real>, keys: seq<string>)
    decreases |phases|
  {
    |tables| == |phases| + 1 && |gains| == |phases| &&
    (|phases| == 0 ||
     (var n := |phases| - 1;
      Iterated(tables[..n + 1], phases[..n], gains[..n], keys) &&
      IterationRan(tables[n], phases[n], tables[n + 1], gains[n], keys)))
  }

  /** One more iteration, from the last table, extends the run. */
  lemma IteratedStep(tables: seq<InfoSets>, phases: seq<Phases>, gains: seq<real>, keys: seq<string>,
                     p: Phases, m: InfoSets, totGain: real)
    requires Iterated(tables, phases, gains, keys)
    requires IterationRan(tables[|tables| - 1], p, m, totGain, keys)
    ensures Iterated(tables + [m], phases + [p], gains + [totGain], keys)
  {
    var ts, ps, gs := tables + [m], phases + [p], gains + [totGain];
    assert ts[..|phases| + 1] == tables && ps[..|phases|] == phases && gs[..|phases|] == gains;
  }

  /** A run of iterations from `m0` to `m`. */
  ghost predicate RanFrom(tables: seq<InfoSets>, phases: seq<Phases>, gains: seq<real>, keys: seq<string>, m0: InfoSets, m: InfoSets) {
    Iterated(tables, phases, gains, keys) && tables[0] == m0 && tables[|tables| - 1] == m
  }

  /** One more iteration, from the table the run ended at, extends it. */
  lemma RanFromStep(tables: seq<InfoSets>, phases: seq<Phases>, gains: seq<real>, keys: seq<string>, m0: InfoSets, m: InfoSets,
                    p: Phases, m': InfoSets, totGain: real)
    requires RanFrom(tables, phases, gains, keys, m0, m)
    requires IterationRan(m, p, m', totGain, keys)
    ensures RanFrom(tables + [m'], phases + [p], gains + [totGain], keys, m0, m')
  {
    IteratedStep(tables, phases, gains, keys, p, m', totGain);
  }

  class KuhnCfr {
    /** `infoSets`: one record per information-set key. */
    var infoSets: InfoSets
    /** `sortedInfoSets`: the keys, shorter ones first. */
    var sortedInfoSets: seq<string>

    /** The state between phases: the 12 keys registered once each in
        length order, and one healthy record per key. */
    ghost predicate Valid()
      reads this
    {
      RegistryOrder(sortedInfoSets) && WellFormed(infoSets)
    }

    /** The module-level globals before `initInfoSets`. */
    constructor ()
      ensures infoSets == map[] && sortedInfoSets == []
    {
      infoSets := map[];
      sortedInfoSets := [];
    }

    /** `initInfoSets`: for each history, shortest first, a fresh record for
        each rank in front of it (replacing any record already there).
        `setIterationOrder` is the order in which Python happens to iterate
        the set of decision histories. */
    method InitInfoSets(setIterationOrder: seq<string>)
      requires multiset(setIterationOrder) == multiset(["", "p", "b", "pb"])
      modifies this
      ensures sortedInfoSets == old(sortedInfoSets) + InfoSetKeys(SortedByLength(setIterationOrder))
      ensures forall k :: k in infoSets <==> k in old(infoSets) || k in InfoSetKeys(SortedByLength(setIterationOrder))
      ensures forall k :: k in InfoSetKeys(SortedByLength(setIterationOrder)) ==> infoSets[k] == NewInfoSetData()
      ensures forall k :: k in old(infoSets) && k !in InfoSetKeys(SortedByLength(setIterationOrder)) ==>
                infoSets[k] == old(infoSets)[k]
    {
      RegisterHistories(SortedByLength(setIterationOrder));
    }

    /** The outer loop of `initInfoSets` over the sorted histories. */
    method RegisterHistories(histories: seq<string>)
      modifies this
      ensures sortedInfoSets == old(sortedInfoSets) + InfoSetKeys(histories)
      ensures forall k :: k in infoSets <==> k in old(infoSets) || k in InfoSetKeys(histories)
      ensures forall k :: k in InfoSetKeys(histories) ==> infoSets[k] == NewInfoSetData()
      ensures forall k :: k in old(infoSets) && k !in InfoSetKeys(histories) ==> infoSets[k] == old(infoSets)[k]
    {
      var h := 0;
      ghost var done: seq<string> := [];
      while h < |histories|
        invariant 0 <= h <= |histories|
        invariant done == InfoSetKeys(histories[..h])
        invariant sortedInfoSets == old(sortedInfoSets) + done
        invariant forall k :: k in infoSets <==> k in old(infoSets) || k in done
        invariant forall k :: k in done ==> infoSets[k] == NewInfoSetData()
        invariant forall k :: k in old(infoSets) && k !in done ==> infoSets[k] == old(infoSets)[k]
      {
        InfoSetKeysStep(histories, h);
        RegisterRanks(histories[h]);
        done := done + PrependEach(RANKS, histories[h]);
        h := h + 1;
      }
      assert histories[..h] == histories;
    }

    /** The inner loop of `initInfoSets`: a fresh record for each rank in
        front of `actionStrs`, in `RANKS` order. */
    method RegisterRanks(actionStrs: string)
      modifies this
      ensures sortedInfoSets == old(sortedInfoSets) + PrependEach(RANKS, actionStrs)
      ensures forall k :: k in infoSets <==> k in old(infoSets) || k in PrependEach(RANKS, actionStrs)
      ensures forall k :: k in PrependEach(RANKS, actionStrs) ==> infoSets[k] == NewInfoSetData()
      ensures forall k :: k in old(infoSets) && k !in PrependEach(RANKS, actionStrs) ==> infoSets[k] == old(infoSets)[k]
    {
      var r := 0;
      while r < |RANKS|
        invariant 0 <= r <= |RANKS|
        invariant sortedInfoSets == old(sortedInfoSets) + PrependEach(RANKS[..r], actionStrs)
        invariant forall k :: k in infoSets <==> k in old(infoSets) || k in PrependEach(RANKS[..r], actionStrs)
        invariant forall k :: k in PrependEach(RANKS[..r], actionStrs) ==> infoSets[k] == NewInfoSetData()
        invariant forall k :: k in old(infoSets) && k !in PrependEach(RANKS[..r], actionStrs) ==> infoSets[k] == old(infoSets)[k]
      {
        var infoSetStr := RANKS[r] + actionStrs;
        assert PrependEach(RANKS[..r + 1], actionStrs) == PrependEach(RANKS[..r], actionStrs) + [infoSetStr];
        infoSets := infoSets[infoSetStr := NewInfoSetData()];
        sortedInfoSets := sortedInfoSets + [infoSetStr];
        r := r + 1;
      }
      assert RANKS[..r] == RANKS;
    }

    /** One key of `updateBeliefs`: for a root key each other rank gets
        1 / 2; otherwise each ancestor's pocket gets its probability of the
        last action divided by the total over the ancestors. */
    method BeliefsOf(infoSetStr: string) returns (beliefs: map<string, real>)
      requires WellFormed(infoSets) && IsInfoSetKey(infoSetStr)
      ensures beliefs == UpdatedBeliefs(infoSets, infoSetStr)
    {
      RegisteredRecord(infoSets, infoSetStr);
      var infoSet := infoSets[infoSetStr];
      beliefs := infoSet.beliefs;
      if |infoSetStr| == 1 {
        var possibleOpponentPockets := GetPossibleOpponentPockets(infoSetStr[..1]);
        var j := 0;
        while j < |possibleOpponentPockets|
          invariant 0 <= j <= |possibleOpponentPockets|
          invariant beliefs == UniformBeliefs(infoSet.beliefs, possibleOpponentPockets[..j], |possibleOpponentPockets|)
        {
          assert possibleOpponentPockets[..j + 1][..j] == possibleOpponentPockets[..j];
          beliefs := beliefs[possibleOpponentPockets[j] := 1.0 / (|possibleOpponentPockets| as real)];
          j := j + 1;
        }
        assert possibleOpponentPockets[..j] == possibleOpponentPockets;
      } else {
        beliefs := PosteriorOf(infoSetStr);
      }
    }

    /** The two loops of `updateBeliefs` over the ancestors of a non-root key. */
    method PosteriorOf(infoSetStr: string) returns (beliefs: map<string, real>)
      requires WellFormed(infoSets) && IsInfoSetKey(infoSetStr) && |infoSetStr| >= 2
      ensures beliefs == UpdatedBeliefs(infoSets, infoSetStr)
    {
      AncestorsOfKey(infoSets, infoSetStr);
      var ancestralInfoSetStrs := GetAncestralInfoSetStr(infoSetStr).value;
      var lastAction := infoSetStr[|infoSetStr| - 1..];
      var tot := AncestorTotalOf(ancestralInfoSetStrs, lastAction);
      beliefs := PosteriorLoop(infoSets[infoSetStr].beliefs, ancestralInfoSetStrs, lastAction, tot);
    }

    /** The first loop over the ancestors: the total probability of the last action. */
    method AncestorTotalOf(ancestors: seq<string>, lastAction: string) returns (tot: real)
      requires AncestorsReady(infoSets, ancestors, lastAction)
      ensures tot == AncestorTotal(infoSets, ancestors, lastAction)
    {
      tot := 0.0;
      var j := 0;
      while j < |ancestors|
        invariant 0 <= j <= |ancestors|
        invariant AncestorsReady(infoSets, ancestors[..j], lastAction)
        invariant tot == AncestorTotal(infoSets, ancestors[..j], lastAction)
      {
        assert ancestors[..j + 1][..j] == ancestors[..j];
        assert ancestors[j] in ancestors;
        var oppInfoSet := infoSets[ancestors[j]];
        tot := tot + oppInfoSet.actions[lastAction].strategy;
        j := j + 1;
      }
      assert ancestors[..j] == ancestors;
    }

    /** The second loop over the ancestors: each ancestor's pocket gets its
        probability of the last action divided by `tot`. */
    method PosteriorLoop(beliefs0: map<string, real>, ancestors: seq<string>, lastAction: string, tot: real)
      returns (beliefs: map<string, real>)
      requires AncestorsReady(infoSets, ancestors, lastAction) && tot != 0.0
      ensures beliefs == PosteriorBeliefs(beliefs0, infoSets, ancestors, lastAction, tot)
    {
      var m := infoSets;
      beliefs := beliefs0;
      var j := 0;
      while j < |ancestors|
        invariant 0 <= j <= |ancestors|
        invariant AncestorsReady(m, ancestors[..j], lastAction)
        invariant beliefs == PosteriorBeliefs(beliefs0, m, ancestors[..j], lastAction, tot)
      {
        assert ancestors[..j + 1][..j] == ancestors[..j];
        assert ancestors[j] in ancestors;
        var oppInfoSet := m[ancestors[j]];
        var oppPocket := ancestors[j][..1];
        assert PosteriorBeliefs(beliefs0, m, ancestors[..j + 1], lastAction, tot)
            == PosteriorBeliefs(beliefs0, m, ancestors[..j], lastAction, tot)[oppPocket := oppInfoSet.actions[lastAction].strategy / tot];
        beliefs := beliefs[oppPocket := oppInfoSet.actions[lastAction].strategy / tot];
        j := j + 1;
      }
      assert ancestors[..j] == ancestors;
    }

    /** `updateBeliefs`: every key, in registration order, gets the beliefs
        the strategies determine; nothing else changes. */
    method UpdateBeliefs()
      requires Valid()
      modifies this
      ensures Valid() && sortedInfoSets == old(sortedInfoSets)
      ensures BeliefsUpdated(old(infoSets), infoSets)
    {
      ghost var m0 := infoSets;
      BeliefsSweepStart(m0, sortedInfoSets);
      var i := 0;
      while i < |sortedInfoSets|
        invariant 0 <= i <= |sortedInfoSets| && sortedInfoSets == old(sortedInfoSets)
        invariant BeliefsSweep(m0, infoSets, sortedInfoSets, i)
      {
        UpdateBeliefsAt(m0, i);
        i := i + 1;
      }
      BeliefsSweepDone(m0, infoSets, sortedInfoSets);
    }

    /** One pass of the loop of `updateBeliefs`: the `i`-th key gets its beliefs. */
    method UpdateBeliefsAt(ghost m0: InfoSets, i: nat)
      requires i < |sortedInfoSets| && BeliefsSweep(m0, infoSets, sortedInfoSets, i)
      modifies this
      ensures sortedInfoSets == old(sortedInfoSets) && BeliefsSweep(m0, infoSets, sortedInfoSets, i + 1)
    {
      var infoSetStr := sortedInfoSets[i];
      ghost var m := infoSets;
      BeliefsSweepStep(m0, m, sortedInfoSets, i);
      var beliefs := BeliefsOf(infoSetStr);
      infoSets := infoSets[infoSetStr := infoSets[infoSetStr].(beliefs := beliefs)];
      assert infoSets == m[infoSetStr := m[infoSetStr].(beliefs := UpdatedBeliefs(m, infoSetStr))];
    }


    /** The utility phase of an iteration: `updateUtilitiesForInfoSetStr`
        on every key, longest first, so that each key reads utilities
        already computed for the keys after it. */
    method UpdateUtilities()
      requires Valid() && BeliefsHeld(infoSets)
      modifies this
      ensures Valid() && sortedInfoSets == old(sortedInfoSets)
      ensures UtilitiesUpdated(old(infoSets), infoSets)
    {
      ghost var m0 := infoSets;
      UtilitiesSweepStart(m0, sortedInfoSets);
      var i := |sortedInfoSets|;
      while i > 0
        invariant 0 <= i <= |sortedInfoSets| && sortedInfoSets == old(sortedInfoSets)
        invariant UtilitiesSweep(m0, infoSets, sortedInfoSets, i)
      {
        UtilitiesSweepReady(m0, infoSets, sortedInfoSets, i);
        UtilitiesSweepStep(m0, infoSets, sortedInfoSets, i);
        UpdateUtilitiesForInfoSetStr(sortedInfoSets[i - 1]);
        i := i - 1;
      }
      UtilitiesSweepDone(m0, infoSets, sortedInfoSets);
    }

    /** `calcInfoSetLikelihoods`: every key, shortest first, gets the
        probability of reaching it; nothing else changes. */
    method CalcInfoSetLikelihoods()
      requires Valid()
      modifies this
      ensures Valid() && sortedInfoSets == old(sortedInfoSets)
      ensures LikelihoodsUpdated(old(infoSets), infoSets)
    {
      ghost var m0 := infoSets;
      var i := 0;
      while i < |sortedInfoSets|
        invariant 0 <= i <= |sortedInfoSets| && sortedInfoSets == old(sortedInfoSets)
        invariant LikelihoodSweep(m0, infoSets, sortedInfoSets, i)
      {
        var infoSetStr := sortedInfoSets[i];
        LikelihoodSweepReady(m0, infoSets, sortedInfoSets, i);
        LikelihoodSweepStep(m0, infoSets, sortedInfoSets, i);
        var likelihood := LikelihoodOf(infoSetStr);
        infoSets := infoSets[infoSetStr := infoSets[infoSetStr].(likelihood := Some(likelihood))];
        i := i + 1;
      }
      LikelihoodSweepDone(m0, infoSets, sortedInfoSets);
    }

    /** `calcGains`: every key's cumulative gains grow by the instantaneous
        gains `max(0, util - expectedUtil)` times its likelihood; the result
        is the sum of all instantaneous gains. */
    method CalcGains() returns (totAddedGain: real)
      requires Valid() && GainsReadyAll(infoSets)
      modifies this
      ensures Valid() && sortedInfoSets == old(sortedInfoSets)
      ensures GainsUpdated(old(infoSets), infoSets)
      ensures totAddedGain == RealSum(RecordGains(old(infoSets), sortedInfoSets)) && totAddedGain >= 0.0
    {
      ghost var m0 := infoSets;
      GainsSweepStart(m0, sortedInfoSets);
      infoSets, totAddedGain := AddGainsToAll(infoSets, sortedInfoSets, GainsTarget(m0), RecordGains(m0, sortedInfoSets));
      GainsSweepDone(m0, infoSets, sortedInfoSets);
    }

    /** The loop of `calcGains` over `keys`, on the table `m0`: every key's
        record is replaced by its gained record `target` names, and the total
        is the sum of what the records add. */
    static method AddGainsToAll(m0: InfoSets, keys: seq<string>, ghost target: InfoSets, ghost gains: seq<real>)
      returns (m: InfoSets, totAddedGain: real)
      requires Distinct(keys) && Swept(m0, m0, keys, 0, target) && |gains| == |keys|
      requires forall j :: 0 <= j < |keys| ==>
                 keys[j] in m0 && GainReady(m0[keys[j]]) && target[keys[j]] == GainedRecord(m0[keys[j]]) &&
                 gains[j] == RecordGain(m0[keys[j]])
      ensures Swept(m0, m, keys, |keys|, target)
      ensures totAddedGain == RealSum(gains)
    {
      m := m0;
      totAddedGain := 0.0;
      var i := 0;
      while i < |keys|
        invariant i <= |keys| && totAddedGain == RealSum(gains[..i])
        invariant Swept(m0, m, keys, i, target)
      {
        SweepStep(m0, m, keys, i, target);
        var infoSet, gain := GainedRecordOf(m[keys[i]]);
        m := m[keys[i] := infoSet];
        PrefixStep(gains, i);
        totAddedGain := totAddedGain + gain;
        i := i + 1;
      }
      WholePrefix(gains, i);
    }

    /** The body of the loop of `calcGains`, on one record. */
    static method GainedRecordOf(infoSet0: InfoSetData) returns (infoSet: InfoSetData, gain: real)
      requires GainReady(infoSet0)
      ensures infoSet == GainedRecord(infoSet0) && gain == RecordGain(infoSet0)
    {
      var actions;
      actions, gain := AddRecordGains(infoSet0.actions, ACTIONS, infoSet0.expectedUtil.value, infoSet0.likelihood.value, 0.0);
      assert Distinct(ACTIONS);
      AddGainsClosedForm(infoSet0.actions, ACTIONS, infoSet0.expectedUtil.value, infoSet0.likelihood.value);
      infoSet := infoSet0.(actions := actions);
    }

    /** The loop of `calcGains` over the actions of one record: each action's
        cumulative gain grows by its instantaneous gain times `likelihood`,
        and the instantaneous gain is added to the running total. */
    static method AddRecordGains(acts0: ActionTable, actions: seq<string>, expectedUtil: real, likelihood: real, totAddedGain0: real)
      returns (acts: ActionTable, totAddedGain: real)
      requires HasUtils(acts0, actions)
      ensures acts == AddGains(acts0, actions, expectedUtil, likelihood).0
      ensures totAddedGain == totAddedGain0 + AddGains(acts0, actions, expectedUtil, likelihood).1
    {
      acts := acts0;
      totAddedGain := totAddedGain0;
      for i := 0 to |actions|
        invariant HasUtils(acts0, actions[..i])
        invariant acts == AddGains(acts0, actions[..i], expectedUtil, likelihood).0
        invariant totAddedGain == totAddedGain0 + AddGains(acts0, actions[..i], expectedUtil, likelihood).1
      {
        var action := actions[i];
        PrefixStep(actions, i);
        assert action in actions;
        var utilForActionPureStrat := acts[action].util.value;
        var gain := Gain(utilForActionPureStrat, expectedUtil);
        totAddedGain := totAddedGain + gain;
        acts := acts[action := acts[action].(cumulativeGain := acts[action].cumulativeGain + Scaled(gain, likelihood))];
      }
      WholePrefix(actions, |actions|);
    }

    /** One key of `calcInfoSetLikelihoods`: 1/3 for a root key, and the
        sum over the opponent's pockets for a longer key. */
    method LikelihoodOf(infoSetStr: string) returns (likelihood: real)
      requires WellFormed(infoSets) && IsInfoSetKey(infoSetStr) && LikelihoodReady(infoSets, infoSetStr)
      ensures likelihood == UpdatedLikelihood(infoSets, infoSetStr)
    {
      likelihood := 0.0;
      if |infoSetStr| == 1 {
        likelihood := 1.0 / (|RANKS| as real);
      } else if |infoSetStr| == 2 {
        likelihood := SecondKeyLikelihood(infoSetStr);
      } else {
        likelihood := LastKeyLikelihood(infoSetStr);
      }
    }

    /** The loop for the second key of the game: each opponent pocket adds
        the opponent's probability of the last action divided by the 6 deals. */
    method SecondKeyLikelihood(infoSetStr: string) returns (likelihood: real)
      requires WellFormed(infoSets) && IsInfoSetKey(infoSetStr) && |infoSetStr| == 2
      ensures likelihood == UpdatedLikelihood(infoSets, infoSetStr)
    {
      var m := infoSets;
      var possibleOppPockets := GetPossibleOpponentPockets(infoSetStr[..1]);
      var lastAction := infoSetStr[|infoSetStr| - 1..];
      likelihood := 0.0;
      var j := 0;
      while j < |possibleOppPockets|
        invariant 0 <= j <= |possibleOppPockets|
        invariant likelihood == LikelihoodSum(m, infoSetStr, possibleOppPockets[..j])
      {
        var oppPocket := possibleOppPockets[j];
        PrefixStep(possibleOppPockets, j);
        ParentIsRegistered(infoSetStr, oppPocket);
        var oppInfoSet := m[oppPocket + infoSetStr[1..|infoSetStr| - 1]];
        var s := oppInfoSet.actions[lastAction].strategy;
        assert s == LastActionProbability(m, infoSetStr, oppPocket);
        likelihood := likelihood + s / ((|RANKS| * |possibleOppPockets|) as real);
        j := j + 1;
      }
      WholePrefix(possibleOppPockets, j);
    }

    /** The loop for the last key of the game: each opponent pocket adds the
        opponent's probability of the last action times the likelihood of
        the key two actions back shared over the 2 pockets. */
    method LastKeyLikelihood(infoSetStr: string) returns (likelihood: real)
      requires WellFormed(infoSets) && IsInfoSetKey(infoSetStr) && |infoSetStr| >= 3 && LikelihoodReady(infoSets, infoSetStr)
      ensures likelihood == UpdatedLikelihood(infoSets, infoSetStr)
    {
      var m := infoSets;
      var possibleOppPockets := GetPossibleOpponentPockets(infoSetStr[..1]);
      var lastAction := infoSetStr[|infoSetStr| - 1..];
      likelihood := 0.0;
      var j := 0;
      while j < |possibleOppPockets|
        invariant 0 <= j <= |possibleOppPockets|
        invariant likelihood == LikelihoodSum(m, infoSetStr, possibleOppPockets[..j])
      {
        var oppPocket := possibleOppPockets[j];
        PrefixStep(possibleOppPockets, j);
        ParentIsRegistered(infoSetStr, oppPocket);
        var oppInfoSet := m[oppPocket + infoSetStr[1..|infoSetStr| - 1]];
        var s := oppInfoSet.actions[lastAction].strategy;
        assert s == LastActionProbability(m, infoSetStr, oppPocket);
        var infoSetTwoLevelsAgo := m[infoSetStr[..|infoSetStr| - 2]];
        var ancestorLikelihood := infoSetTwoLevelsAgo.likelihood.value / (|possibleOppPockets| as real);
        assert LikelihoodTerm(infoSetStr, s, GrandparentLikelihood(m, infoSetStr)) == s * ancestorLikelihood;
        assert LikelihoodSum(m, infoSetStr, possibleOppPockets[..j + 1])
            == LikelihoodSum(m, infoSetStr, possibleOppPockets[..j]) + LikelihoodTerm(infoSetStr, s, GrandparentLikelihood(m, infoSetStr));
        likelihood := likelihood + s * ancestorLikelihood;
        j := j + 1;
      }
      WholePrefix(possibleOppPockets, j);
    }

    /** The loop of `updateUtilitiesForInfoSetStr` over the opponent's
        answers at descendant `d`: each answer adds belief x answer
        probability x value to the terminal accumulator when it ends the
        game, and to the information-set accumulator otherwise. */
    method AddAnswers(infoSetStr: string, action: string, d: string, fromInfoSets0: real, fromTerminal0: real)
      returns (fromInfoSets: real, fromTerminal: real)
      requires IsInfoSetKey(infoSetStr) && PassBetReady(infoSets, infoSetStr) && action in ACTIONS
      requires infoSetStr[1..] + action !in TERMINAL_ACTION_STR_MAP
      requires DescendantOf(infoSetStr, action, d) && infoSetStr in infoSets
      requires d[..1] in infoSets[infoSetStr].beliefs && Answerable(infoSets, d)
      ensures fromInfoSets + fromTerminal == fromInfoSets0 + fromTerminal0 + ResponsesUtil(infoSets, infoSetStr, action, d, ACTIONS)
    {
      var m := infoSets;
      var probOfThisInfoSet := m[infoSetStr].beliefs[d[..1]];
      var descendantInfoSet := m[d];
      fromInfoSets, fromTerminal := fromInfoSets0, fromTerminal0;
      var i := 0;
      while i < |ACTIONS|
        invariant 0 <= i <= |ACTIONS|
        invariant fromInfoSets + fromTerminal == fromInfoSets0 + fromTerminal0 + ResponsesUtil(m, infoSetStr, action, d, ACTIONS[..i])
      {
        var oppAction := ACTIONS[i];
        PrefixStep(ACTIONS, i);
        var probOfThisAction := descendantInfoSet.actions[oppAction].strategy;
        var destinationInfoSetStr := infoSetStr + action + oppAction;
        var destinationActionStr := destinationInfoSetStr[1..];
        assert destinationActionStr == infoSetStr[1..] + action + oppAction;
        // the payoff when the answer ends the game, the expected utility
        // recorded at the destination key otherwise
        var value := ResponseValue(m, infoSetStr, action, d[..1], oppAction);
        assert ResponsesUtil(m, infoSetStr, action, d, ACTIONS[..i + 1])
            == ResponsesUtil(m, infoSetStr, action, d, ACTIONS[..i]) + probOfThisInfoSet * probOfThisAction * value;
        if destinationActionStr in TERMINAL_ACTION_STR_MAP {
          fromTerminal := fromTerminal + probOfThisInfoSet * probOfThisAction * value;
        } else {
          fromInfoSets := fromInfoSets + probOfThisInfoSet * probOfThisAction * value;
        }
        i := i + 1;
      }
      WholePrefix(ACTIONS, i);
    }

    /** The loop of `updateUtilitiesForInfoSetStr` over the descendants of
        one action: the sum of the two accumulators is the action's utility. */
    method ActionUtilOf(infoSetStr: string, action: string) returns (util: real)
      requires UtilReady(infoSets, infoSetStr) && action in ACTIONS
      ensures util == ActionUtil(infoSets, infoSetStr, action)
    {
      DescendantsOfKey(infoSets, infoSetStr, action);
      var m := infoSets;
      var actionStr := infoSetStr[1..] + action;
      var descendantInfoSetStrs := GetDescendantInfoSetStrs(infoSetStr, action).value;
      var fromInfoSets, fromTerminal := 0.0, 0.0;
      var j := 0;
      while j < |descendantInfoSetStrs|
        invariant 0 <= j <= |descendantInfoSetStrs|
        invariant fromInfoSets + fromTerminal == DescendantsUtil(m, infoSetStr, action, descendantInfoSetStrs[..j])
      {
        var d := descendantInfoSetStrs[j];
        assert descendantInfoSetStrs[..j + 1][..j] == descendantInfoSetStrs[..j];
        assert descendantInfoSetStrs[..j + 1][j] == d;
        assert d in descendantInfoSetStrs;
        var probOfThisInfoSet := m[infoSetStr].beliefs[d[..1]];
        if actionStr in TERMINAL_ACTION_STR_MAP {
          fromTerminal := fromTerminal + Weighted(probOfThisInfoSet, TerminalUtil(infoSetStr, d[..1], actionStr));
        } else {
          fromInfoSets, fromTerminal := AddAnswers(infoSetStr, action, d, fromInfoSets, fromTerminal);
        }
        j := j + 1;
      }
      assert descendantInfoSetStrs[..j] == descendantInfoSetStrs;
      util := fromInfoSets + fromTerminal;
    }

    /** `updateUtilitiesForInfoSetStr`: the record at the key gets both
        actions' utilities and the strategy's expected utility; no other
        record changes. */
    method UpdateUtilitiesForInfoSetStr(infoSetStr: string)
      requires UtilReady(infoSets, infoSetStr)
      modifies this`infoSets
      ensures infoSets == old(infoSets)[infoSetStr := UpdatedUtilities(old(infoSets), infoSetStr)]
    {
      var infoSet := infoSets[infoSetStr];
      var acts := ActionUtilsOf(infoSetStr, ACTIONS, ActionUtils(infoSets, infoSetStr));
      var expectedUtil := ExpectedUtilOf(acts);
      var updated := infoSet.(actions := acts, expectedUtil := Some(expectedUtil));
      assert UpdatedUtilities(infoSets, infoSetStr) == updated;
      infoSets := infoSets[infoSetStr := updated];
    }

    /** The loop of `updateUtilitiesForInfoSetStr` over the actions: each
        action's utility is stored in the key's action table. */
    method ActionUtilsOf(infoSetStr: string, actions: seq<string>, ghost utils: map<string, real>) returns (acts: ActionTable)
      requires UtilReady(infoSets, infoSetStr)
      requires forall a :: a in actions ==> a in ACTIONS && a in utils && utils[a] == ActionUtil(infoSets, infoSetStr, a)
      ensures acts == WithActionUtils(infoSets[infoSetStr].actions, actions, utils)
    {
      RegisteredRecord(infoSets, infoSetStr);
      var acts0 := infoSets[infoSetStr].actions;
      acts := acts0;
      for i := 0 to |actions|
        invariant acts == WithActionUtils(acts0, actions[..i], utils)
      {
        var action := actions[i];
        PrefixStep(actions, i);
        var util := ActionUtilOf(infoSetStr, action);
        acts := acts[action := acts[action].(util := Some(util))];
      }
      WholePrefix(actions, |actions|);
    }

    /** The last loop of `updateUtilitiesForInfoSetStr`: the expected utility
        of the strategy, the sum of strategy times utility. */
    static method ExpectedUtilOf(acts: ActionTable) returns (expectedUtil: real)
      requires HasUtils(acts, ACTIONS)
      ensures expectedUtil == ExpectedUtil(acts, ACTIONS)
    {
      expectedUtil := 0.0;
      var i := 0;
      while i < |ACTIONS|
        invariant 0 <= i <= |ACTIONS|
        invariant expectedUtil == ExpectedUtil(acts, ACTIONS[..i])
      {
        var actionData := acts[ACTIONS[i]];
        PrefixStep(ACTIONS, i);
        expectedUtil := expectedUtil + actionData.strategy * actionData.util.value;
        i := i + 1;
      }
      WholePrefix(ACTIONS, i);
    }

    /** `updateStrategies`: every key's strategy becomes each action's share
        of the key's cumulative gains; nothing else changes. */
    method UpdateStrategies()
      requires Valid()
      modifies this
      ensures Valid() && sortedInfoSets == old(sortedInfoSets)
      ensures StrategiesUpdated(old(infoSets), infoSets)
    {
      ghost var m0 := infoSets;
      StrategiesSweepStart(m0, sortedInfoSets);
      infoSets := RenormalizeAll(infoSets, sortedInfoSets, StrategiesTarget(m0));
      StrategiesSweepDone(m0, infoSets, sortedInfoSets);
    }

    /** The loop of `updateStrategies` over `keys`, on the table `m0`: every
        key's record is replaced by the renormalised record `target` names. */
    static method RenormalizeAll(m0: InfoSets, keys: seq<string>, ghost target: InfoSets) returns (m: InfoSets)
      requires Distinct(keys) && Swept(m0, m0, keys, 0, target)
      requires forall j :: 0 <= j < |keys| ==>
                 keys[j] in m0 && HealthyRecord(m0[keys[j]]) && target[keys[j]] == RenormalizedRecord(m0[keys[j]])
      ensures Swept(m0, m, keys, |keys|, target)
    {
      m := m0;
      var i := 0;
      while i < |keys|
        invariant i <= |keys| && Swept(m0, m, keys, i, target)
      {
        SweepStep(m0, m, keys, i, target);
        var infoSet := RenormalizedRecordOf(m[keys[i]]);
        m := m[keys[i] := infoSet];
        i := i + 1;
      }
    }

    /** The body of the loop of `updateStrategies`, on one record: the sum of
        the cumulative gains, then each action's share of it. The sum is at
        least 1, so the division is defined. */
    static method RenormalizedRecordOf(infoSet0: InfoSetData) returns (infoSet: InfoSetData)
      requires HealthyRecord(infoSet0)
      ensures infoSet == RenormalizedRecord(infoSet0)
    {
      CumulativeGainTotalAtLeast(infoSet0.actions, ACTIONS, 1.0 / 2.0);
      var totGains := CumulativeGainTotal(infoSet0.actions, ACTIONS);
      var acts := infoSet0.actions;
      for i := 0 to |ACTIONS|
        invariant acts == Renormalized(infoSet0.actions, ACTIONS[..i], totGains)
      {
        var action := ACTIONS[i];
        PrefixStep(ACTIONS, i);
        var gain := acts[action].cumulativeGain;
        acts := acts[action := acts[action].(strategy := Share(gain, totGains))];
      }
      WholePrefix(ACTIONS, |ACTIONS|);
      infoSet := infoSet0.(actions := acts);
    }

    /** One pass of the training loop: beliefs, then utilities longest key
        first, then likelihoods, then gains, then strategies, each phase
        reading the table the previous one left. The ghost results are the
        tables between the phases. */
    method RunIteration() returns (totGain: real, ghost beliefs: InfoSets, ghost utilities: InfoSets,
                                   ghost likelihoods: InfoSets, ghost gained: InfoSets)
      requires Valid()
      modifies this
      ensures Valid() && sortedInfoSets == old(sortedInfoSets)
      ensures IterationRan(old(infoSets), Phases(beliefs, utilities, likelihoods, gained), infoSets, totGain, sortedInfoSets)
      ensures totGain >= 0.0
    {
      ghost var m0 := infoSets;
      UpdateBeliefs();
      beliefs := infoSets;
      UpdatedBeliefsHeld(m0, beliefs);
      UpdateUtilities();
      utilities := infoSets;
      CalcInfoSetLikelihoods();
      likelihoods := infoSets;
      PhasesReadyForGains(beliefs, utilities, likelihoods);
      totGain := CalcGains();
      gained := infoSets;
      UpdateStrategies();
    }

    /** The script's main block, for `numIterations` iterations recording
        every `gainGrpSize`-th total gain: the table is registered, then
        trained. `tables[0]` is the registered table; iteration `j` turns
        `tables[j]` into `tables[j + 1]` through the tables `phases[j]`, its
        total gain being `iterationGains[j]`. `totGains` holds the gains of
        the iterations whose index is a multiple of the group size. Every
        strategy stays a distribution throughout. */
    method Train(setIterationOrder: seq<string>, numIterations: nat, numGainsToPlot: nat)
      returns (totGains: seq<real>, ghost iterationGains: seq<real>, ghost tables: seq<InfoSets>, ghost phases: seq<Phases>)
      requires infoSets == map[] && sortedInfoSets == []
      requires multiset(setIterationOrder) == multiset(["", "p", "b", "pb"])
      requires numGainsToPlot > 0
      modifies this
      ensures Valid() && sortedInfoSets == InfoSetKeys(SortedByLength(setIterationOrder))
      ensures |tables| >= 1 && FreshTable(tables[0], sortedInfoSets)
      ensures Iterated(tables, phases, iterationGains, sortedInfoSets) && infoSets == tables[|tables| - 1]
      ensures |iterationGains| == numIterations && NonNegative(iterationGains)
      ensures Recorded(totGains, iterationGains, GainGroupSize(numIterations, numGainsToPlot))
    {
      InitInfoSets(setIterationOrder);
      assert sortedInfoSets == InfoSetKeys(SortedByLength(setIterationOrder));
      RegisteredFresh(setIterationOrder, old(infoSets), infoSets);
      totGains, iterationGains, tables, phases := Iterations(numIterations, GainGroupSize(numIterations, numGainsToPlot));
    }

    /** The `for` loop of the main block: `numIterations` iterations from
        the current table, as `Train` describes them. */
    method Iterations(numIterations: nat, gainGrpSize: nat)
      returns (totGains: seq<real>, ghost iterationGains: seq<real>, ghost tables: seq<InfoSets>, ghost phases: seq<Phases>)
      requires Valid() && gainGrpSize > 0
      modifies this
      ensures Valid() && sortedInfoSets == old(sortedInfoSets)
      ensures RanFrom(tables, phases, iterationGains, sortedInfoSets, old(infoSets), infoSets)
      ensures |iterationGains| == numIterations && NonNegative(iterationGains)
      ensures Recorded(totGains, iterationGains, gainGrpSize)
    {
      RecordedNothing(gainGrpSize);
      totGains := [];
      iterationGains := [];
      tables := [infoSets];
      phases := [];
      for i := 0 to numIterations
        invariant Valid() && sortedInfoSets == old(sortedInfoSets)
        invariant |iterationGains| == i && NonNegative(iterationGains)
        invariant Recorded(totGains, iterationGains, gainGrpSize)
        invariant RanFrom(tables, phases, iterationGains, sortedInfoSets, old(infoSets), infoSets)
      {
        var totGain;
        ghost var m := infoSets;
        ghost var beliefs, utilities, likelihoods, gained;
        totGain, beliefs, utilities, likelihoods, gained := RunIteration();
        RanFromStep(tables, phases, iterationGains, sortedInfoSets, old(infoSets), m, Phases(beliefs, utilities, likelihoods, gained), infoSets, totGain);
        tables := tables + [infoSets];
        phases := phases + [Phases(beliefs, utilities, likelihoods, gained)];
        RecordedStep(totGains, iterationGains, gainGrpSize, totGain);
        if i % gainGrpSize == 0 {
          totGains := totGains + [totGain];
        }
        iterationGains := iterationGains + [totGain];
      }
    }

    /** The script as written: a million iterations, every second total
        gain recorded, 500 000 in all; `tables`, `phases` and
        `iterationGains` are the run as `Train` describes it. */
    method RunScript(setIterationOrder: seq<string>)
      returns (totGains: seq<real>, ghost iterationGains: seq<real>, ghost tables: seq<InfoSets>, ghost phases: seq<Phases>)
      requires infoSets == map[] && sortedInfoSets == []
      requires multiset(setIterationOrder) == multiset(["", "p", "b", "pb"])
      modifies this
      ensures Valid() && |totGains| == NUM_GAINS_TO_PLOT
      ensures |tables| >= 1 && FreshTable(tables[0], sortedInfoSets)
      ensures Iterated(tables, phases, iterationGains, sortedInfoSets) && infoSets == tables[|tables| - 1]
      ensures |iterationGains| == NUM_ITERATIONS && Recorded(totGains, iterationGains, 2)
      ensures forall j :: 0 <= j < |totGains| ==> totGains[j] >= 0.0
    {
      totGains, iterationGains, tables, phases := Train(setIterationOrder, NUM_ITERATIONS, NUM_GAINS_TO_PLOT);
      ScriptGainGroupSize();
    }
  }
}
