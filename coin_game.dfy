/** The pure part of the coin-guessing game solver (main.py): `P` players each
    hide between 0 and `C` coins and in turn guess the total. An
    information-set key is the decimal count of the deciding player's own
    coins followed by the guesses made before it, each written with `str`. */
module CoinGame {
  import opened Outcomes
  import opened PyStr
  import opened RegretMatching

  /** `[str(i) for i in range(lo, hi)]`. */
  function StrRange(lo: int, hi: int): (r: seq<string>)
    requires 0 <= lo
    ensures |r| == if hi <= lo then 0 else hi - lo
    ensures forall i :: 0 <= i < |r| ==> r[i] == Str(lo + i)
  {
    if hi <= lo then [] else seq(hi - lo, i requires 0 <= i < hi - lo => Str(lo + i))
  }

  /** A string is in `StrRange(lo, hi)` exactly when it is the decimal string of a number in `[lo, hi)`. */
  lemma StrRangeMembers(lo: nat, hi: int, s: string)
    ensures s in StrRange(lo, hi) <==> exists v :: lo <= v < hi && s == Str(v)
  {
    var r := StrRange(lo, hi);
    if s in r {
      var i :| 0 <= i < |r| && r[i] == s;
      assert lo <= lo + i < hi && s == Str(lo + i);
    }
    if exists v :: lo <= v < hi && s == Str(v) {
      var v :| lo <= v < hi && s == Str(v);
      assert r[v - lo] == s;
    }
  }

  /** Different numbers have different decimal strings, so a range has no repeats. */
  lemma StrRangeDistinct(lo: nat, hi: int)
    ensures Distinct(StrRange(lo, hi))
  {
    var r := StrRange(lo, hi);
    forall i, j | 0 <= i < j < |r| ensures r[i] != r[j] {
      StrInjective(lo + i, lo + j);
    }
  }

  /** `pow(base, exp)` on naturals. */
  function Pow(base: nat, exp: nat): (r: nat)
    ensures base >= 1 ==> r >= 1
  {
    if exp == 0 then 1 else base * Pow(base, exp - 1)
  }

  /** `historic[1:]`: the guesses in a key. */
  function Guesses(historic: string): (g: string)
    ensures |historic| >= 1 ==> g == historic[1..]
    ensures |historic| == 0 ==> g == ""
  {
    PySlice(historic, 1, |historic|)
  }

  // ---------------------------------------------------------------------
  // Legal guesses

  /** The numbers `j` in `[lo, hi)` whose decimal string does not occur as
      text in `guesses`, in ascending order. */
  function UnusedValues(guesses: string, lo: nat, hi: nat): (r: seq<nat>)
    ensures forall i :: 0 <= i < |r| ==> lo <= r[i] < hi && !Contains(guesses, Str(r[i]))
    ensures forall i, j :: 0 <= i < j < |r| ==> r[i] < r[j]
    decreases hi - lo
  {
    if lo >= hi then []
    else (if Contains(guesses, Str(lo)) then [] else [lo]) + UnusedValues(guesses, lo + 1, hi)
  }

  /** `str` of every number of `vs`. */
  function Strs(vs: seq<nat>): (r: seq<string>)
    ensures |r| == |vs| && forall i :: 0 <= i < |vs| ==> r[i] == Str(vs[i])
  {
    seq(|vs|, i requires 0 <= i < |vs| => Str(vs[i]))
  }

  /** Every number in `[lo, hi)` whose string does not occur in `guesses` is kept. */
  lemma {:induction false} UnusedValuesComplete(guesses: string, lo: nat, hi: nat, v: nat)
    requires lo <= v < hi && !Contains(guesses, Str(v))
    ensures v in UnusedValues(guesses, lo, hi)
    decreases hi - lo
  {
    if v > lo {
      UnusedValuesComplete(guesses, lo + 1, hi, v);
    }
  }

  /** What `get_possible_actions(historic)` returns: the guesses "0" to
      str(P*C) whose text does not occur among the guesses already made. */
  function PossibleActions(numberPlayers: nat, numberCoins: nat, historic: string): seq<string> {
    Strs(UnusedValues(Guesses(historic), 0, numberPlayers * numberCoins + 1))
  }

  /** Every total from 0 to `P * C` whose string is not yet guessed is a legal guess. */
  lemma UnusedTotalIsLegal(numberPlayers: nat, numberCoins: nat, historic: string, v: nat)
    requires v <= numberPlayers * numberCoins && !Contains(Guesses(historic), Str(v))
    ensures Str(v) in PossibleActions(numberPlayers, numberCoins, historic)
  {
    var vs := UnusedValues(Guesses(historic), 0, numberPlayers * numberCoins + 1);
    UnusedValuesComplete(Guesses(historic), 0, numberPlayers * numberCoins + 1, v);
    StrsMember(vs, v);
  }

  /** The string of a member of `vs` is a member of `Strs(vs)`. */
  lemma StrsMember(vs: seq<nat>, v: nat)
    requires v in vs
    ensures Str(v) in Strs(vs)
  {
    var i :| 0 <= i < |vs| && vs[i] == v;
    assert Strs(vs)[i] == Str(v);
  }

  /** The legal guesses are exactly the decimal strings of `0..P*C` that do
      not occur as text in the guesses made so far. */
  lemma PossibleActionsMembers(numberPlayers: nat, numberCoins: nat, historic: string, s: string)
    ensures s in PossibleActions(numberPlayers, numberCoins, historic) <==>
              exists v :: 0 <= v <= numberPlayers * numberCoins && s == Str(v) && !Contains(Guesses(historic), s)
  {
    var vs := UnusedValues(Guesses(historic), 0, numberPlayers * numberCoins + 1);
    if s in Strs(vs) {
      var i :| 0 <= i < |vs| && Strs(vs)[i] == s;
      assert 0 <= vs[i] <= numberPlayers * numberCoins && s == Str(vs[i]);
    }
    if exists v :: 0 <= v <= numberPlayers * numberCoins && s == Str(v) && !Contains(Guesses(historic), s) {
      var v :| 0 <= v <= numberPlayers * numberCoins && s == Str(v) && !Contains(Guesses(historic), s);
      UnusedTotalIsLegal(numberPlayers, numberCoins, historic, v);
    }
  }

  /** Every legal guess is the decimal string of a total from 0 to `P * C`. */
  lemma PossibleActionsAreTotals(numberPlayers: nat, numberCoins: nat, historic: string)
    ensures forall a :: a in PossibleActions(numberPlayers, numberCoins, historic) ==>
              a in StrRange(0, numberPlayers * numberCoins + 1)
  {
    var vs := UnusedValues(Guesses(historic), 0, numberPlayers * numberCoins + 1);
    var r := StrRange(0, numberPlayers * numberCoins + 1);
    forall a | a in Strs(vs) ensures a in r {
      var i :| 0 <= i < |vs| && Strs(vs)[i] == a;
      assert r[vs[i]] == a;
    }
  }

  /** The legal guesses are listed in ascending numeric order, so none twice. */
  lemma PossibleActionsAscending(numberPlayers: nat, numberCoins: nat, historic: string)
    ensures forall i, j :: 0 <= i < j < |PossibleActions(numberPlayers, numberCoins, historic)| ==>
              ParseNat(PossibleActions(numberPlayers, numberCoins, historic)[i]) <
              ParseNat(PossibleActions(numberPlayers, numberCoins, historic)[j])
    ensures Distinct(PossibleActions(numberPlayers, numberCoins, historic))
  {
    var vs := UnusedValues(Guesses(historic), 0, numberPlayers * numberCoins + 1);
    var r := Strs(vs);
    forall i | 0 <= i < |r| ensures ParseNat(r[i]) == vs[i] {
      ParseStr(vs[i]);
    }
  }

  // ---------------------------------------------------------------------
  // Coin sums and combinations

  /** `get_possible_coins_sum(coin)`: the totals a player holding `coin`
      coins can see, from `coin` up to `coin + (P - 1) * C`. */
  function GetPossibleCoinsSum(numberPlayers: nat, numberCoins: nat, coinChoosen: nat): (r: seq<string>)
    ensures numberPlayers >= 1 ==> |r| == (numberPlayers - 1) * numberCoins + 1
  {
    StrRange(coinChoosen, (numberPlayers - 1) * numberCoins + 1 + coinChoosen)
  }

  /** The totals a player holding `coin` coins can see are exactly the
      decimal strings of `coin` to `coin + (P - 1) * C`. */
  lemma PossibleCoinsSumMembers(numberPlayers: nat, numberCoins: nat, coinChoosen: nat, s: string)
    ensures s in GetPossibleCoinsSum(numberPlayers, numberCoins, coinChoosen) <==>
              exists v :: coinChoosen <= v <= coinChoosen + (numberPlayers - 1) * numberCoins && s == Str(v)
  {
    StrRangeMembers(coinChoosen, (numberPlayers - 1) * numberCoins + 1 + coinChoosen, s);
  }

  /** The sum of a tuple. */
  function Sum(t: seq<nat>): nat {
    if t == [] then 0 else Sum(t[..|t| - 1]) + t[|t| - 1]
  }

  /** A tuple of `n` entries each at most `c` sums to at most `n * c`. */
  lemma {:induction false} SumBound(t: seq<nat>, c: nat)
    requires forall i :: 0 <= i < |t| ==> t[i] <= c
    ensures Sum(t) <= |t| * c
  {
    if t != [] {
      SumBound(t[..|t| - 1], c);
    }
  }

  /** `[x] + t` for every `t` in `tails`, then the same for `x + 1` up to `c`. */
  function PrependEach(x: nat, c: nat, tails: seq<seq<nat>>): (r: seq<seq<nat>>)
    decreases c + 1 - x
  {
    if x > c then []
    else seq(|tails|, i requires 0 <= i < |tails| => [x] + tails[i]) + PrependEach(x + 1, c, tails)
  }

  lemma {:induction false} PrependEachMembers(x: nat, c: nat, tails: seq<seq<nat>>, t: seq<nat>)
    ensures t in PrependEach(x, c, tails) <==> |t| >= 1 && x <= t[0] <= c && t[1..] in tails
    decreases c + 1 - x
  {
    if x <= c {
      var front := seq(|tails|, i requires 0 <= i < |tails| => [x] + tails[i]);
      PrependEachMembers(x + 1, c, tails, t);
      if t in front {
        var i :| 0 <= i < |front| && front[i] == t;
        assert t[1..] == tails[i];
      }
      if |t| >= 1 && t[0] == x && t[1..] in tails {
        var i :| 0 <= i < |tails| && tails[i] == t[1..];
        assert front[i] == t;
      }
    }
  }

  /** `itertools.product(range(c + 1), repeat=n)`, in its order: the first
      entry varies slowest. */
  function Product(n: nat, c: nat): seq<seq<nat>> {
    if n == 0 then [[]] else PrependEach(0, c, Product(n - 1, c))
  }

  /** The tuples of `product` are exactly the tuples of `n` entries in `0..c`. */
  lemma {:induction false} ProductMembers(n: nat, c: nat, t: seq<nat>)
    ensures t in Product(n, c) <==> |t| == n && forall i :: 0 <= i < |t| ==> t[i] <= c
  {
    if n > 0 {
      PrependEachMembers(0, c, Product(n - 1, c), t);
      if |t| >= 1 {
        ProductMembers(n - 1, c, t[1..]);
        assert forall i :: 1 <= i < |t| ==> t[i] == t[1..][i - 1];
      }
    }
  }

  /** The tuples of `ts` that sum to `s`, in order. */
  function WithSum(ts: seq<seq<nat>>, s: int): (r: seq<seq<nat>>)
    ensures |r| <= |ts|
  {
    if ts == [] then []
    else WithSum(ts[..|ts| - 1], s) + (if Sum(ts[|ts| - 1]) == s then [ts[|ts| - 1]] else [])
  }

  /** The filter keeps exactly the tuples that sum to `s`. */
  lemma {:induction false} WithSumMembers(ts: seq<seq<nat>>, s: int, t: seq<nat>)
    ensures t in WithSum(ts, s) <==> t in ts && Sum(t) == s
  {
    if ts != [] {
      var prefix, last := ts[..|ts| - 1], ts[|ts| - 1];
      WithSumMembers(prefix, s, t);
      assert ts == prefix + [last];
    }
  }

  /** `get_coin_combinations(n, s, c)`: the `n`-tuples of `product` that sum to `s`. */
  function GetCoinCombinations(numPlayers: nat, coinSum: int, numCoins: nat): seq<seq<nat>> {
    WithSum(Product(numPlayers, numCoins), coinSum)
  }

  /** The combinations are exactly the `n`-tuples over `0..c` that sum to `s`. */
  lemma CoinCombinationsMembers(numPlayers: nat, coinSum: int, numCoins: nat, t: seq<nat>)
    ensures t in GetCoinCombinations(numPlayers, coinSum, numCoins) <==>
              |t| == numPlayers && (forall i :: 0 <= i < |t| ==> t[i] <= numCoins) && Sum(t) == coinSum
  {
    WithSumMembers(Product(numPlayers, numCoins), coinSum, t);
    ProductMembers(numPlayers, numCoins, t);
  }

  // ---------------------------------------------------------------------
  // Payoffs

  /** The first player, from `i` on and before `numberPlayers`, whose guess is
      `sumCoins`; `IndexError` when the guesses run out before a match. */
  function FirstCorrectGuess(guesses: string, sumCoins: string, i: nat, numberPlayers: nat): Result<Option<nat>>
    decreases numberPlayers - i
  {
    if i >= numberPlayers then Success(None)
    else if i >= |guesses| then Failure(IndexError)
    else if [guesses[i]] == sumCoins then Success(Some(i))
    else FirstCorrectGuess(guesses, sumCoins, i + 1, numberPlayers)
  }

  /** No guess of the players `lo` to `hi - 1` is `sumCoins`, and all of them are there. */
  ghost predicate NoCorrectGuess(guesses: string, sumCoins: string, lo: nat, hi: nat) {
    (lo < hi ==> hi <= |guesses|) && forall j :: lo <= j < hi ==> [guesses[j]] != sumCoins
  }

  /** What the scan finds: the first matching player; no match among all
      `numberPlayers` guesses; or `IndexError` when there are fewer guesses
      than players and none of them matches. */
  lemma {:induction false} FirstCorrectGuessFinds(guesses: string, sumCoins: string, i: nat, numberPlayers: nat)
    ensures var r := FirstCorrectGuess(guesses, sumCoins, i, numberPlayers);
            (r.Success? && r.value.Some? ==>
               i <= r.value.value < numberPlayers && r.value.value < |guesses| && [guesses[r.value.value]] == sumCoins &&
               NoCorrectGuess(guesses, sumCoins, i, r.value.value)) &&
            (r.Success? && r.value.None? ==> NoCorrectGuess(guesses, sumCoins, i, numberPlayers)) &&
            (r.Failure? ==>
               r.error == IndexError && i < numberPlayers && |guesses| < numberPlayers &&
               NoCorrectGuess(guesses, sumCoins, i, |guesses|))
    decreases numberPlayers - i
  {
    if i < numberPlayers && i < |guesses| && [guesses[i]] != sumCoins {
      FirstCorrectGuessFinds(guesses, sumCoins, i + 1, numberPlayers);
      var r := FirstCorrectGuess(guesses, sumCoins, i + 1, numberPlayers);
      assert FirstCorrectGuess(guesses, sumCoins, i, numberPlayers) == r;
      if r.Success? && r.value.None? {
        forall j | i <= j < numberPlayers ensures [guesses[j]] != sumCoins {
          if j > i {
            assert i + 1 <= j < numberPlayers;
          }
        }
      }
    }
  }

  /** `calc_util_terminal_node(historic, sum_coins)`: the first player whose
      guess (one character of the guesses) is `sum_coins` gets `P - 1` and
      every other player `-1`; when nobody guesses right, everyone gets 0. */
  function CalcUtilTerminalNode(numberPlayers: nat, historic: string, sumCoins: string): (r: Result<seq<int>>)
    ensures r.Success? ==> |r.value| == numberPlayers
  {
    var winner :- FirstCorrectGuess(Guesses(historic), sumCoins, 0, numberPlayers);
    match winner
    case None => Success(seq(numberPlayers, _ => 0))
    case Some(w) => Success(seq(numberPlayers, i requires 0 <= i < numberPlayers => if i == w then numberPlayers - 1 else -1))
  }

  /** The sum of a list of payoffs. */
  function IntSum(xs: seq<int>): int {
    if xs == [] then 0 else IntSum(xs[..|xs| - 1]) + xs[|xs| - 1]
  }

  /** `-1` for every entry except a single `n - 1`, or all zero, adds up to nothing. */
  lemma {:induction false} PayoffsSum(xs: seq<int>, w: int, n: nat)
    requires forall i :: 0 <= i < |xs| ==> xs[i] == (if i == w then n - 1 else -1)
    ensures IntSum(xs) == (if 0 <= w < |xs| then n - |xs| else -|xs|)
  {
    if xs != [] {
      var p := xs[..|xs| - 1];
      PayoffsSum(p, w, n);
    }
  }

  lemma {:induction false} ZeroPayoffsSum(xs: seq<int>)
    requires forall i :: 0 <= i < |xs| ==> xs[i] == 0
    ensures IntSum(xs) == 0
  {
    if xs != [] {
      ZeroPayoffsSum(xs[..|xs| - 1]);
    }
  }

  /** The terminal payoffs: when player `w` is the first whose guess is right,
      `w` takes `P - 1` and every other player pays 1; when none of the `P`
      guesses is right, nobody pays. Either way the payoffs add up to zero.
      An `IndexError` comes exactly from a key with fewer than `P` guesses
      none of which is right. */
  lemma TerminalPayoffs(numberPlayers: nat, historic: string, sumCoins: string)
    ensures var r := CalcUtilTerminalNode(numberPlayers, historic, sumCoins);
            r.Success? ==> IntSum(r.value) == 0
    ensures var r := CalcUtilTerminalNode(numberPlayers, historic, sumCoins);
            var guesses := Guesses(historic);
            r.Failure? <==> |guesses| < numberPlayers && NoCorrectGuess(guesses, sumCoins, 0, |guesses|)
    ensures var r := CalcUtilTerminalNode(numberPlayers, historic, sumCoins);
            NoCorrectGuess(Guesses(historic), sumCoins, 0, numberPlayers) ==>
              r.Success? && forall i :: 0 <= i < numberPlayers ==> r.value[i] == 0
    ensures var r := CalcUtilTerminalNode(numberPlayers, historic, sumCoins);
            var guesses := Guesses(historic);
            forall w :: 0 <= w < numberPlayers && w < |guesses| && [guesses[w]] == sumCoins &&
                        NoCorrectGuess(guesses, sumCoins, 0, w) ==>
              r.Success? && r.value[w] == numberPlayers - 1 &&
              forall i :: 0 <= i < numberPlayers && i != w ==> r.value[i] == -1
  {
    var guesses := Guesses(historic);
    FirstCorrectGuessFinds(guesses, sumCoins, 0, numberPlayers);
    var first := FirstCorrectGuess(guesses, sumCoins, 0, numberPlayers);
    var r := CalcUtilTerminalNode(numberPlayers, historic, sumCoins);
    if first.Success? {
      match first.value
      case None =>
        ZeroPayoffsSum(r.value);
      case Some(v) =>
        PayoffsSum(r.value, v, numberPlayers);
    }
  }

  // ---------------------------------------------------------------------
  // Neighbouring keys

  /** `get_prev_info_states_hist(historic)`: `str(i) + historic[-1:1]` for
      `i` below `C`; `ValueError` on a one-character key. */
  function GetPrevInfoStatesHist(numberCoins: nat, historic: string): (r: Result<seq<string>>)
    ensures r.Failure? <==> |historic| == 1
    ensures r.Failure? ==> r.error == ValueError
    ensures r.Success? ==> |r.value| == numberCoins
  {
    if |historic| == 1 then Failure(ValueError)
    else Success(seq(numberCoins, i requires 0 <= i < numberCoins => Str(i) + PySlice(historic, -1, 1)))
  }

  /** The slice `historic[-1:1]` is empty for every key that reaches it, so
      the earlier keys are just the counts "0" to str(C - 1), whatever the
      guesses so far. */
  lemma PrevInfoStatesAreCounts(numberCoins: nat, historic: string)
    requires |historic| != 1
    ensures GetPrevInfoStatesHist(numberCoins, historic) == Success(StrRange(0, numberCoins))
  {
    assert PySlice(historic, -1, 1) == [];
    var r := GetPrevInfoStatesHist(numberCoins, historic).value;
    var s := StrRange(0, numberCoins);
    assert |r| == |s|;
    forall i | 0 <= i < |r| ensures r[i] == s[i] {
      assert r[i] == Str(i) + [];
    }
    assert r == s;
  }

  /** `get_next_info_states_hist(historic, action)`. */
  function GetNextInfoStatesHist(numberCoins: nat, historic: string, action: string): (r: seq<string>)
    ensures |r| == numberCoins
  {
    if |historic| == 1 then seq(numberCoins, i requires 0 <= i < numberCoins => Str(i) + action)
    else seq(numberCoins, i requires 0 <= i < numberCoins => Str(i) + PySlice(historic, -1, |historic|) + action)
  }

  /** For a key with at most one guess, the next keys are the other counts
      followed by the guesses so far and `action`: the keys of the next
      player to guess. (With more guesses only the last one is kept.) */
  lemma NextInfoStatesExtendHistory(numberCoins: nat, historic: string, action: string)
    requires 1 <= |historic| <= 2
    ensures forall i :: 0 <= i < numberCoins ==>
              GetNextInfoStatesHist(numberCoins, historic, action)[i] == Str(i) + historic[1..] + action
  {
    if |historic| == 2 {
      assert PySlice(historic, -1, |historic|) == historic[1..];
    } else {
      assert historic[1..] == "";
    }
  }

  // ---------------------------------------------------------------------
  // Records

  /** `[int(i) for i in range(lo, hi)]` as a list of positions. */
  function IntRange(lo: int, hi: int): (r: seq<int>)
    ensures |r| == if hi <= lo then 0 else hi - lo
    decreases hi - lo
  {
    if hi <= lo then [] else [lo] + IntRange(lo + 1, hi)
  }

  /** The filter loop of `InfoSetData.__init__`: for each `j` of `js`, pop
      position `j` when `str(j)` occurs among the guesses. */
  function PopOccurring(actions: seq<string>, historic: string, js: seq<int>): (r: Result<seq<string>>)
    ensures js == [] ==> r == Success(actions)
  {
    if js == [] then Success(actions)
    else
      var j := js[0];
      if j >= 0 && Contains(Guesses(historic), Str(j)) then
        if j < |actions| then PopOccurring(actions[..j] + actions[j + 1..], historic, js[1..])
        else Failure(IndexError)
      else PopOccurring(actions, historic, js[1..])
  }

  /** `InfoSetData(historic, C, P)`: the labels "0" to str(P**C), the filter
      loop over `range(len(actions), 0)`, and a fresh action of probability
      `1 / len(actions)` per label. The loop's range is empty, so every label
      stays: `P**C + 1` actions (not the `P * C + 1` possible guesses). */
  function NewCoinInfoSet(historic: string, numberCoins: nat, numberPlayers: nat): (d: InfoSetData)
    ensures forall a :: a in d.actions <==> a in StrRange(0, Pow(numberPlayers, numberCoins) + 1)
    ensures forall a :: a in d.actions ==> d.actions[a] == NewActionData(SeedGain(numberPlayers, numberCoins))
    ensures d.beliefs == map[] && d.expectedUtil.None? && d.likelihood.None?
  {
    var actions := StrRange(0, Pow(numberPlayers, numberCoins) + 1);
    var js := IntRange(|actions|, 0);
    var kept := PopOccurring(actions, historic, js).value;
    InfoSetData(map a | a in kept :: NewActionData(1.0 / (|kept| as real)), map[], None, None)
  }

  /** The strategy and cumulative gain every seeded action starts with:
      one over the `P**C + 1` labels. */
  function SeedGain(numberPlayers: nat, numberCoins: nat): (r: real)
    ensures r > 0.0
  {
    1.0 / ((Pow(numberPlayers, numberCoins) + 1) as real)
  }

  /** Equal strategies `x` over `labels` add up to `|labels| * x`. */
  lemma {:induction false} UniformTotal(acts: ActionTable, labels: seq<string>, x: real)
    requires HasActions(acts, labels)
    requires forall a :: a in labels ==> acts[a].strategy == x
    ensures StrategyTotal(acts, labels) == (|labels| as real) * x
  {
    if labels != [] {
      var prefix := labels[..|labels| - 1];
      assert forall a :: a in prefix ==> a in labels;
      UniformTotal(acts, prefix, x);
    }
  }

  /** `n` equal shares of `1 / n` make a whole. */
  lemma UniformShares(n: nat)
    requires n > 0
    ensures (n as real) * (1.0 / (n as real)) == 1.0 && 1.0 / (n as real) > 0.0
  {
  }

  /** `n` labels each played with probability `1 / n` form a distribution. */
  lemma UniformIsDistribution(acts: ActionTable, labels: seq<string>, n: nat)
    requires |labels| == n > 0
    requires forall a :: a in labels ==> a in acts && acts[a].strategy == 1.0 / (n as real)
    ensures HasActions(acts, labels) && IsDistribution(acts, labels)
  {
    UniformTotal(acts, labels, 1.0 / (n as real));
    UniformShares(n);
  }

  /** A fresh coin-game record plays its labels uniformly: a probability
      distribution over "0" to str(P**C). */
  lemma NewCoinInfoSetIsDistribution(historic: string, numberCoins: nat, numberPlayers: nat)
    ensures var d := NewCoinInfoSet(historic, numberCoins, numberPlayers);
            var labels := StrRange(0, Pow(numberPlayers, numberCoins) + 1);
            HasActions(d.actions, labels) && IsDistribution(d.actions, labels)
  {
    var d := NewCoinInfoSet(historic, numberCoins, numberPlayers);
    var n := Pow(numberPlayers, numberCoins) + 1;
    UniformIsDistribution(d.actions, StrRange(0, n), n);
  }

  // ---------------------------------------------------------------------
  // Registered keys

  /** `[i for i in range(lo, hi)]`. */
  function NatRange(lo: nat, hi: int): (r: seq<nat>)
    ensures |r| == if hi <= lo then 0 else hi - lo
    ensures forall i :: 0 <= i < |r| ==> r[i] == lo + i
  {
    if hi <= lo then [] else seq(hi - lo, i requires 0 <= i < hi - lo => lo + i)
  }

  /** The strings the inner loop of `init_info_sets` appends for `hist`:
      `hist + str(k)` for each `k` below `n` whose text does not occur in `hist`. */
  function Extensions(hist: string, n: nat): (r: seq<string>)
    ensures forall i :: 0 <= i < |r| ==> |r[i]| > |hist|
  {
    if n == 0 then []
    else Extensions(hist, n - 1) + (if Contains(hist, Str(n - 1)) then [] else [hist + Str(n - 1)])
  }

  /** The strings appended while the pass for length `j` visits `hs`: the
      extensions of those of length `j`, in order. */
  function Children(hs: seq<string>, j: nat, n: nat): (r: seq<string>)
    ensures forall i :: 0 <= i < |r| ==> |r[i]| > j
  {
    if hs == [] then []
    else
      var last := hs[|hs| - 1];
      Children(hs[..|hs| - 1], j, n) + (if |last| == j then Extensions(last, n) else [])
  }

  /** The passes for lengths `lo` to `hi - 1`, each appending the children
      of the strings of that length. */
  function GrowFrom(hs: seq<string>, lo: nat, hi: int, n: nat): seq<string>
    decreases hi - lo
  {
    if hi <= lo then hs else GrowFrom(hs + Children(hs, lo, n), lo + 1, hi, n)
  }

  /** `historics` after its loops: the guess strings of the players after the first. */
  function OpponentHistorics(numberPlayers: nat, numberCoins: nat): seq<string> {
    var n := numberPlayers * numberCoins + 1;
    GrowFrom(StrRange(0, n), 1, numberPlayers - 1, n)
  }

  /** `str(nc) + hist` for every `hist` of `hs` and, inside, every count `nc` up to `C`. */
  function WithCounts(hs: seq<string>, numberCoins: nat): (r: seq<string>)
    ensures |r| == |hs| * (numberCoins + 1)
  {
    if hs == [] then []
    else
      var last := hs[|hs| - 1];
      WithCounts(hs[..|hs| - 1], numberCoins) + seq(numberCoins + 1, nc requires 0 <= nc <= numberCoins => Str(nc) + last)
  }

  /** `full_historics`: the first player's counts, then every guess string
      behind every count. */
  function FullHistorics(numberPlayers: nat, numberCoins: nat): seq<string> {
    StrRange(0, numberCoins + 1) + WithCounts(OpponentHistorics(numberPlayers, numberCoins), numberCoins)
  }

  /** With at most two players no pass runs: the second player's keys are a
      count followed by one guess. */
  lemma TwoPlayersOneGuess(numberPlayers: nat, numberCoins: nat)
    requires numberPlayers <= 2
    ensures OpponentHistorics(numberPlayers, numberCoins) == StrRange(0, numberPlayers * numberCoins + 1)
  {
  }

  /** Every full key behind a count is a count of at most `C` followed by a guess string. */
  lemma {:induction false} WithCountsSound(hs: seq<string>, numberCoins: nat, i: nat)
    requires i < |WithCounts(hs, numberCoins)|
    ensures exists nc, j :: 0 <= nc <= numberCoins && 0 <= j < |hs| && WithCounts(hs, numberCoins)[i] == Str(nc) + hs[j]
  {
    var prefix, last := hs[..|hs| - 1], hs[|hs| - 1];
    var front := WithCounts(prefix, numberCoins);
    var tail := seq(numberCoins + 1, nc requires 0 <= nc <= numberCoins => Str(nc) + last);
    assert WithCounts(hs, numberCoins) == front + tail;
    if i < |front| {
      WithCountsSound(prefix, numberCoins, i);
      var nc, j :| 0 <= nc <= numberCoins && 0 <= j < |prefix| && front[i] == Str(nc) + prefix[j];
      assert prefix[j] == hs[j];
    } else {
      assert WithCounts(hs, numberCoins)[i] == Str(i - |front|) + hs[|hs| - 1];
    }
  }

  /** Every count of at most `C` is put in front of every guess string. */
  lemma {:induction false} WithCountsComplete(hs: seq<string>, numberCoins: nat, nc: nat, j: nat)
    requires nc <= numberCoins && j < |hs|
    ensures Str(nc) + hs[j] in WithCounts(hs, numberCoins)
  {
    var prefix, last := hs[..|hs| - 1], hs[|hs| - 1];
    var front := WithCounts(prefix, numberCoins);
    var tail := seq(numberCoins + 1, nc requires 0 <= nc <= numberCoins => Str(nc) + last);
    assert WithCounts(hs, numberCoins) == front + tail;
    if j < |hs| - 1 {
      WithCountsComplete(prefix, numberCoins, nc, j);
      assert prefix[j] == hs[j];
    } else {
      assert tail[nc] == Str(nc) + hs[j];
    }
  }

  // ---------------------------------------------------------------------
  // Prior over the coin total

  /** Whether `sum` lies between `coin` and `coin + (P - 1) * C`, the totals
      a holder of `coin` coins can see. */
  predicate Visible(numberPlayers: nat, numberCoins: nat, coin: nat, sum: nat) {
    coin <= sum <= coin + (numberPlayers - 1) * numberCoins
  }

  /** `str(sum) in get_possible_coins_sum(coin)` is `Visible`. */
  lemma VisibleIsPossible(numberPlayers: nat, numberCoins: nat, coin: nat, sum: nat)
    ensures Str(sum) in GetPossibleCoinsSum(numberPlayers, numberCoins, coin) <==>
              Visible(numberPlayers, numberCoins, coin, sum)
  {
    PossibleCoinsSumMembers(numberPlayers, numberCoins, coin, Str(sum));
    if Str(sum) in GetPossibleCoinsSum(numberPlayers, numberCoins, coin) {
      var v :| coin <= v <= coin + (numberPlayers - 1) * numberCoins && Str(sum) == Str(v);
      StrInjective(sum, v);
    }
  }

  /** `sum_counter[str(v)]` after counting `ts`: the tuples with total `v`, when `v` is visible. */
  function SumCount(ts: seq<seq<nat>>, numberPlayers: nat, numberCoins: nat, coin: nat, v: nat): nat {
    if ts == [] then 0
    else
      var t := ts[|ts| - 1];
      SumCount(ts[..|ts| - 1], numberPlayers, numberCoins, coin, v) +
        (if Sum(t) == v && Visible(numberPlayers, numberCoins, coin, Sum(t)) then 1 else 0)
  }

  /** `comb_tot` after counting `ts`: the tuples with a visible total. */
  function CombTotal(ts: seq<seq<nat>>, numberPlayers: nat, numberCoins: nat, coin: nat): nat {
    if ts == [] then 0
    else
      var t := ts[|ts| - 1];
      CombTotal(ts[..|ts| - 1], numberPlayers, numberCoins, coin) +
        (if Visible(numberPlayers, numberCoins, coin, Sum(t)) then 1 else 0)
  }

  /** `coin_sum_prior[str(coin)]`: for each total `i` from 0 to `P * C`, the
      share of the visible combinations of `product` that add up to `i`;
      `ZeroDivisionError` when no combination is visible. */
  function PriorRow(numberPlayers: nat, numberCoins: nat, coin: nat): (r: Result<seq<real>>)
    ensures r.Failure? ==> r.error == ZeroDivisionError
    ensures r.Success? ==> |r.value| == numberPlayers * numberCoins + 1
  {
    var ts := Product(numberPlayers, numberCoins);
    var tot := CombTotal(ts, numberPlayers, numberCoins, coin);
    if tot == 0 then Failure(ZeroDivisionError)
    else Success(seq(numberPlayers * numberCoins + 1, i requires 0 <= i <= numberPlayers * numberCoins =>
                       SumCount(ts, numberPlayers, numberCoins, coin, i) as real / tot as real))
  }

  /** The counts of the totals below `n`, added up. */
  function CountsBelow(ts: seq<seq<nat>>, numberPlayers: nat, numberCoins: nat, coin: nat, n: nat): nat {
    if n == 0 then 0
    else CountsBelow(ts, numberPlayers, numberCoins, coin, n - 1) + SumCount(ts, numberPlayers, numberCoins, coin, n - 1)
  }

  /** Adding one tuple adds one to the counts below `n` exactly when its total is visible and below `n`. */
  lemma {:induction false} CountsBelowStep(ts: seq<seq<nat>>, t: seq<nat>, numberPlayers: nat, numberCoins: nat, coin: nat, n: nat)
    ensures CountsBelow(ts + [t], numberPlayers, numberCoins, coin, n) ==
              CountsBelow(ts, numberPlayers, numberCoins, coin, n) +
              (if Sum(t) < n && Visible(numberPlayers, numberCoins, coin, Sum(t)) then 1 else 0)
  {
    assert (ts + [t])[..|ts|] == ts;
    if n > 0 {
      CountsBelowStep(ts, t, numberPlayers, numberCoins, coin, n - 1);
    }
  }

  /** Before any tuple is counted, every count is 0. */
  lemma {:induction false} CountsBelowNothing(numberPlayers: nat, numberCoins: nat, coin: nat, n: nat)
    ensures CountsBelow([], numberPlayers, numberCoins, coin, n) == 0
  {
    if n > 0 {
      CountsBelowNothing(numberPlayers, numberCoins, coin, n - 1);
    }
  }

  /** When every total is below `n`, the counts below `n` add up to `comb_tot`. */
  lemma {:induction false} CountsBelowTotal(ts: seq<seq<nat>>, numberPlayers: nat, numberCoins: nat, coin: nat, n: nat)
    requires forall i :: 0 <= i < |ts| ==> Sum(ts[i]) < n
    ensures CountsBelow(ts, numberPlayers, numberCoins, coin, n) == CombTotal(ts, numberPlayers, numberCoins, coin)
  {
    if ts != [] {
      var prefix, t := ts[..|ts| - 1], ts[|ts| - 1];
      CountsBelowTotal(prefix, numberPlayers, numberCoins, coin, n);
      CountsBelowStep(prefix, t, numberPlayers, numberCoins, coin, n);
      assert prefix + [t] == ts;
      assert Sum(t) < n;
    } else {
      CountsBelowNothing(numberPlayers, numberCoins, coin, n);
    }
  }

  /** The row's entries below `n` add up to the counts below `n` over the total. */
  lemma {:induction false} PriorRowPrefixSum(row: seq<real>, ts: seq<seq<nat>>, numberPlayers: nat, numberCoins: nat, coin: nat, tot: nat, n: nat)
    requires tot > 0 && n <= |row|
    requires forall i :: 0 <= i < |row| ==> row[i] == SumCount(ts, numberPlayers, numberCoins, coin, i) as real / tot as real
    ensures RealSum(row[..n]) == CountsBelow(ts, numberPlayers, numberCoins, coin, n) as real / tot as real
  {
    if n > 0 {
      PriorRowPrefixSum(row, ts, numberPlayers, numberCoins, coin, tot, n - 1);
      assert row[..n][..n - 1] == row[..n - 1];
      DivisionAdds(CountsBelow(ts, numberPlayers, numberCoins, coin, n - 1) as real,
                   SumCount(ts, numberPlayers, numberCoins, coin, n - 1) as real, tot as real);
    }
  }

  /** Every row of the prior that is computed is a probability distribution
      over the totals 0 to `P * C`. */
  lemma PriorRowIsDistribution(numberPlayers: nat, numberCoins: nat, coin: nat)
    requires PriorRow(numberPlayers, numberCoins, coin).Success?
    ensures var row := PriorRow(numberPlayers, numberCoins, coin).value;
            (forall i :: 0 <= i < |row| ==> row[i] >= 0.0) && RealSum(row) == 1.0
  {
    var ts := Product(numberPlayers, numberCoins);
    var tot := CombTotal(ts, numberPlayers, numberCoins, coin);
    var row := PriorRow(numberPlayers, numberCoins, coin).value;
    var n := numberPlayers * numberCoins + 1;
    forall i | 0 <= i < |ts| ensures Sum(ts[i]) < n {
      ProductMembers(numberPlayers, numberCoins, ts[i]);
      SumBound(ts[i], numberCoins);
    }
    CountsBelowTotal(ts, numberPlayers, numberCoins, coin, n);
    PriorRowPrefixSum(row, ts, numberPlayers, numberCoins, coin, tot, n);
    assert row[..n] == row;
    DivisionBySelf(tot as real);
  }

  /** A tuple with a visible total makes `comb_tot` positive. */
  lemma {:induction false} CombTotalPositive(ts: seq<seq<nat>>, numberPlayers: nat, numberCoins: nat, coin: nat, t: seq<nat>)
    requires t in ts && Visible(numberPlayers, numberCoins, coin, Sum(t))
    ensures CombTotal(ts, numberPlayers, numberCoins, coin) > 0
  {
    if t != ts[|ts| - 1] {
      var i :| 0 <= i < |ts| && ts[i] == t;
      assert ts[..|ts| - 1][i] == t;
      CombTotalPositive(ts[..|ts| - 1], numberPlayers, numberCoins, coin, t);
    }
  }

  /** `coin` followed by zeros adds up to `coin`. */
  lemma {:induction false} SumOfOneAndZeros(t: seq<nat>, coin: nat)
    requires |t| >= 1 && t[0] == coin && forall i :: 1 <= i < |t| ==> t[i] == 0
    ensures Sum(t) == coin
  {
    if |t| > 1 {
      SumOfOneAndZeros(t[..|t| - 1], coin);
    }
  }

  /** With at least one player every row the script asks for (a coin count up
      to `C`) is defined: the tuple `(coin, 0, ..., 0)` is visible. With no
      player and at least one coin, `comb_tot` stays 0 and the division fails. */
  lemma PriorRowDefined(numberPlayers: nat, numberCoins: nat, coin: nat)
    ensures numberPlayers >= 1 && coin <= numberCoins ==> PriorRow(numberPlayers, numberCoins, coin).Success?
    ensures numberPlayers == 0 && numberCoins >= 1 ==> PriorRow(numberPlayers, numberCoins, coin) == Failure(ZeroDivisionError)
  {
    if numberPlayers >= 1 && coin <= numberCoins {
      var t := seq(numberPlayers, i requires 0 <= i < numberPlayers => if i == 0 then coin else 0);
      ProductMembers(numberPlayers, numberCoins, t);
      SumOfOneAndZeros(t, coin);
      CombTotalPositive(Product(numberPlayers, numberCoins), numberPlayers, numberCoins, coin, t);
    }
    if numberPlayers == 0 && numberCoins >= 1 {
      var ts := Product(0, numberCoins);
      assert ts == [[]];
      assert ts[..0] == [];
      assert Sum([]) == 0;
      assert !Visible(0, numberCoins, coin, 0);
      assert CombTotal(ts, 0, numberCoins, coin) == 0;
    }
  }

  // ---------------------------------------------------------------------
  // The stub utility

  /** Every total of `sums` has a belief. */
  predicate BeliefsCover(beliefs: map<string, real>, sums: seq<string>) {
    forall s :: s in sums ==> s in beliefs
  }

  /** `utils_player` for a guess `action` when the total is `sum`. */
  function GuessPayoff(action: string, sum: string, numberPlayers: nat): int {
    if action == sum then numberPlayers - 1 else -1
  }

  /** `utils_terminal_state` after the totals `sums` (the decimal strings of
      0 to `P * C` in the source): `prob_state * prob_action * utils_player`,
      added up. */
  function TerminalUtil(beliefs: map<string, real>, probAction: real, action: string, numberPlayers: nat, sums: seq<string>): real
    requires BeliefsCover(beliefs, sums)
  {
    if sums == [] then 0.0
    else
      var s := sums[|sums| - 1];
      assert s in sums;
      TerminalUtil(beliefs, probAction, action, numberPlayers, sums[..|sums| - 1]) +
        TerminalTerm(beliefs[s], probAction, GuessPayoff(action, s, numberPlayers))
  }

  /** One total's term: `prob_state * prob_action * utils_player`. */
  function TerminalTerm(probState: real, probAction: real, utilsPlayer: int): real {
    probState * probAction * (utilsPlayer as real)
  }

  /** The belief mass of the totals `sums`. */
  function BeliefMass(beliefs: map<string, real>, sums: seq<string>): real
    requires BeliefsCover(beliefs, sums)
  {
    if sums == [] then 0.0
    else
      var s := sums[|sums| - 1];
      assert s in sums;
      BeliefMass(beliefs, sums[..|sums| - 1]) + beliefs[s]
  }

  /** The stub utility in closed form: over distinct totals, an action's
      utility is its probability times `P` times the belief in the total it
      guesses, minus the whole belief mass; a guess that is no total counts
      only the loss. */
  lemma {:induction false} StubUtilClosedForm(beliefs: map<string, real>, probAction: real, action: string, numberPlayers: nat, sums: seq<string>)
    requires BeliefsCover(beliefs, sums) && Distinct(sums)
    ensures TerminalUtil(beliefs, probAction, action, numberPlayers, sums) ==
              probAction * ((if action in sums then (numberPlayers as real) * beliefs[action] else 0.0) - BeliefMass(beliefs, sums))
  {
    if sums != [] {
      var prefix, s := sums[..|sums| - 1], sums[|sums| - 1];
      assert forall x :: x in prefix ==> x in sums;
      StubUtilClosedForm(beliefs, probAction, action, numberPlayers, prefix);
      assert s !in prefix;
      var hit := action == s;
      assert action in sums <==> action in prefix || hit;
      var b := beliefs[s];
      var h0 := if action in prefix then (numberPlayers as real) * beliefs[action] else 0.0;
      var h1 := if action in sums then (numberPlayers as real) * beliefs[action] else 0.0;
      assert h1 == h0 + (if hit then (numberPlayers as real) * b else 0.0);
      StubStep(TerminalUtil(beliefs, probAction, action, numberPlayers, prefix), b, probAction, numberPlayers, hit,
               GuessPayoff(action, s, numberPlayers), h0, BeliefMass(beliefs, prefix),
               TerminalUtil(beliefs, probAction, action, numberPlayers, sums), BeliefMass(beliefs, sums), h1);
    }
  }

  /** One more total in the closed form of the stub utility. */
  lemma StubStep(u0: real, b: real, p: real, numberPlayers: nat, hit: bool, pay: int, h0: real, m0: real, u1: real, m1: real, h1: real)
    requires pay == if hit then numberPlayers - 1 else -1
    requires u0 == p * (h0 - m0)
    requires u1 == u0 + b * p * (pay as real)
    requires m1 == m0 + b
    requires h1 == h0 + (if hit then (numberPlayers as real) * b else 0.0)
    ensures u1 == p * (h1 - m1)
  {
    if hit {
      assert ((numberPlayers - 1) as real) == (numberPlayers as real) - 1.0;
      assert b * p * ((numberPlayers as real) - 1.0) == p * ((numberPlayers as real) * b) - p * b;
    } else {
      assert b * p * (-1 as real) == -(p * b);
    }
  }
}
