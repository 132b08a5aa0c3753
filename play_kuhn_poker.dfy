/** The human-against-computer Kuhn poker script (play_khun_poker.py): its
    own copies of the showdown comparison and the terminal payoffs, the card
    order `CARD_MAP`, and the computer's move, looked up in the strategy the
    solver saves. The draw of `random.random()` is a parameter. */
module PlayKuhnPoker {
  import opened Outcomes
  import opened RegretMatching
  import KuhnPoker
  import KuhnSpec

  /** The cards, lowest first: a dealt card is an index into this list. */
  const CARD_MAP: seq<string> := ["J", "Q", "K"]

  const TERMINAL_ACTION_STR_MAP: set<string> := {"pp", "bb", "bp", "pbb", "pbp"}

  /** Whether the first pocket beats the second at a showdown. With two
      different cards of `CARD_MAP`, the higher index wins. */
  function PlayerOnePocketIsHigher(pocket1: string, pocket2: string): (r: Result<bool>)
    ensures forall a, b ::
              0 <= a < |CARD_MAP| && 0 <= b < |CARD_MAP| && a != b && pocket1 == CARD_MAP[a] && pocket2 == CARD_MAP[b] ==>
                r == Success(a > b)
    ensures r.Failure? <==> pocket1 != "K" && pocket1 != "J" && pocket2 != "K" && pocket2 != "J"
    ensures r.Failure? ==> r.error == ValueError
  {
    if pocket1 == "K" then Success(true)
    else if pocket1 == "J" then Success(false)
    else if pocket2 == "K" then Success(false)
    else if pocket2 == "J" then Success(true)
    else Failure(ValueError)
  }

  /** The payoffs (player one, player two) at a terminal history. */
  function CalcUtilityAtTerminalNode(pocket1: string, pocket2: string, actionStr: string): (r: Result<(int, int)>)
    ensures r.Success? ==> actionStr in TERMINAL_ACTION_STR_MAP && r.value.0 + r.value.1 == 0
    ensures r.Failure? <==>
              actionStr !in TERMINAL_ACTION_STR_MAP ||
              (actionStr in {"pp", "bb", "pbb"} && PlayerOnePocketIsHigher(pocket1, pocket2).Failure?)
    ensures r.Failure? ==> r.error == ValueError
  {
    if actionStr == "pp" then
      var higher :- PlayerOnePocketIsHigher(pocket1, pocket2);
      if higher then Success((1, -1)) else Success((-1, 1))
    else if actionStr == "pbp" then
      Success((-1, 1))
    else if actionStr == "bp" then
      Success((1, -1))
    else if actionStr == "bb" || actionStr == "pbb" then
      var higher :- PlayerOnePocketIsHigher(pocket1, pocket2);
      if higher then Success((2, -2)) else Success((-2, 2))
    else
      Failure(ValueError)
  }

  /** The script's comparison is the solver's. */
  lemma SameComparisonAsSolver(pocket1: string, pocket2: string)
    ensures PlayerOnePocketIsHigher(pocket1, pocket2) == KuhnPoker.PlayerOnePocketIsHigher(pocket1, pocket2)
  {
  }

  /** The script's payoffs are the solver's, for every history and every
      pair of pockets, errors included; so the computer is scored by the
      payoffs it was trained on. */
  lemma SamePayoffsAsSolver(pocket1: string, pocket2: string, actionStr: string)
    ensures CalcUtilityAtTerminalNode(pocket1, pocket2, actionStr) ==
            KuhnPoker.CalcUtilityAtTerminalNode(pocket1, pocket2, actionStr)
  {
    SameComparisonAsSolver(pocket1, pocket2);
    assert TERMINAL_ACTION_STR_MAP == KuhnPoker.TERMINAL_ACTION_STR_MAP;
  }

  /** A dealt pair of different cards is a valid deal of the solver, and the
      higher card in `CARD_MAP` is the higher rank. */
  lemma CardMapDeal(a: nat, b: nat)
    requires a < |CARD_MAP| && b < |CARD_MAP| && a != b
    ensures KuhnPoker.ValidDeal(CARD_MAP[a], CARD_MAP[b])
    ensures KuhnPoker.Outranks(CARD_MAP[a], CARD_MAP[b]) <==> a > b
  {
    var ranks := KuhnPoker.RANKS;
    assert ranks[0] == CARD_MAP[2] && ranks[1] == CARD_MAP[1] && ranks[2] == CARD_MAP[0];
    if a > b {
      assert 0 <= 2 - a < 2 - b < 3 && ranks[2 - a] == CARD_MAP[a] && ranks[2 - b] == CARD_MAP[b];
    }
  }

  /** One history's entry of the saved strategy file, in the file's key order:
      (action, probability) pairs. */
  type StrategyEntry = seq<(string, real)>

  /** The strategy file as `load_strategy` reads it: key to entry. */
  type StrategyFile = map<string, StrategyEntry>

  /** The weights `get_computer_action` passes to `random.choices`, in the
      entry's key order. */
  function Weights(entry: StrategyEntry): (w: seq<real>)
    ensures |w| == |entry| && forall i :: 0 <= i < |entry| ==> w[i] == entry[i].1
  {
    seq(|entry|, i requires 0 <= i < |entry| => entry[i].1)
  }

  /** `get_computer_action(strategy, history)`, with `draw` the value of
      `random.random()` that `random.choices` scales by the total weight: a
      missing history raises `ValueError`, and so does `random.choices` when
      the entry does not give one weight per action of ['b', 'p'] or the
      weights do not add up to a positive total. Otherwise "b" is chosen
      exactly when the scaled draw falls below the weight of the first action. */
  function GetComputerAction(strategy: StrategyFile, history: string, draw: real): (r: Result<string>)
    ensures history !in strategy ==> r == Failure(ValueError)
    ensures r.Failure? ==> r.error == ValueError
    ensures r.Success? <==>
              history in strategy && |strategy[history]| == 2 &&
              strategy[history][0].1 + strategy[history][1].1 > 0.0
    ensures r.Success? ==>
              (r.value == "b" <==> draw * (strategy[history][0].1 + strategy[history][1].1) < strategy[history][0].1) &&
              (r.value == "p" <==> draw * (strategy[history][0].1 + strategy[history][1].1) >= strategy[history][0].1)
  {
    if history !in strategy then Failure(ValueError)
    else
      var weights := Weights(strategy[history]);
      if |weights| != 2 then Failure(ValueError)
      else
        var total := weights[0] + weights[1];
        if total <= 0.0 then Failure(ValueError)
        else if draw * total < weights[0] then Success("b")
        else Success("p")
  }

  /** The dictionary `save_strategy` writes: for every key, the strategy's
      probability of each action of `ACTIONS`, in that order. */
  function SavedStrategy(m: KuhnSpec.InfoSets): (s: StrategyFile)
    ensures s.Keys == m.Keys
    ensures forall k :: k in m && HasActions(m[k].actions, KuhnPoker.ACTIONS) ==>
              |s[k]| == 2 && s[k][0] == ("b", m[k].actions["b"].strategy) && s[k][1] == ("p", m[k].actions["p"].strategy)
  {
    map k | k in m ::
      seq(|KuhnPoker.ACTIONS|, i requires 0 <= i < |KuhnPoker.ACTIONS| =>
        var a := KuhnPoker.ACTIONS[i];
        (a, if a in m[k].actions then m[k].actions[a].strategy else 0.0))
  }

  /** The computer is asked to move at its card followed by the actions so
      far, a history at which someone decides: an information-set key. */
  lemma ComputerHistoryIsKey(card: nat, actionStr: string)
    requires card < |CARD_MAP| && actionStr in KuhnPoker.INFO_SET_ACTION_STRS
    ensures KuhnPoker.IsInfoSetKey(CARD_MAP[card] + actionStr)
  {
    var history := CARD_MAP[card] + actionStr;
    assert history[..1] == CARD_MAP[card] && history[1..] == actionStr;
  }

  /** Against the strategy the solver saves from a well-formed table, the
      computer's lookup never fails at an information-set key, and it bets
      exactly when the draw falls below its trained probability of betting. */
  lemma ComputerMovesFromSavedStrategy(m: KuhnSpec.InfoSets, history: string, draw: real)
    requires KuhnSpec.WellFormed(m) && KuhnPoker.IsInfoSetKey(history)
    ensures var r := GetComputerAction(SavedStrategy(m), history, draw);
            r.Success? && (r.value == "b" <==> draw < m[history].actions["b"].strategy)
  {
    assert KuhnSpec.HealthyRecord(m[history]);
    var s: StrategyFile := SavedStrategy(m);
    assert s[history][0].1 + s[history][1].1 == 1.0;
  }
}
