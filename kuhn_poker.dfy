/** The pure part of the Kuhn poker solver (khun_poker.py): the game's
    constants, the information-set key arithmetic and the terminal payoffs.

    An information-set key is the deciding player's rank ("K", "Q" or "J")
    followed by the public history of actions ("b" bet, "p" pass). */
module KuhnPoker {
  import opened Outcomes

  const RANKS: seq<string> := ["K", "Q", "J"]
  const ACTIONS: seq<string> := ["b", "p"]

  /** The public histories that end the game. */
  const TERMINAL_ACTION_STR_MAP: set<string> := {"pp", "bb", "bp", "pbb", "pbp"}

  /** The public histories at which a player decides. */
  const INFO_SET_ACTION_STRS: set<string> := {"", "p", "b", "pb"}

  /** Index of the player (0 opens, 1 answers) who decides at a key. */
  function GetDecidingPlayerForInfoSet(infoSetStr: string): (p: int)
    ensures p == 0 || p == 1
    ensures p == 0 <==> |infoSetStr| % 2 == 1
  {
    (|infoSetStr| - 1) % 2
  }

  /** One more action hands the decision to the other player. */
  lemma DecidingPlayerAlternates(infoSetStr: string, action: string)
    requires |action| == 1
    ensures GetDecidingPlayerForInfoSet(infoSetStr + action) == 1 - GetDecidingPlayerForInfoSet(infoSetStr)
  {
  }

  /** The ranks the opponent can hold when the deciding player holds `pocket`, in `RANKS` order. */
  function GetPossibleOpponentPockets(pocket: string): (r: seq<string>)
    ensures forall x :: x in r <==> x in RANKS && x != pocket
    ensures pocket in RANKS ==> |r| == 2
    ensures pocket !in RANKS ==> r == RANKS
    ensures forall i, j :: 0 <= i < j < |r| ==> r[i] != r[j]
  {
    WithoutRank(RANKS, pocket)
  }

  /** `ranks` with every occurrence of `pocket` dropped. */
  function WithoutRank(ranks: seq<string>, pocket: string): (r: seq<string>)
    ensures forall x :: x in r <==> x in ranks && x != pocket
    ensures |r| <= |ranks|
    ensures pocket !in ranks ==> r == ranks
    ensures (forall i, j :: 0 <= i < j < |ranks| ==> ranks[i] != ranks[j]) ==>
              (forall i, j :: 0 <= i < j < |r| ==> r[i] != r[j]) && (pocket in ranks ==> |r| == |ranks| - 1)
  {
    if ranks == [] then []
    else
      var rest := WithoutRank(ranks[1..], pocket);
      assert ranks == [ranks[0]] + ranks[1..];
      if ranks[0] == pocket then rest
      else
        assert (forall i, j :: 0 <= i < j < |ranks| ==> ranks[i] != ranks[j]) ==> ranks[0] !in rest by {
          if forall i, j :: 0 <= i < j < |ranks| ==> ranks[i] != ranks[j] {
            assert ranks[0] !in ranks[1..];
          }
        }
        [ranks[0]] + rest
  }

  /** `[opp + suffix for opp in opps]`. */
  function PrependEach(opps: seq<string>, suffix: string): (r: seq<string>)
    ensures |r| == |opps|
    ensures forall i :: 0 <= i < |r| ==> r[i] == opps[i] + suffix
  {
    seq(|opps|, i requires 0 <= i < |opps| => opps[i] + suffix)
  }

  /** When every prefix is a single character, the members of `PrependEach` are
      the strings made of one of those characters followed by `suffix`. */
  lemma PrependEachMembers(opps: seq<string>, suffix: string, d: string)
    requires forall o :: o in opps ==> |o| == 1
    ensures d in PrependEach(opps, suffix) <==> |d| == 1 + |suffix| && d[..1] in opps && d[1..] == suffix
  {
    var r := PrependEach(opps, suffix);
    if d in r {
      var i :| 0 <= i < |r| && r[i] == d;
      assert d[..1] == opps[i] && d[1..] == suffix;
    }
    if |d| == 1 + |suffix| && d[..1] in opps && d[1..] == suffix {
      var i :| 0 <= i < |opps| && opps[i] == d[..1];
      assert d == opps[i] + suffix;
      assert r[i] == d;
    }
  }

  /** An information-set key: a rank followed by a history at which someone decides. */
  predicate IsInfoSetKey(k: string) {
    |k| >= 1 && k[..1] in RANKS && k[1..] in INFO_SET_ACTION_STRS
  }

  /** The keys the opponent could have decided at just before the last action of
      `infoSetStr`: every other rank, followed by the history without its last action. */
  function GetAncestralInfoSetStr(infoSetStr: string): (r: Result<seq<string>>)
    ensures r.Success? <==> |infoSetStr| >= 2
    ensures |infoSetStr| == 1 ==> r == Failure(ValueError)
    ensures |infoSetStr| == 0 ==> r == Failure(IndexError)
    ensures r.Success? ==>
              forall a :: a in r.value <==>
                |a| == |infoSetStr| - 1 && a[..1] in RANKS && a[..1] != infoSetStr[..1] &&
                a[1..] + infoSetStr[|infoSetStr| - 1..] == infoSetStr[1..]
    ensures r.Success? && infoSetStr[..1] in RANKS ==> |r.value| == 2
  {
    if |infoSetStr| == 1 then Failure(ValueError)
    else if |infoSetStr| == 0 then Failure(IndexError)
    else
      var opps := GetPossibleOpponentPockets(infoSetStr[..1]);
      var history := infoSetStr[1..|infoSetStr| - 1];
      var last := infoSetStr[|infoSetStr| - 1..];
      assert infoSetStr[1..] == history + last;
      var r := PrependEach(opps, history);
      assert forall a :: a in r <==>
          |a| == |infoSetStr| - 1 && a[..1] in RANKS && a[..1] != infoSetStr[..1] &&
          a[1..] + last == infoSetStr[1..] by {
        forall a ensures a in r <==>
            |a| == |infoSetStr| - 1 && a[..1] in RANKS && a[..1] != infoSetStr[..1] &&
            a[1..] + last == infoSetStr[1..] {
          PrependEachMembers(opps, history, a);
          if |a| >= 1 && a[1..] + last == infoSetStr[1..] {
            assert a[1..] == (a[1..] + last)[..|a[1..]|];
          }
        }
      }
      Success(r)
  }

  /** The keys the opponent decides at after the player at `infoSetStr` plays
      `action`: every other rank, followed by the extended history. */
  function GetDescendantInfoSetStrs(infoSetStr: string, action: string): (r: Result<seq<string>>)
    ensures r.Success? <==> |infoSetStr| >= 1
    ensures r.Failure? ==> r.error == IndexError
    ensures r.Success? ==>
              forall d :: d in r.value <==>
                |d| == |infoSetStr| + |action| && d[..1] in RANKS && d[..1] != infoSetStr[..1] &&
                d[1..] == infoSetStr[1..] + action
    ensures r.Success? && infoSetStr[..1] in RANKS ==> |r.value| == 2
    ensures r.Success? ==> forall i :: 0 <= i < |r.value| ==> |r.value[i]| >= 1 && r.value[i][1..] == infoSetStr[1..] + action
  {
    if |infoSetStr| == 0 then Failure(IndexError)
    else
      var opps := GetPossibleOpponentPockets(infoSetStr[..1]);
      var actionStr := infoSetStr[1..] + action;
      var r := PrependEach(opps, actionStr);
      assert forall d :: d in r <==>
          |d| == |infoSetStr| + |action| && d[..1] in RANKS && d[..1] != infoSetStr[..1] &&
          d[1..] == actionStr by {
        forall d ensures d in r <==>
            |d| == |infoSetStr| + |action| && d[..1] in RANKS && d[..1] != infoSetStr[..1] &&
            d[1..] == actionStr {
          PrependEachMembers(opps, actionStr, d);
        }
      }
      Success(r)
  }

  /** Ancestor and descendant keys are inverse relations: `t` is reached from `s`
      by the last action of `t` exactly when `s` is an ancestor of `t`. */
  lemma AncestorsAndDescendantsAreInverse(s: string, t: string)
    requires |s| >= 1 && s[..1] in RANKS && |t| >= 2 && t[..1] in RANKS
    ensures t in GetDescendantInfoSetStrs(s, t[|t| - 1..]).value <==> s in GetAncestralInfoSetStr(t).value
  {
    var last := t[|t| - 1..];
    if t in GetDescendantInfoSetStrs(s, last).value {
      assert s[1..] + last == t[1..];
      assert s[1..] == t[1..][..|t[1..]| - 1];
    }
    if s in GetAncestralInfoSetStr(t).value {
      assert t[1..] == s[1..] + last;
    }
  }

  /** The strict order of ranks: a rank outranks the ranks listed after it in `RANKS`. */
  predicate Outranks(p1: string, p2: string)
    requires p1 in RANKS && p2 in RANKS
  {
    exists i, j :: 0 <= i < j < |RANKS| && RANKS[i] == p1 && RANKS[j] == p2
  }

  /** Two different ranks, one for each player. */
  predicate ValidDeal(p1: string, p2: string) {
    p1 in RANKS && p2 in RANKS && p1 != p2
  }

  /** Whether the first pocket beats the second at a showdown. */
  function PlayerOnePocketIsHigher(pocket1: string, pocket2: string): (r: Result<bool>)
    ensures ValidDeal(pocket1, pocket2) ==> r == Success(Outranks(pocket1, pocket2))
    ensures r.Failure? <==> pocket1 != "K" && pocket1 != "J" && pocket2 != "K" && pocket2 != "J"
    ensures r.Failure? ==> r.error == ValueError
  {
    if pocket1 == "K" then Success(true)
    else if pocket1 == "J" then Success(false)
    else if pocket2 == "K" then Success(false)
    else if pocket2 == "J" then Success(true)
    else Failure(ValueError)
  }

  /** The number of bets in a history. */
  function Bets(actionStr: string): nat {
    if actionStr == [] then 0
    else Bets(actionStr[..|actionStr| - 1]) + (if actionStr[|actionStr| - 1] == 'b' then 1 else 0)
  }

  /** A history ending with a pass that answers an earlier bet: the passing player folds. */
  predicate EndsInFold(actionStr: string) {
    |actionStr| >= 2 && actionStr[|actionStr| - 1] == 'p' && 'b' in actionStr[..|actionStr| - 1]
  }

  /** Kuhn poker's payoffs at the end of a game, from its rules: each player
      antes 1 and a called bet adds 1 more; a folding player loses the antes, and
      otherwise the higher rank takes the pot. The folder is the player who acted last. */
  function KuhnPayoff(pocket1: string, pocket2: string, actionStr: string): (int, int)
    requires ValidDeal(pocket1, pocket2)
  {
    var stake := if Bets(actionStr) == 2 then 2 else 1;
    var playerOneWins :=
      if EndsInFold(actionStr) then (|actionStr| - 1) % 2 == 1 else Outranks(pocket1, pocket2);
    if playerOneWins then (stake, -stake) else (-stake, stake)
  }

  /** The payoffs (player one, player two) at a terminal history. */
  function CalcUtilityAtTerminalNode(pocket1: string, pocket2: string, actionStr: string): (r: Result<(int, int)>)
    ensures r.Success? ==> r.value.0 + r.value.1 == 0
    ensures r.Success? ==> actionStr in TERMINAL_ACTION_STR_MAP
    ensures actionStr !in TERMINAL_ACTION_STR_MAP ==> r == Failure(ValueError)
    ensures actionStr in TERMINAL_ACTION_STR_MAP && ValidDeal(pocket1, pocket2) ==>
              r == Success(KuhnPayoff(pocket1, pocket2, actionStr))
    ensures r.Failure? <==>
              actionStr !in TERMINAL_ACTION_STR_MAP ||
              (actionStr in {"pp", "bb", "pbb"} && PlayerOnePocketIsHigher(pocket1, pocket2).Failure?)
  {
    assert Bets("pp") == 0 && !EndsInFold("pp");
    assert Bets("bb") == 2 && !EndsInFold("bb");
    assert Bets("pbb") == 2 && !EndsInFold("pbb");
    assert Bets("bp") == 1 && EndsInFold("bp");
    assert Bets("pbp") == 1 && EndsInFold("pbp");
    if actionStr == "pp" then
      var higher :- PlayerOnePocketIsHigher(pocket1, pocket2);
      if higher then Success((1, -1)) else Success((-1, 1))
    else if actionStr == "pbp" then
      Success((-1, 1))
    else if actionStr == "bp" then
      Success((1, -1))
    else if actionStr == "bb" || actionStr == "pbb" then
      var higher :- PlayerOnePocketIsHigher(pocket1, pocket2);
      if higher then Success((2, -2)) else Success((-2, 2))
    else
      Failure(ValueError)
  }

  /** The amount won or lost at a terminal history: 2 once both players have
      bet ("bb", "pbb"), 1 otherwise ("pp", "bp", "pbp"). */
  lemma TerminalStakes(pocket1: string, pocket2: string, actionStr: string)
    requires ValidDeal(pocket1, pocket2) && actionStr in TERMINAL_ACTION_STR_MAP
    ensures CalcUtilityAtTerminalNode(pocket1, pocket2, actionStr).Success?
    ensures var u := CalcUtilityAtTerminalNode(pocket1, pocket2, actionStr).value;
            (u.0 == 2 || u.0 == -2) <==> actionStr in {"bb", "pbb"}
    ensures var u := CalcUtilityAtTerminalNode(pocket1, pocket2, actionStr).value;
            (u.0 == 1 || u.0 == -1) <==> actionStr in {"pp", "bp", "pbp"}
  {
  }
}
