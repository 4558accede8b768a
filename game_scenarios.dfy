/**
 * Game scenarios with explicit action lists (act_integ/models/game_scenarios.py).
 * A scenario looks its pairs up in the payoff dictionary with `[...]`, so a
 * pair it needs and does not find raises `KeyError`; the model returns
 * `None` there.
 */
module GameScenarios {
  import opened Wrappers

  type Pair = (string, string)

  datatype ScenarioOutcome = ScenarioOutcome(description: string, utility1: int, utility2: int)

  datatype GameScenario = GameScenario(
    name: string,
    description: string,
    player1Type: string,
    player2Type: string,
    actions1: seq<string>,
    actions2: seq<string>,
    payoff: map<Pair, ScenarioOutcome>)

  /** Every pair of listed actions has an outcome. */
  predicate Covers(s: GameScenario) {
    forall a1, a2 :: a1 in s.actions1 && a2 in s.actions2 ==> (a1, a2) in s.payoff
  }

  /** No listed alternative of either player strictly improves that player's utility. */
  predicate IsEquilibrium(s: GameScenario, a1: string, a2: string) {
    && (a1, a2) in s.payoff
    && (forall b :: b in s.actions1 && b != a1 ==> (b, a2) in s.payoff && s.payoff[(b, a2)].utility1 <= s.payoff[(a1, a2)].utility1)
    && (forall b :: b in s.actions2 && b != a2 ==> (a1, b) in s.payoff && s.payoff[(a1, b)].utility2 <= s.payoff[(a1, a2)].utility2)
  }

  // The two loops of `_is_nash_equilibrium`: `Some(true)` when an alternative
  // strictly improves (the early `return False`), `None` on a missing pair.

  function BetterForPlayer1(m: map<Pair, ScenarioOutcome>, alts: seq<string>, a1: string, a2: string, u: int): Option<bool>
    decreases |alts|
  {
    if alts == [] then Some(false)
    else if alts[0] == a1 then BetterForPlayer1(m, alts[1..], a1, a2, u)
    else if (alts[0], a2) !in m then None
    else if m[(alts[0], a2)].utility1 > u then Some(true)
    else BetterForPlayer1(m, alts[1..], a1, a2, u)
  }

  function BetterForPlayer2(m: map<Pair, ScenarioOutcome>, alts: seq<string>, a1: string, a2: string, u: int): Option<bool>
    decreases |alts|
  {
    if alts == [] then Some(false)
    else if alts[0] == a2 then BetterForPlayer2(m, alts[1..], a1, a2, u)
    else if (a1, alts[0]) !in m then None
    else if m[(a1, alts[0])].utility2 > u then Some(true)
    else BetterForPlayer2(m, alts[1..], a1, a2, u)
  }

  /** `_is_nash_equilibrium` as a value: the current pair first, then player 1's loop, then player 2's. */
  function EquilibriumCheck(s: GameScenario, a1: string, a2: string): Option<bool> {
    if (a1, a2) !in s.payoff then None
    else
      var current := s.payoff[(a1, a2)];
      match BetterForPlayer1(s.payoff, s.actions1, a1, a2, current.utility1)
      case None => None
      case Some(true) => Some(false)
      case Some(false) =>
        match BetterForPlayer2(s.payoff, s.actions2, a1, a2, current.utility2)
        case None => None
        case Some(better) => Some(!better)
  }

  /** The inner loop of `get_nash_equilibria` over `cols`. */
  function EquilibriaCols(s: GameScenario, a1: string, cols: seq<string>): Option<seq<Pair>>
    decreases |cols|
  {
    if cols == [] then Some([])
    else
      var a2 := cols[|cols| - 1];
      match EquilibriaCols(s, a1, cols[..|cols| - 1])
      case None => None
      case Some(r) =>
        match EquilibriumCheck(s, a1, a2)
        case None => None
        case Some(b) => Some(r + if b then [(a1, a2)] else [])
  }

  /** The outer loop of `get_nash_equilibria` over `rows`. */
  function EquilibriaRows(s: GameScenario, rows: seq<string>): Option<seq<Pair>>
    decreases |rows|
  {
    if rows == [] then Some([])
    else
      match EquilibriaRows(s, rows[..|rows| - 1])
      case None => None
      case Some(r) =>
        match EquilibriaCols(s, rows[|rows| - 1], s.actions2)
        case None => None
        case Some(t) => Some(r + t)
  }

  lemma {:induction false} BetterForPlayer1Exact(m: map<Pair, ScenarioOutcome>, alts: seq<string>, a1: string, a2: string, u: int)
    requires forall b :: b in alts && b != a1 ==> (b, a2) in m
    ensures BetterForPlayer1(m, alts, a1, a2, u).Some?
    ensures BetterForPlayer1(m, alts, a1, a2, u).value <==> exists b :: b in alts && b != a1 && m[(b, a2)].utility1 > u
    decreases |alts|
  {
    if alts != [] {
      assert forall b :: b in alts <==> b == alts[0] || b in alts[1..];
      BetterForPlayer1Exact(m, alts[1..], a1, a2, u);
    }
  }

  lemma {:induction false} BetterForPlayer2Exact(m: map<Pair, ScenarioOutcome>, alts: seq<string>, a1: string, a2: string, u: int)
    requires forall b :: b in alts && b != a2 ==> (a1, b) in m
    ensures BetterForPlayer2(m, alts, a1, a2, u).Some?
    ensures BetterForPlayer2(m, alts, a1, a2, u).value <==> exists b :: b in alts && b != a2 && m[(a1, b)].utility2 > u
    decreases |alts|
  {
    if alts != [] {
      assert forall b :: b in alts <==> b == alts[0] || b in alts[1..];
      BetterForPlayer2Exact(m, alts[1..], a1, a2, u);
    }
  }

  /**
   * When every listed pair has an outcome, `_is_nash_equilibrium` raises no
   * error and is true exactly for the equilibria.
   */
  lemma EquilibriumCheckExact(s: GameScenario, a1: string, a2: string)
    requires Covers(s) && a1 in s.actions1 && a2 in s.actions2
    ensures EquilibriumCheck(s, a1, a2) == Some(IsEquilibrium(s, a1, a2))
  {
    var current := s.payoff[(a1, a2)];
    BetterForPlayer1Exact(s.payoff, s.actions1, a1, a2, current.utility1);
    BetterForPlayer2Exact(s.payoff, s.actions2, a1, a2, current.utility2);
  }

  lemma {:induction false} EquilibriaColsExact(s: GameScenario, a1: string, cols: seq<string>)
    requires Covers(s) && a1 in s.actions1 && forall c :: c in cols ==> c in s.actions2
    ensures EquilibriaCols(s, a1, cols).Some?
    ensures forall p :: p in EquilibriaCols(s, a1, cols).value <==> p.0 == a1 && p.1 in cols && IsEquilibrium(s, p.0, p.1)
    decreases |cols|
  {
    if cols != [] {
      var init := cols[..|cols| - 1];
      assert forall c :: c in cols <==> c in init || c == cols[|cols| - 1];
      EquilibriaColsExact(s, a1, init);
      EquilibriumCheckExact(s, a1, cols[|cols| - 1]);
    }
  }

  /**
   * When every listed pair has an outcome, `get_nash_equilibria` raises no
   * error and returns exactly the equilibria among the listed pairs.
   */
  lemma {:induction false} EquilibriaRowsExact(s: GameScenario, rows: seq<string>)
    requires Covers(s) && forall r :: r in rows ==> r in s.actions1
    ensures EquilibriaRows(s, rows).Some?
    ensures forall p :: p in EquilibriaRows(s, rows).value <==> p.0 in rows && p.1 in s.actions2 && IsEquilibrium(s, p.0, p.1)
    decreases |rows|
  {
    if rows != [] {
      var init := rows[..|rows| - 1];
      assert forall r :: r in rows <==> r in init || r == rows[|rows| - 1];
      EquilibriaRowsExact(s, init);
      EquilibriaColsExact(s, rows[|rows| - 1], s.actions2);
    }
  }

  /** `get_nash_equilibria` raises `KeyError` only when some pair of listed actions has no outcome. */
  lemma ErrorMeansMissingPair(s: GameScenario)
    requires EquilibriaRows(s, s.actions1) == None
    ensures exists a1, a2 :: a1 in s.actions1 && a2 in s.actions2 && (a1, a2) !in s.payoff
  {
    if Covers(s) {
      EquilibriaRowsExact(s, s.actions1);
    }
  }

  /** `_is_nash_equilibrium`. */
  method IsNashEquilibrium(s: GameScenario, action1: string, action2: string) returns (r: Option<bool>)
    ensures r == EquilibriumCheck(s, action1, action2)
  {
    if (action1, action2) !in s.payoff {
      return None;
    }
    var current := s.payoff[(action1, action2)];
    var i := 0;
    while i < |s.actions1|
      invariant 0 <= i <= |s.actions1|
      invariant BetterForPlayer1(s.payoff, s.actions1, action1, action2, current.utility1)
             == BetterForPlayer1(s.payoff, s.actions1[i..], action1, action2, current.utility1)
    {
      var alt := s.actions1[i];
      assert s.actions1[i..][1..] == s.actions1[i + 1..];
      if alt != action1 {
        if (alt, action2) !in s.payoff {
          return None;
        }
        if s.payoff[(alt, action2)].utility1 > current.utility1 {
          return Some(false);
        }
      }
      i := i + 1;
    }
    var j := 0;
    while j < |s.actions2|
      invariant 0 <= j <= |s.actions2|
      invariant BetterForPlayer2(s.payoff, s.actions2, action1, action2, current.utility2)
             == BetterForPlayer2(s.payoff, s.actions2[j..], action1, action2, current.utility2)
    {
      var alt := s.actions2[j];
      assert s.actions2[j..][1..] == s.actions2[j + 1..];
      if alt != action2 {
        if (action1, alt) !in s.payoff {
          return None;
        }
        if s.payoff[(action1, alt)].utility2 > current.utility2 {
          return Some(false);
        }
      }
      j := j + 1;
    }
    return Some(true);
  }

  /** Once a prefix of the inner loop has failed, the whole loop fails. */
  lemma {:induction false} ColsFailureExtends(s: GameScenario, a1: string, cols: seq<string>, n: nat)
    requires n <= |cols| && EquilibriaCols(s, a1, cols[..n]) == None
    ensures EquilibriaCols(s, a1, cols) == None
    decreases |cols| - n
  {
    if n == |cols| {
      assert cols[..n] == cols;
    } else {
      assert cols[..|cols| - 1][..n] == cols[..n];
      ColsFailureExtends(s, a1, cols[..|cols| - 1], n);
    }
  }

  /** Once a prefix of the outer loop has failed, the whole loop fails. */
  lemma {:induction false} RowsFailureExtends(s: GameScenario, rows: seq<string>, n: nat)
    requires n <= |rows| && EquilibriaRows(s, rows[..n]) == None
    ensures EquilibriaRows(s, rows) == None
    decreases |rows| - n
  {
    if n == |rows| {
      assert rows[..n] == rows;
    } else {
      assert rows[..|rows| - 1][..n] == rows[..n];
      RowsFailureExtends(s, rows[..|rows| - 1], n);
    }
  }

  /** `get_nash_equilibria`: the passing pairs in the order of the two action lists. */
  method GetNashEquilibria(s: GameScenario) returns (r: Option<seq<Pair>>)
    ensures r == EquilibriaRows(s, s.actions1)
  {
    var equilibria := [];
    var i := 0;
    while i < |s.actions1|
      invariant 0 <= i <= |s.actions1|
      invariant EquilibriaRows(s, s.actions1[..i]) == Some(equilibria)
    {
      var row := ScanRow(s, s.actions1[i]);
      assert s.actions1[..i + 1][..i] == s.actions1[..i];
      if row.None? {
        RowsFailureExtends(s, s.actions1, i + 1);
        return None;
      }
      equilibria := equilibria + row.value;
      i := i + 1;
    }
    assert s.actions1[..|s.actions1|] == s.actions1;
    r := Some(equilibria);
  }

  /** The inner loop of `get_nash_equilibria`: the passing pairs of one row, in column order. */
  method ScanRow(s: GameScenario, action1: string) returns (r: Option<seq<Pair>>)
    ensures r == EquilibriaCols(s, action1, s.actions2)
  {
    var row := [];
    var j := 0;
    while j < |s.actions2|
      invariant 0 <= j <= |s.actions2|
      invariant EquilibriaCols(s, action1, s.actions2[..j]) == Some(row)
    {
      var action2 := s.actions2[j];
      assert s.actions2[..j + 1][..j] == s.actions2[..j] && s.actions2[..j + 1][j] == action2;
      var check := IsNashEquilibrium(s, action1, action2);
      if check.None? {
        ColsFailureExtends(s, action1, s.actions2, j + 1);
        return None;
      }
      assert EquilibriaCols(s, action1, s.actions2[..j + 1]) == Some(row + if check.value then [(action1, action2)] else []);
      if check.value {
        row := row + [(action1, action2)];
      } else {
        assert row + [] == row;
      }
      j := j + 1;
    }
    assert s.actions2[..|s.actions2|] == s.actions2;
    return Some(row);
  }

  // `GAME_SCENARIOS`.

  const VEHICLE_VEHICLE := GameScenario(
    "Vehicle-Vehicle Intersection",
    "Two vehicles approach intersection without traffic light",
    "Vehicle", "Vehicle",
    ["stop", "proceed"], ["stop", "proceed"],
    map[
      ("stop", "stop") := ScenarioOutcome("Both wait", -1, -1),
      ("stop", "proceed") := ScenarioOutcome("P1 waits, P2 goes", -2, 2),
      ("proceed", "stop") := ScenarioOutcome("P1 goes, P2 waits", 2, -2),
      ("proceed", "proceed") := ScenarioOutcome("Collision risk", -10, -10)])

  const PEDESTRIAN_VEHICLE := GameScenario(
    "Pedestrian-Vehicle Crossing",
    "Pedestrian wants to cross while vehicle approaches",
    "Pedestrian", "Vehicle",
    ["wait", "cross"], ["stop", "continue"],
    map[
      ("wait", "stop") := ScenarioOutcome("Safe crossing opportunity", 1, -1),
      ("wait", "continue") := ScenarioOutcome("Vehicle passes first", 0, 2),
      ("cross", "stop") := ScenarioOutcome("Safe crossing", 2, -2),
      ("cross", "continue") := ScenarioOutcome("Dangerous situation", -20, -15)])

  const GAME_SCENARIOS: seq<GameScenario> := [VEHICLE_VEHICLE, PEDESTRIAN_VEHICLE]

  /** The inner loop over two columns, each of whose checks succeeds. */
  lemma TwoColumns(s: GameScenario, a1: string, x: string, y: string)
    requires EquilibriumCheck(s, a1, x).Some? && EquilibriumCheck(s, a1, y).Some?
    ensures EquilibriaCols(s, a1, [x, y])
         == Some((if EquilibriumCheck(s, a1, x).value then [(a1, x)] else []) + (if EquilibriumCheck(s, a1, y).value then [(a1, y)] else []))
  {
    assert [x, y][..1] == [x] && [x][..0] == [];
    var first := if EquilibriumCheck(s, a1, x).value then [(a1, x)] else [];
    assert EquilibriaCols(s, a1, [x]) == Some([] + first);
    assert [] + first == first;
  }

  /** The outer loop over two rows, each of whose inner loops succeeds. */
  lemma TwoRows(s: GameScenario, x: string, y: string)
    requires EquilibriaCols(s, x, s.actions2).Some? && EquilibriaCols(s, y, s.actions2).Some?
    ensures EquilibriaRows(s, [x, y]) == Some(EquilibriaCols(s, x, s.actions2).value + EquilibriaCols(s, y, s.actions2).value)
  {
    assert [x, y][..1] == [x] && [x][..0] == [];
    var first := EquilibriaCols(s, x, s.actions2).value;
    assert EquilibriaRows(s, [x]) == Some([] + first);
    assert [] + first == first;
  }

  /** In the vehicle-vehicle scenario exactly one of the two vehicles goes: stop/proceed, then proceed/stop. */
  lemma VehicleVehicleEquilibria()
    ensures EquilibriaRows(VEHICLE_VEHICLE, VEHICLE_VEHICLE.actions1) == Some([("stop", "proceed"), ("proceed", "stop")])
  {
    var s := VEHICLE_VEHICLE;
    assert EquilibriumCheck(s, "stop", "stop") == Some(false);
    assert EquilibriumCheck(s, "stop", "proceed") == Some(true);
    assert EquilibriumCheck(s, "proceed", "stop") == Some(true);
    assert EquilibriumCheck(s, "proceed", "proceed") == Some(false);
    TwoColumns(s, "stop", "stop", "proceed");
    TwoColumns(s, "proceed", "stop", "proceed");
    TwoRows(s, "stop", "proceed");
    assert s.actions1 == ["stop", "proceed"] && s.actions2 == ["stop", "proceed"];
    assert EquilibriaCols(s, "stop", s.actions2).value == [("stop", "proceed")];
    assert EquilibriaCols(s, "proceed", s.actions2).value == [("proceed", "stop")];
    assert [("stop", "proceed")] + [("proceed", "stop")] == [("stop", "proceed"), ("proceed", "stop")];
  }

  /** In the pedestrian-vehicle scenario one party gives way: wait/continue, then cross/stop. */
  lemma PedestrianVehicleEquilibria()
    ensures EquilibriaRows(PEDESTRIAN_VEHICLE, PEDESTRIAN_VEHICLE.actions1) == Some([("wait", "continue"), ("cross", "stop")])
  {
    var s := PEDESTRIAN_VEHICLE;
    assert EquilibriumCheck(s, "wait", "stop") == Some(false);
    assert EquilibriumCheck(s, "wait", "continue") == Some(true);
    assert EquilibriumCheck(s, "cross", "stop") == Some(true);
    assert EquilibriumCheck(s, "cross", "continue") == Some(false);
    TwoColumns(s, "wait", "stop", "continue");
    TwoColumns(s, "cross", "stop", "continue");
    TwoRows(s, "wait", "cross");
    assert s.actions1 == ["wait", "cross"] && s.actions2 == ["stop", "continue"];
    assert EquilibriaCols(s, "wait", s.actions2).value == [("wait", "continue")];
    assert EquilibriaCols(s, "cross", s.actions2).value == [("cross", "stop")];
    assert [("wait", "continue")] + [("cross", "stop")] == [("wait", "continue"), ("cross", "stop")];
  }
}
