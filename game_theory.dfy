/**
 * Two-player traffic games (act_integ/models/game_theory.py): a payoff
 * matrix from action pairs to outcomes, kept as a dictionary in insertion
 * order, and the three analyses over it: Nash equilibria, Pareto-optimal
 * pairs and the pair of maximal social welfare.
 *
 * `find_nash_equilibrium` iterates over Python sets of action names, whose
 * order is not specified; the model takes that order as two parameters that
 * must enumerate the sets.  A deviation the scan evaluates on an absent pair
 * raises an error in the source (`None.utility_player1`); the model returns
 * `None` there.
 */
module GameTheory {
  import opened Wrappers

  datatype AgentType = Vehicle | Pedestrian | TrafficLight

  type Pair = (string, string)

  datatype GameOutcome = GameOutcome(description: string, utility1: real, utility2: real)
  {
    function SocialWelfare(): real {
      utility1 + utility2
    }
  }

  /** A welfare value, with the `float("-inf")` the maximum starts from. */
  datatype Welfare = NegInfinity | Finite(value: real)

  predicate Distinct<T(==)>(s: seq<T>) {
    forall i, j :: 0 <= i < j < |s| ==> s[i] != s[j]
  }

  /** `order` is one iteration order of the set `s`. */
  predicate Enumerates(order: seq<string>, s: set<string>) {
    Distinct(order) && (forall x :: x in order ==> x in s) && (forall x :: x in s ==> x in order)
  }

  /** The actions of player 1 and of player 2 that occur in the matrix. */
  function Actions1(m: map<Pair, GameOutcome>): set<string> {
    set p | p in m :: p.0
  }

  function Actions2(m: map<Pair, GameOutcome>): set<string> {
    set p | p in m :: p.1
  }

  /** Every combination of the occurring actions has an outcome. */
  predicate Complete(m: map<Pair, GameOutcome>) {
    forall a1, a2 :: a1 in Actions1(m) && a2 in Actions2(m) ==> (a1, a2) in m
  }

  /** `p` is a pure Nash equilibrium: no unilateral deviation strictly improves the deviating player. */
  predicate IsNash(m: map<Pair, GameOutcome>, p: Pair) {
    && p in m
    && (forall b :: b in Actions1(m) && b != p.0 ==> (b, p.1) in m && m[(b, p.1)].utility1 <= m[p].utility1)
    && (forall b :: b in Actions2(m) && b != p.1 ==> (p.0, b) in m && m[(p.0, b)].utility2 <= m[p].utility2)
  }

  /** `o2` dominates `o1`: at least as good for both players and strictly better for one. */
  predicate Dominates(o2: GameOutcome, o1: GameOutcome) {
    && o2.utility1 >= o1.utility1 && o2.utility2 >= o1.utility2
    && (o2.utility1 > o1.utility1 || o2.utility2 > o1.utility2)
  }

  predicate IsParetoOptimal(m: map<Pair, GameOutcome>, s: Pair) {
    s in m && forall s2 :: s2 in m && s2 != s ==> !Dominates(m[s2], m[s])
  }

  /** `k` is the first index of `ks` whose outcome has maximal social welfare. */
  predicate IsFirstMaxWelfare(m: map<Pair, GameOutcome>, ks: seq<Pair>, k: int)
    requires forall i :: 0 <= i < |ks| ==> ks[i] in m
  {
    && 0 <= k < |ks|
    && (forall j :: 0 <= j < |ks| ==> m[ks[j]].SocialWelfare() <= m[ks[k]].SocialWelfare())
    && (forall j :: 0 <= j < k ==> m[ks[j]].SocialWelfare() < m[ks[k]].SocialWelfare())
  }

  // The deviation scans of `find_nash_equilibrium`: `any(...)` over the alternatives in
  // iteration order, stopping at the first improvement; `None` is the error an absent pair raises.

  function Improves1(m: map<Pair, GameOutcome>, order: seq<string>, a1: string, a2: string, u: real): Option<bool>
    decreases |order|
  {
    if order == [] then Some(false)
    else if order[0] == a1 then Improves1(m, order[1..], a1, a2, u)
    else if (order[0], a2) !in m then None
    else if m[(order[0], a2)].utility1 > u then Some(true)
    else Improves1(m, order[1..], a1, a2, u)
  }

  function Improves2(m: map<Pair, GameOutcome>, order: seq<string>, a1: string, a2: string, u: real): Option<bool>
    decreases |order|
  {
    if order == [] then Some(false)
    else if order[0] == a2 then Improves2(m, order[1..], a1, a2, u)
    else if (a1, order[0]) !in m then None
    else if m[(a1, order[0])].utility2 > u then Some(true)
    else Improves2(m, order[1..], a1, a2, u)
  }

  /** The test of one pair: an absent pair is skipped; both scans run before the verdict. */
  function NashCheck(m: map<Pair, GameOutcome>, o1: seq<string>, o2: seq<string>, p: Pair): Option<bool> {
    if p !in m then Some(false)
    else
      match Improves1(m, o1, p.0, p.1, m[p].utility1)
      case None => None
      case Some(i1) =>
        match Improves2(m, o2, p.0, p.1, m[p].utility2)
        case None => None
        case Some(i2) => Some(!i1 && !i2)
  }

  /** The inner loop: the passing pairs `(a1, a2)` for `a2` in `cols`, in order. */
  function NashCols(m: map<Pair, GameOutcome>, o1: seq<string>, o2: seq<string>, a1: string, cols: seq<string>): Option<seq<Pair>>
    decreases |cols|
  {
    if cols == [] then Some([])
    else
      var a2 := cols[|cols| - 1];
      match NashCols(m, o1, o2, a1, cols[..|cols| - 1])
      case None => None
      case Some(s) =>
        match NashCheck(m, o1, o2, (a1, a2))
        case None => None
        case Some(b) => Some(s + if b then [(a1, a2)] else [])
  }

  /** The outer loop: the passing pairs of the rows `rows`, row by row. */
  function NashRows(m: map<Pair, GameOutcome>, o1: seq<string>, o2: seq<string>, rows: seq<string>): Option<seq<Pair>>
    decreases |rows|
  {
    if rows == [] then Some([])
    else
      match NashRows(m, o1, o2, rows[..|rows| - 1])
      case None => None
      case Some(s) =>
        match NashCols(m, o1, o2, rows[|rows| - 1], o2)
        case None => None
        case Some(t) => Some(s + t)
  }

  /** The `find_pareto_optimal` result over the keys `ks`: the undominated ones, in order. */
  function ParetoFilter(m: map<Pair, GameOutcome>, ks: seq<Pair>): seq<Pair>
    decreases |ks|
  {
    if ks == [] then []
    else
      var s := ks[|ks| - 1];
      ParetoFilter(m, ks[..|ks| - 1]) + if IsParetoOptimal(m, s) then [s] else []
  }

  // ---------------------------------------------------------------------------------------------
  // Properties of the Nash scan.

  lemma {:induction false} Improves1Exact(m: map<Pair, GameOutcome>, order: seq<string>, a1: string, a2: string, u: real)
    requires forall k :: 0 <= k < |order| && order[k] != a1 ==> (order[k], a2) in m
    ensures Improves1(m, order, a1, a2, u).Some?
    ensures Improves1(m, order, a1, a2, u).value <==>
            exists k :: 0 <= k < |order| && order[k] != a1 && m[(order[k], a2)].utility1 > u
    decreases |order|
  {
    if order != [] {
      assert forall k :: 1 <= k < |order| ==> order[1..][k - 1] == order[k];
      Improves1Exact(m, order[1..], a1, a2, u);
      if exists k :: 0 <= k < |order| && order[k] != a1 && m[(order[k], a2)].utility1 > u {
        var k :| 0 <= k < |order| && order[k] != a1 && m[(order[k], a2)].utility1 > u;
        if k > 0 {
          assert order[1..][k - 1] == order[k];
        }
      }
    }
  }

  lemma {:induction false} Improves2Exact(m: map<Pair, GameOutcome>, order: seq<string>, a1: string, a2: string, u: real)
    requires forall k :: 0 <= k < |order| && order[k] != a2 ==> (a1, order[k]) in m
    ensures Improves2(m, order, a1, a2, u).Some?
    ensures Improves2(m, order, a1, a2, u).value <==>
            exists k :: 0 <= k < |order| && order[k] != a2 && m[(a1, order[k])].utility2 > u
    decreases |order|
  {
    if order != [] {
      assert forall k :: 1 <= k < |order| ==> order[1..][k - 1] == order[k];
      Improves2Exact(m, order[1..], a1, a2, u);
      if exists k :: 0 <= k < |order| && order[k] != a2 && m[(a1, order[k])].utility2 > u {
        var k :| 0 <= k < |order| && order[k] != a2 && m[(a1, order[k])].utility2 > u;
        if k > 0 {
          assert order[1..][k - 1] == order[k];
        }
      }
    }
  }

  /** A scan that finds no improvement has seen every alternative, and none is better. */
  lemma {:induction false} NoImprovement1(m: map<Pair, GameOutcome>, order: seq<string>, a1: string, a2: string, u: real)
    requires Improves1(m, order, a1, a2, u) == Some(false)
    ensures forall b :: b in order && b != a1 ==> (b, a2) in m && m[(b, a2)].utility1 <= u
    decreases |order|
  {
    if order != [] {
      NoImprovement1(m, order[1..], a1, a2, u);
      assert forall b :: b in order ==> b == order[0] || b in order[1..];
    }
  }

  lemma {:induction false} NoImprovement2(m: map<Pair, GameOutcome>, order: seq<string>, a1: string, a2: string, u: real)
    requires Improves2(m, order, a1, a2, u) == Some(false)
    ensures forall b :: b in order && b != a2 ==> (a1, b) in m && m[(a1, b)].utility2 <= u
    decreases |order|
  {
    if order != [] {
      NoImprovement2(m, order[1..], a1, a2, u);
      assert forall b :: b in order ==> b == order[0] || b in order[1..];
    }
  }

  /** On a complete matrix the test of a pair never fails and says exactly whether it is an equilibrium. */
  lemma NashCheckExact(m: map<Pair, GameOutcome>, o1: seq<string>, o2: seq<string>, p: Pair)
    requires Enumerates(o1, Actions1(m)) && Enumerates(o2, Actions2(m)) && Complete(m)
    requires p.0 in Actions1(m) && p.1 in Actions2(m)
    ensures NashCheck(m, o1, o2, p) == Some(IsNash(m, p))
  {
    var u := m[p];
    Improves1Exact(m, o1, p.0, p.1, u.utility1);
    Improves2Exact(m, o2, p.0, p.1, u.utility2);
    var i1 := Improves1(m, o1, p.0, p.1, u.utility1).value;
    var i2 := Improves2(m, o2, p.0, p.1, u.utility2).value;
    if i1 {
      var k :| 0 <= k < |o1| && o1[k] != p.0 && m[(o1[k], p.1)].utility1 > u.utility1;
      assert o1[k] in Actions1(m);
    } else if i2 {
      var k :| 0 <= k < |o2| && o2[k] != p.1 && m[(p.0, o2[k])].utility2 > u.utility2;
      assert o2[k] in Actions2(m);
    } else {
      assert forall b :: b in Actions1(m) ==> exists k :: 0 <= k < |o1| && o1[k] == b;
      assert forall b :: b in Actions2(m) ==> exists k :: 0 <= k < |o2| && o2[k] == b;
    }
  }

  /** A pair the test passes is an equilibrium, whatever the matrix. */
  lemma NashCheckSound(m: map<Pair, GameOutcome>, o1: seq<string>, o2: seq<string>, p: Pair)
    requires Enumerates(o1, Actions1(m)) && Enumerates(o2, Actions2(m))
    requires NashCheck(m, o1, o2, p) == Some(true)
    ensures IsNash(m, p)
  {
    NoImprovement1(m, o1, p.0, p.1, m[p].utility1);
    NoImprovement2(m, o2, p.0, p.1, m[p].utility2);
  }

  lemma {:induction false} NashColsExact(m: map<Pair, GameOutcome>, o1: seq<string>, o2: seq<string>, a1: string, cols: seq<string>)
    requires Enumerates(o1, Actions1(m)) && Enumerates(o2, Actions2(m)) && Complete(m)
    requires a1 in Actions1(m) && Distinct(cols) && forall c :: c in cols ==> c in Actions2(m)
    ensures NashCols(m, o1, o2, a1, cols).Some?
    ensures forall p :: p in NashCols(m, o1, o2, a1, cols).value <==> p.0 == a1 && p.1 in cols && IsNash(m, p)
    ensures Distinct(NashCols(m, o1, o2, a1, cols).value)
    decreases |cols|
  {
    if cols != [] {
      var a2 := cols[|cols| - 1];
      var init := cols[..|cols| - 1];
      assert forall c :: c in cols <==> c in init || c == a2;
      NashColsExact(m, o1, o2, a1, init);
      NashCheckExact(m, o1, o2, (a1, a2));
      var s := NashCols(m, o1, o2, a1, init).value;
      assert a2 !in init;
      assert forall i :: 0 <= i < |s| ==> s[i] in s;
    }
  }

  lemma {:induction false} NashRowsExact(m: map<Pair, GameOutcome>, o1: seq<string>, o2: seq<string>, rows: seq<string>)
    requires Enumerates(o1, Actions1(m)) && Enumerates(o2, Actions2(m)) && Complete(m)
    requires Distinct(rows) && forall r :: r in rows ==> r in Actions1(m)
    ensures NashRows(m, o1, o2, rows).Some?
    ensures forall p :: p in NashRows(m, o1, o2, rows).value <==> p.0 in rows && IsNash(m, p)
    ensures Distinct(NashRows(m, o1, o2, rows).value)
    decreases |rows|
  {
    if rows != [] {
      var a1 := rows[|rows| - 1];
      var init := rows[..|rows| - 1];
      assert forall r :: r in rows <==> r in init || r == a1;
      NashRowsExact(m, o1, o2, init);
      NashColsExact(m, o1, o2, a1, o2);
      var s := NashRows(m, o1, o2, init).value;
      var t := NashCols(m, o1, o2, a1, o2).value;
      assert a1 !in init;
      assert forall i :: 0 <= i < |s| ==> s[i] in s;
      assert forall i :: 0 <= i < |t| ==> t[i] in t;
      forall p | p in NashRows(m, o1, o2, rows).value
        ensures IsNash(m, p)
      {
        assert p in s || p in t;
      }
    }
  }

  /**
   * On a complete matrix `find_nash_equilibrium` does not fail and returns
   * exactly the Nash equilibria, each once, whatever the iteration order.
   */
  lemma NashExact(m: map<Pair, GameOutcome>, o1: seq<string>, o2: seq<string>)
    requires Enumerates(o1, Actions1(m)) && Enumerates(o2, Actions2(m)) && Complete(m)
    ensures NashRows(m, o1, o2, o1).Some?
    ensures forall p :: p in NashRows(m, o1, o2, o1).value <==> IsNash(m, p)
    ensures Distinct(NashRows(m, o1, o2, o1).value)
  {
    NashRowsExact(m, o1, o2, o1);
    forall p | IsNash(m, p)
      ensures p.0 in o1
    {
      assert p.0 in Actions1(m);
    }
  }

  lemma {:induction false} NashColsSound(m: map<Pair, GameOutcome>, o1: seq<string>, o2: seq<string>, a1: string, cols: seq<string>)
    requires Enumerates(o1, Actions1(m)) && Enumerates(o2, Actions2(m))
    requires NashCols(m, o1, o2, a1, cols).Some?
    ensures forall p :: p in NashCols(m, o1, o2, a1, cols).value ==> IsNash(m, p)
    decreases |cols|
  {
    if cols != [] {
      var a2 := cols[|cols| - 1];
      NashColsSound(m, o1, o2, a1, cols[..|cols| - 1]);
      if NashCheck(m, o1, o2, (a1, a2)) == Some(true) {
        NashCheckSound(m, o1, o2, (a1, a2));
      }
    }
  }

  /** Every pair `find_nash_equilibrium` returns is an equilibrium, on any matrix. */
  lemma {:induction false} NashSound(m: map<Pair, GameOutcome>, o1: seq<string>, o2: seq<string>, rows: seq<string>)
    requires Enumerates(o1, Actions1(m)) && Enumerates(o2, Actions2(m))
    requires NashRows(m, o1, o2, rows).Some?
    ensures forall p :: p in NashRows(m, o1, o2, rows).value ==> IsNash(m, p)
    decreases |rows|
  {
    if rows != [] {
      NashSound(m, o1, o2, rows[..|rows| - 1]);
      NashColsSound(m, o1, o2, rows[|rows| - 1], o2);
    }
  }

  // ---------------------------------------------------------------------------------------------
  // Properties of the Pareto filter and of the welfare maximum.

  /** The filter keeps exactly the undominated keys. */
  lemma {:induction false} ParetoFilterMembers(m: map<Pair, GameOutcome>, ks: seq<Pair>)
    ensures forall s :: s in ParetoFilter(m, ks) <==> s in ks && IsParetoOptimal(m, s)
    decreases |ks|
  {
    if ks != [] {
      ParetoFilterMembers(m, ks[..|ks| - 1]);
      assert forall s :: s in ks <==> s in ks[..|ks| - 1] || s == ks[|ks| - 1];
    }
  }

  /** An outcome of maximal social welfare is never dominated: the welfare maximum is Pareto optimal. */
  lemma MaxWelfareIsParetoOptimal(m: map<Pair, GameOutcome>, ks: seq<Pair>, k: int)
    requires forall i :: 0 <= i < |ks| ==> ks[i] in m
    requires forall s :: s in m ==> s in ks
    requires IsFirstMaxWelfare(m, ks, k)
    ensures IsParetoOptimal(m, ks[k])
  {
    forall s2 | s2 in m && s2 != ks[k]
      ensures !Dominates(m[s2], m[ks[k]])
    {
      var j :| 0 <= j < |ks| && ks[j] == s2;
      assert m[ks[j]].SocialWelfare() <= m[ks[k]].SocialWelfare();
    }
  }

  // ---------------------------------------------------------------------------------------------

  /** The payoff dictionary: its keys in insertion order, and its contents. */
  datatype PayoffMatrix = PayoffMatrix(keys: seq<Pair>, outcomes: map<Pair, GameOutcome>)
  {
    ghost predicate Valid() {
      Distinct(keys) && forall p :: p in outcomes <==> p in keys
    }

    /**
     * Storing an outcome: a new pair is appended to the keys, an existing
     * one keeps its place and has its outcome overwritten.
     */
    function Add(p: Pair, o: GameOutcome): (r: PayoffMatrix)
      ensures p in r.outcomes && r.outcomes[p] == o
    {
      PayoffMatrix(if p in outcomes then keys else keys + [p], outcomes[p := o])
    }
  }

  const EMPTY_MATRIX := PayoffMatrix([], map[])

  /**
   * `add_outcome` keeps the dictionary well formed, stores or overwrites the
   * outcome of `p` and of no other pair, and keeps the insertion order: a new
   * pair goes last, an existing one keeps its place.
   */
  lemma AddStoresOrOverwrites(m: PayoffMatrix, p: Pair, o: GameOutcome)
    requires m.Valid()
    ensures m.Add(p, o).Valid()
    ensures forall q :: q != p ==> (q in m.Add(p, o).outcomes <==> q in m.outcomes)
    ensures forall q :: q != p && q in m.outcomes ==> m.Add(p, o).outcomes[q] == m.outcomes[q]
    ensures p in m.keys ==> m.Add(p, o).keys == m.keys
    ensures p !in m.keys ==> m.Add(p, o).keys == m.keys + [p]
  {
    var r := m.Add(p, o);
    if p !in m.keys {
      assert forall i :: 0 <= i < |m.keys| ==> r.keys[i] == m.keys[i];
    }
  }

  class TrafficGame {
    const name: string
    const player1Type: AgentType
    const player2Type: AgentType
    var matrix: PayoffMatrix
    var preferenceChain: seq<Pair>

    ghost predicate Valid()
      reads this`matrix
    {
      matrix.Valid()
    }

    constructor (name: string, player1Type: AgentType, player2Type: AgentType)
      ensures this.name == name && this.player1Type == player1Type && this.player2Type == player2Type
      ensures matrix == EMPTY_MATRIX && preferenceChain == []
      ensures Valid()
    {
      this.name := name;
      this.player1Type := player1Type;
      this.player2Type := player2Type;
      matrix := EMPTY_MATRIX;
      preferenceChain := [];
    }

    /** `get_outcome`: `None` for a pair never added. */
    function GetOutcome(action1: string, action2: string): (r: Option<GameOutcome>)
      requires Valid()
      reads this`matrix
      ensures r.None? <==> (action1, action2) !in matrix.keys
    {
      if (action1, action2) in matrix.outcomes then Some(matrix.outcomes[(action1, action2)]) else None
    }

    /** `add_outcome`. */
    method AddOutcome(action1: string, action2: string, outcome: GameOutcome)
      modifies this`matrix
      ensures matrix == old(matrix).Add((action1, action2), outcome)
      ensures old(Valid()) ==> Valid()
    {
      if Valid() {
        AddStoresOrOverwrites(matrix, (action1, action2), outcome);
      }
      matrix := matrix.Add((action1, action2), outcome);
    }

    method SetPreferenceChain(chain: seq<Pair>)
      modifies this`preferenceChain
      ensures preferenceChain == chain
    {
      preferenceChain := chain;
    }

    /**
     * `find_nash_equilibrium`, with `order1` and `order2` the iteration
     * orders of the two action sets.  `None` is the error raised when a
     * deviation is evaluated on a pair that is not in the matrix.
     */
    method FindNashEquilibrium(order1: seq<string>, order2: seq<string>) returns (r: Option<seq<Pair>>)
      requires Enumerates(order1, Actions1(matrix.outcomes)) && Enumerates(order2, Actions2(matrix.outcomes))
      ensures r == NashRows(matrix.outcomes, order1, order2, order1)
    {
      var equilibria := [];
      var i := 0;
      while i < |order1|
        invariant 0 <= i <= |order1|
        invariant NashRows(matrix.outcomes, order1, order2, order1[..i]) == Some(equilibria)
      {
        var a1 := order1[i];
        var row := [];
        var j := 0;
        while j < |order2|
          invariant 0 <= j <= |order2|
          invariant NashCols(matrix.outcomes, order1, order2, a1, order2[..j]) == Some(row)
        {
          var a2 := order2[j];
          assert order2[..j + 1][..j] == order2[..j] && order2[..j + 1][j] == a2;
          var check := NashCheck(matrix.outcomes, order1, order2, (a1, a2));
          if check.None? {
            assert order1[..i + 1][..i] == order1[..i];
            ColsFailureExtends(matrix.outcomes, order1, order2, a1, order2, j + 1);
            assert order2[..|order2|] == order2;
            RowsFailureExtends(matrix.outcomes, order1, order2, order1, i + 1);
            return None;
          }
          assert NashCols(matrix.outcomes, order1, order2, a1, order2[..j + 1])
              == Some(row + if check.value then [(a1, a2)] else []);
          if check.value {
            row := row + [(a1, a2)];
          } else {
            assert row + [] == row;
          }
          j := j + 1;
        }
        assert order2[..|order2|] == order2;
        assert order1[..i + 1][..i] == order1[..i];
        equilibria := equilibria + row;
        i := i + 1;
      }
      assert order1[..|order1|] == order1;
      r := Some(equilibria);
    }

    /** The inner loop of `find_pareto_optimal`: whether no other pair dominates `s1`. */
    method Undominated(s1: Pair) returns (isParetoOptimal: bool)
      requires Valid() && s1 in matrix.outcomes
      ensures isParetoOptimal == IsParetoOptimal(matrix.outcomes, s1)
    {
      var keys, payoff := matrix.keys, matrix.outcomes;
      var outcome1 := payoff[s1];
      isParetoOptimal := true;
      var j := 0;
      while j < |keys| && isParetoOptimal
        invariant 0 <= j <= |keys|
        invariant isParetoOptimal <==> forall l :: 0 <= l < j && keys[l] != s1 ==> !Dominates(payoff[keys[l]], outcome1)
      {
        if keys[j] != s1 && Dominates(payoff[keys[j]], outcome1) {
          isParetoOptimal := false;
        }
        j := j + 1;
      }
      if isParetoOptimal {
        forall s2 | s2 in payoff && s2 != s1
          ensures !Dominates(payoff[s2], outcome1)
        {
          var l :| 0 <= l < |keys| && keys[l] == s2;
        }
      }
    }

    /** `find_pareto_optimal`: the undominated pairs, in insertion order. */
    method FindParetoOptimal() returns (r: seq<Pair>)
      requires Valid()
      ensures r == ParetoFilter(matrix.outcomes, matrix.keys)
    {
      var keys := matrix.keys;
      r := [];
      var i := 0;
      while i < |keys|
        invariant 0 <= i <= |keys|
        invariant r == ParetoFilter(matrix.outcomes, keys[..i])
      {
        var s1 := keys[i];
        var isParetoOptimal := Undominated(s1);
        assert keys[..i + 1][..i] == keys[..i] && keys[..i + 1][i] == s1;
        if isParetoOptimal {
          r := r + [s1];
        }
        i := i + 1;
      }
      assert keys[..|keys|] == keys;
    }

    /**
     * `find_maximum_social_welfare`: the first pair of maximal welfare in
     * insertion order with that welfare, or `(None, -inf)` on an empty matrix.
     */
    method FindMaximumSocialWelfare() returns (best: Option<Pair>, maxWelfare: Welfare)
      requires Valid()
      ensures matrix.keys == [] ==> best == None && maxWelfare == NegInfinity
      ensures matrix.keys != [] ==> exists k :: && IsFirstMaxWelfare(matrix.outcomes, matrix.keys, k)
                                         && best == Some(matrix.keys[k])
                                         && maxWelfare == Finite(matrix.outcomes[matrix.keys[k]].SocialWelfare())
    {
      var keys, payoff := matrix.keys, matrix.outcomes;
      assert forall j :: 0 <= j < |keys| ==> keys[j] in payoff;
      best, maxWelfare := None, NegInfinity;
      ghost var k := 0;
      var i := 0;
      while i < |keys|
        invariant 0 <= i <= |keys|
        invariant i == 0 ==> best == None && maxWelfare == NegInfinity
        invariant i > 0 ==> && 0 <= k < i && best == Some(keys[k])
                            && maxWelfare == Finite(payoff[keys[k]].SocialWelfare())
                            && (forall j :: 0 <= j < i ==> payoff[keys[j]].SocialWelfare() <= maxWelfare.value)
                            && (forall j :: 0 <= j < k ==> payoff[keys[j]].SocialWelfare() < maxWelfare.value)
      {
        var welfare := payoff[keys[i]].SocialWelfare();
        if maxWelfare.NegInfinity? || welfare > maxWelfare.value {
          best, maxWelfare := Some(keys[i]), Finite(welfare);
          k := i;
        }
        i := i + 1;
      }
      assert keys != [] ==> IsFirstMaxWelfare(payoff, keys, k);
    }
  }

  /** Once a prefix of the inner scan has failed, the whole scan fails. */
  lemma {:induction false} ColsFailureExtends(m: map<Pair, GameOutcome>, o1: seq<string>, o2: seq<string>, a1: string, cols: seq<string>, n: nat)
    requires n <= |cols| && NashCols(m, o1, o2, a1, cols[..n]) == None
    ensures NashCols(m, o1, o2, a1, cols) == None
    decreases |cols| - n
  {
    if n == |cols| {
      assert cols[..n] == cols;
    } else {
      assert cols[..|cols| - 1][..n] == cols[..n];
      ColsFailureExtends(m, o1, o2, a1, cols[..|cols| - 1], n);
    }
  }

  /** Once a prefix of the outer scan has failed, the whole scan fails. */
  lemma {:induction false} RowsFailureExtends(m: map<Pair, GameOutcome>, o1: seq<string>, o2: seq<string>, rows: seq<string>, n: nat)
    requires n <= |rows| && NashRows(m, o1, o2, rows[..n]) == None
    ensures NashRows(m, o1, o2, rows) == None
    decreases |rows| - n
  {
    if n == |rows| {
      assert rows[..n] == rows;
    } else {
      assert rows[..|rows| - 1][..n] == rows[..n];
      RowsFailureExtends(m, o1, o2, rows[..|rows| - 1], n);
    }
  }
}
