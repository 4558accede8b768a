/**
 * The four traffic games of act_integ/models/game_theory.py, built by
 * successive `add_outcome` calls, and what their analyses give.
 */
module GameCatalog {
  import opened GameTheory

  // The payoff matrices, built by the `add_outcome` calls in their order.

  const VEHICLE_GAME := EMPTY_MATRIX
    .Add(("proceed", "proceed"), GameOutcome("Collision", -10.0, -10.0))
    .Add(("proceed", "yield"), GameOutcome("First vehicle passes", 5.0, 2.0))
    .Add(("yield", "proceed"), GameOutcome("Second vehicle passes", 2.0, 5.0))
    .Add(("yield", "yield"), GameOutcome("Deadlock", 0.0, 0.0))

  const PEDESTRIAN_VEHICLE_GAME := EMPTY_MATRIX
    .Add(("cross", "proceed"), GameOutcome("Collision risk", -15.0, -10.0))
    .Add(("cross", "brake"), GameOutcome("Safe pedestrian crossing", 5.0, -1.0))
    .Add(("stop", "proceed"), GameOutcome("Vehicle passes first", 2.0, 5.0))
    .Add(("stop", "brake"), GameOutcome("Unnecessary stop", 0.0, -2.0))

  const EMERGENCY_GAME := EMPTY_MATRIX
    .Add(("run_light", "stay_red"), GameOutcome("Running red light", -5.0, -8.0))
    .Add(("run_light", "change_green"), GameOutcome("Light changes just in time", 5.0, 5.0))
    .Add(("wait", "stay_red"), GameOutcome("Continued waiting", -3.0, 2.0))
    .Add(("wait", "change_green"), GameOutcome("Normal operation", 3.0, 3.0))

  const LIGHT_REQUEST_GAME := EMPTY_MATRIX
    .Add(("request", "respond"), GameOutcome("Proper crossing", 5.0, 5.0))
    .Add(("request", "ignore"), GameOutcome("Frustrated waiting", -2.0, 2.0))
    .Add(("jaywalk", "respond"), GameOutcome("Unnecessary light change", 2.0, -1.0))
    .Add(("jaywalk", "ignore"), GameOutcome("Unsafe crossing", -5.0, -5.0))

  /** `create_vehicle_intersection_game`. */
  method CreateVehicleIntersectionGame() returns (game: TrafficGame)
    ensures fresh(game) && game.Valid()
    ensures game.name == "Vehicle Intersection" && game.player1Type == Vehicle && game.player2Type == Vehicle
    ensures game.matrix == VEHICLE_GAME
    ensures game.preferenceChain == [("yield", "proceed"), ("proceed", "yield"), ("yield", "yield"), ("proceed", "proceed")]
  {
    game := new TrafficGame("Vehicle Intersection", Vehicle, Vehicle);
    game.AddOutcome("proceed", "proceed", GameOutcome("Collision", -10.0, -10.0));
    game.AddOutcome("proceed", "yield", GameOutcome("First vehicle passes", 5.0, 2.0));
    game.AddOutcome("yield", "proceed", GameOutcome("Second vehicle passes", 2.0, 5.0));
    game.AddOutcome("yield", "yield", GameOutcome("Deadlock", 0.0, 0.0));
    game.SetPreferenceChain([("yield", "proceed"), ("proceed", "yield"), ("yield", "yield"), ("proceed", "proceed")]);
  }

  /** `create_pedestrian_vehicle_game`. */
  method CreatePedestrianVehicleGame() returns (game: TrafficGame)
    ensures fresh(game) && game.Valid()
    ensures game.name == "Pedestrian Crossing" && game.player1Type == Pedestrian && game.player2Type == Vehicle
    ensures game.matrix == PEDESTRIAN_VEHICLE_GAME
    ensures game.preferenceChain == [("stop", "proceed"), ("cross", "brake"), ("stop", "brake"), ("cross", "proceed")]
  {
    game := new TrafficGame("Pedestrian Crossing", Pedestrian, Vehicle);
    game.AddOutcome("cross", "proceed", GameOutcome("Collision risk", -15.0, -10.0));
    game.AddOutcome("cross", "brake", GameOutcome("Safe pedestrian crossing", 5.0, -1.0));
    game.AddOutcome("stop", "proceed", GameOutcome("Vehicle passes first", 2.0, 5.0));
    game.AddOutcome("stop", "brake", GameOutcome("Unnecessary stop", 0.0, -2.0));
    game.SetPreferenceChain([("stop", "proceed"), ("cross", "brake"), ("stop", "brake"), ("cross", "proceed")]);
  }

  /** `create_emergency_red_light_game`. */
  method CreateEmergencyRedLightGame() returns (game: TrafficGame)
    ensures fresh(game) && game.Valid()
    ensures game.name == "Emergency at Red Light" && game.player1Type == Vehicle && game.player2Type == TrafficLight
    ensures game.matrix == EMERGENCY_GAME
    ensures game.preferenceChain == [("wait", "change_green"), ("run_light", "change_green"), ("wait", "stay_red"), ("run_light", "stay_red")]
  {
    game := new TrafficGame("Emergency at Red Light", Vehicle, TrafficLight);
    game.AddOutcome("run_light", "stay_red", GameOutcome("Running red light", -5.0, -8.0));
    game.AddOutcome("run_light", "change_green", GameOutcome("Light changes just in time", 5.0, 5.0));
    game.AddOutcome("wait", "stay_red", GameOutcome("Continued waiting", -3.0, 2.0));
    game.AddOutcome("wait", "change_green", GameOutcome("Normal operation", 3.0, 3.0));
    game.SetPreferenceChain([("wait", "change_green"), ("run_light", "change_green"), ("wait", "stay_red"), ("run_light", "stay_red")]);
  }

  /** `create_pedestrian_light_request_game`. */
  method CreatePedestrianLightRequestGame() returns (game: TrafficGame)
    ensures fresh(game) && game.Valid()
    ensures game.name == "Pedestrian Light Request" && game.player1Type == Pedestrian && game.player2Type == TrafficLight
    ensures game.matrix == LIGHT_REQUEST_GAME
    ensures game.preferenceChain == [("request", "respond"), ("request", "ignore"), ("jaywalk", "respond"), ("jaywalk", "ignore")]
  {
    game := new TrafficGame("Pedestrian Light Request", Pedestrian, TrafficLight);
    game.AddOutcome("request", "respond", GameOutcome("Proper crossing", 5.0, 5.0));
    game.AddOutcome("request", "ignore", GameOutcome("Frustrated waiting", -2.0, 2.0));
    game.AddOutcome("jaywalk", "respond", GameOutcome("Unnecessary light change", 2.0, -1.0));
    game.AddOutcome("jaywalk", "ignore", GameOutcome("Unsafe crossing", -5.0, -5.0));
    game.SetPreferenceChain([("request", "respond"), ("request", "ignore"), ("jaywalk", "respond"), ("jaywalk", "ignore")]);
  }

  /** A two-by-two matrix has the two rows and the two columns as action sets, and is complete. */
  lemma TwoByTwoActions(m: map<Pair, GameOutcome>, a: string, b: string, c: string, d: string)
    requires a != b && c != d
    requires forall p :: p in m <==> p == (a, c) || p == (a, d) || p == (b, c) || p == (b, d)
    ensures Actions1(m) == {a, b} && Actions2(m) == {c, d} && Complete(m)
  {
    assert (a, c) in m && (b, d) in m;
    assert forall x :: x in Actions1(m) ==> x == a || x == b;
    assert forall x :: x in Actions2(m) ==> x == c || x == d;
  }

  /** In a complete two-by-two game each player has exactly one deviation: the other row or column. */
  lemma TwoByTwoDeviations(m: map<Pair, GameOutcome>, a: string, b: string, c: string, d: string)
    requires a != b && c != d
    requires forall p :: p in m <==> p == (a, c) || p == (a, d) || p == (b, c) || p == (b, d)
    ensures forall p :: p in m ==>
                        (IsNash(m, p) <==>
                           && m[(if p.0 == a then b else a, p.1)].utility1 <= m[p].utility1
                           && m[(p.0, if p.1 == c then d else c)].utility2 <= m[p].utility2)
  {
    TwoByTwoActions(m, a, b, c, d);
    forall p | p in m
      ensures IsNash(m, p) <==>
              && m[(if p.0 == a then b else a, p.1)].utility1 <= m[p].utility1
              && m[(p.0, if p.1 == c then d else c)].utility2 <= m[p].utility2
    {
      var r := if p.0 == a then b else a;
      var q := if p.1 == c then d else c;
      assert forall x :: x in Actions1(m) && x != p.0 ==> x == r;
      assert forall x :: x in Actions2(m) && x != p.1 ==> x == q;
    }
  }

  /**
   * In a complete two-by-two game a pair is an equilibrium exactly when
   * neither the other row nor the other column is strictly better for the
   * deviating player.
   */
  lemma TwoByTwo(m: map<Pair, GameOutcome>, a: string, b: string, c: string, d: string)
    requires a != b && c != d
    requires forall p :: p in m <==> p == (a, c) || p == (a, d) || p == (b, c) || p == (b, d)
    ensures Actions1(m) == {a, b} && Actions2(m) == {c, d} && Complete(m)
    ensures forall p :: IsNash(m, p) <==>
      || (p == (a, c) && m[(b, c)].utility1 <= m[(a, c)].utility1 && m[(a, d)].utility2 <= m[(a, c)].utility2)
      || (p == (a, d) && m[(b, d)].utility1 <= m[(a, d)].utility1 && m[(a, c)].utility2 <= m[(a, d)].utility2)
      || (p == (b, c) && m[(a, c)].utility1 <= m[(b, c)].utility1 && m[(b, d)].utility2 <= m[(b, c)].utility2)
      || (p == (b, d) && m[(a, d)].utility1 <= m[(b, d)].utility1 && m[(b, c)].utility2 <= m[(b, d)].utility2)
  {
    TwoByTwoActions(m, a, b, c, d);
    TwoByTwoDeviations(m, a, b, c, d);
    forall p
      ensures IsNash(m, p) <==>
        || (p == (a, c) && m[(b, c)].utility1 <= m[(a, c)].utility1 && m[(a, d)].utility2 <= m[(a, c)].utility2)
        || (p == (a, d) && m[(b, d)].utility1 <= m[(a, d)].utility1 && m[(a, c)].utility2 <= m[(a, d)].utility2)
        || (p == (b, c) && m[(a, c)].utility1 <= m[(b, c)].utility1 && m[(b, d)].utility2 <= m[(b, c)].utility2)
        || (p == (b, d) && m[(a, d)].utility1 <= m[(b, d)].utility1 && m[(b, c)].utility2 <= m[(b, d)].utility2)
    {
      if p !in m {
        assert !IsNash(m, p);
      }
    }
  }

  const VEHICLE_KEYS: seq<Pair> := [("proceed", "proceed"), ("proceed", "yield"), ("yield", "proceed"), ("yield", "yield")]
  const VEHICLE_OUTCOMES: map<Pair, GameOutcome> := map[
    ("proceed", "proceed") := GameOutcome("Collision", -10.0, -10.0),
    ("proceed", "yield") := GameOutcome("First vehicle passes", 5.0, 2.0),
    ("yield", "proceed") := GameOutcome("Second vehicle passes", 2.0, 5.0),
    ("yield", "yield") := GameOutcome("Deadlock", 0.0, 0.0)]

  const PEDESTRIAN_VEHICLE_KEYS: seq<Pair> := [("cross", "proceed"), ("cross", "brake"), ("stop", "proceed"), ("stop", "brake")]
  const PEDESTRIAN_VEHICLE_OUTCOMES: map<Pair, GameOutcome> := map[
    ("cross", "proceed") := GameOutcome("Collision risk", -15.0, -10.0),
    ("cross", "brake") := GameOutcome("Safe pedestrian crossing", 5.0, -1.0),
    ("stop", "proceed") := GameOutcome("Vehicle passes first", 2.0, 5.0),
    ("stop", "brake") := GameOutcome("Unnecessary stop", 0.0, -2.0)]

  const EMERGENCY_KEYS: seq<Pair> := [("run_light", "stay_red"), ("run_light", "change_green"), ("wait", "stay_red"), ("wait", "change_green")]
  const EMERGENCY_OUTCOMES: map<Pair, GameOutcome> := map[
    ("run_light", "stay_red") := GameOutcome("Running red light", -5.0, -8.0),
    ("run_light", "change_green") := GameOutcome("Light changes just in time", 5.0, 5.0),
    ("wait", "stay_red") := GameOutcome("Continued waiting", -3.0, 2.0),
    ("wait", "change_green") := GameOutcome("Normal operation", 3.0, 3.0)]

  const LIGHT_REQUEST_KEYS: seq<Pair> := [("request", "respond"), ("request", "ignore"), ("jaywalk", "respond"), ("jaywalk", "ignore")]
  const LIGHT_REQUEST_OUTCOMES: map<Pair, GameOutcome> := map[
    ("request", "respond") := GameOutcome("Proper crossing", 5.0, 5.0),
    ("request", "ignore") := GameOutcome("Frustrated waiting", -2.0, 2.0),
    ("jaywalk", "respond") := GameOutcome("Unnecessary light change", 2.0, -1.0),
    ("jaywalk", "ignore") := GameOutcome("Unsafe crossing", -5.0, -5.0)]

  /** The vehicle-intersection matrix holds the four added pairs, in the order they were added. */
  lemma VehicleGameContents()
    ensures VEHICLE_GAME == PayoffMatrix(VEHICLE_KEYS, VEHICLE_OUTCOMES) && VEHICLE_GAME.Valid()
  {
  }

  /** The vehicle-intersection game: whatever the set iteration order, its Nash equilibria are exactly (proceed, yield) and (yield, proceed). */
  lemma VehicleGameEquilibria(o1: seq<string>, o2: seq<string>)
    requires Enumerates(o1, Actions1(VEHICLE_GAME.outcomes)) && Enumerates(o2, Actions2(VEHICLE_GAME.outcomes))
    ensures NashRows(VEHICLE_GAME.outcomes, o1, o2, o1).Some?
    ensures forall p :: p in NashRows(VEHICLE_GAME.outcomes, o1, o2, o1).value <==> p == ("proceed", "yield") || p == ("yield", "proceed")
  {
    VehicleGameContents();
    TwoByTwo(VEHICLE_OUTCOMES, "proceed", "yield", "proceed", "yield");
    NashExact(VEHICLE_OUTCOMES, o1, o2);
  }

  /** The vehicle-intersection game's maximal social welfare is 7, first reached at (proceed, yield). */
  lemma VehicleGameMaxWelfare(k: int)
    requires IsFirstMaxWelfare(VEHICLE_GAME.outcomes, VEHICLE_GAME.keys, k)
    ensures VEHICLE_GAME.keys[k] == ("proceed", "yield")
    ensures VEHICLE_GAME.outcomes[VEHICLE_GAME.keys[k]].SocialWelfare() == 7.0
  {
    VehicleGameContents();
    var ks, m := VEHICLE_KEYS, VEHICLE_OUTCOMES;
    assert m[ks[0]].SocialWelfare() == -20.0 && m[ks[1]].SocialWelfare() == 7.0;
    assert m[ks[2]].SocialWelfare() == 7.0 && m[ks[3]].SocialWelfare() == 0.0;
  }

  /** The pedestrian-crossing matrix holds the four added pairs, in the order they were added. */
  lemma PedestrianVehicleGameContents()
    ensures PEDESTRIAN_VEHICLE_GAME == PayoffMatrix(PEDESTRIAN_VEHICLE_KEYS, PEDESTRIAN_VEHICLE_OUTCOMES) && PEDESTRIAN_VEHICLE_GAME.Valid()
  {
  }

  /** The pedestrian-crossing game: whatever the set iteration order, its Nash equilibria are exactly (cross, brake) and (stop, proceed). */
  lemma PedestrianVehicleGameEquilibria(o1: seq<string>, o2: seq<string>)
    requires Enumerates(o1, Actions1(PEDESTRIAN_VEHICLE_GAME.outcomes)) && Enumerates(o2, Actions2(PEDESTRIAN_VEHICLE_GAME.outcomes))
    ensures NashRows(PEDESTRIAN_VEHICLE_GAME.outcomes, o1, o2, o1).Some?
    ensures forall p :: p in NashRows(PEDESTRIAN_VEHICLE_GAME.outcomes, o1, o2, o1).value <==> p == ("cross", "brake") || p == ("stop", "proceed")
  {
    PedestrianVehicleGameContents();
    TwoByTwo(PEDESTRIAN_VEHICLE_OUTCOMES, "cross", "stop", "proceed", "brake");
    NashExact(PEDESTRIAN_VEHICLE_OUTCOMES, o1, o2);
  }

  /** The pedestrian-crossing game's maximal social welfare is 7, first reached at (stop, proceed). */
  lemma PedestrianVehicleGameMaxWelfare(k: int)
    requires IsFirstMaxWelfare(PEDESTRIAN_VEHICLE_GAME.outcomes, PEDESTRIAN_VEHICLE_GAME.keys, k)
    ensures PEDESTRIAN_VEHICLE_GAME.keys[k] == ("stop", "proceed")
    ensures PEDESTRIAN_VEHICLE_GAME.outcomes[PEDESTRIAN_VEHICLE_GAME.keys[k]].SocialWelfare() == 7.0
  {
    PedestrianVehicleGameContents();
    var ks, m := PEDESTRIAN_VEHICLE_KEYS, PEDESTRIAN_VEHICLE_OUTCOMES;
    assert m[ks[0]].SocialWelfare() == -25.0 && m[ks[1]].SocialWelfare() == 4.0;
    assert m[ks[2]].SocialWelfare() == 7.0 && m[ks[3]].SocialWelfare() == -2.0;
  }

  /** The emergency red-light matrix holds the four added pairs, in the order they were added. */
  lemma EmergencyGameContents()
    ensures EMERGENCY_GAME == PayoffMatrix(EMERGENCY_KEYS, EMERGENCY_OUTCOMES) && EMERGENCY_GAME.Valid()
  {
  }

  /** The emergency red-light game: whatever the set iteration order, its Nash equilibria are exactly (run_light, change_green). */
  lemma EmergencyGameEquilibria(o1: seq<string>, o2: seq<string>)
    requires Enumerates(o1, Actions1(EMERGENCY_GAME.outcomes)) && Enumerates(o2, Actions2(EMERGENCY_GAME.outcomes))
    ensures NashRows(EMERGENCY_GAME.outcomes, o1, o2, o1).Some?
    ensures forall p :: p in NashRows(EMERGENCY_GAME.outcomes, o1, o2, o1).value <==> p == ("run_light", "change_green")
  {
    EmergencyGameContents();
    TwoByTwo(EMERGENCY_OUTCOMES, "run_light", "wait", "stay_red", "change_green");
    NashExact(EMERGENCY_OUTCOMES, o1, o2);
  }

  /** The emergency red-light game's maximal social welfare is 10, first reached at (run_light, change_green). */
  lemma EmergencyGameMaxWelfare(k: int)
    requires IsFirstMaxWelfare(EMERGENCY_GAME.outcomes, EMERGENCY_GAME.keys, k)
    ensures EMERGENCY_GAME.keys[k] == ("run_light", "change_green")
    ensures EMERGENCY_GAME.outcomes[EMERGENCY_GAME.keys[k]].SocialWelfare() == 10.0
  {
    EmergencyGameContents();
    var ks, m := EMERGENCY_KEYS, EMERGENCY_OUTCOMES;
    assert m[ks[0]].SocialWelfare() == -13.0 && m[ks[1]].SocialWelfare() == 10.0;
    assert m[ks[2]].SocialWelfare() == -1.0 && m[ks[3]].SocialWelfare() == 6.0;
  }

  /** The pedestrian light-request matrix holds the four added pairs, in the order they were added. */
  lemma LightRequestGameContents()
    ensures LIGHT_REQUEST_GAME == PayoffMatrix(LIGHT_REQUEST_KEYS, LIGHT_REQUEST_OUTCOMES) && LIGHT_REQUEST_GAME.Valid()
  {
  }

  /** The pedestrian light-request game: whatever the set iteration order, its Nash equilibria are exactly (request, respond). */
  lemma LightRequestGameEquilibria(o1: seq<string>, o2: seq<string>)
    requires Enumerates(o1, Actions1(LIGHT_REQUEST_GAME.outcomes)) && Enumerates(o2, Actions2(LIGHT_REQUEST_GAME.outcomes))
    ensures NashRows(LIGHT_REQUEST_GAME.outcomes, o1, o2, o1).Some?
    ensures forall p :: p in NashRows(LIGHT_REQUEST_GAME.outcomes, o1, o2, o1).value <==> p == ("request", "respond")
  {
    LightRequestGameContents();
    TwoByTwo(LIGHT_REQUEST_OUTCOMES, "request", "jaywalk", "respond", "ignore");
    NashExact(LIGHT_REQUEST_OUTCOMES, o1, o2);
  }

  /** The pedestrian light-request game's maximal social welfare is 10, first reached at (request, respond). */
  lemma LightRequestGameMaxWelfare(k: int)
    requires IsFirstMaxWelfare(LIGHT_REQUEST_GAME.outcomes, LIGHT_REQUEST_GAME.keys, k)
    ensures LIGHT_REQUEST_GAME.keys[k] == ("request", "respond")
    ensures LIGHT_REQUEST_GAME.outcomes[LIGHT_REQUEST_GAME.keys[k]].SocialWelfare() == 10.0
  {
    LightRequestGameContents();
    var ks, m := LIGHT_REQUEST_KEYS, LIGHT_REQUEST_OUTCOMES;
    assert m[ks[0]].SocialWelfare() == 10.0 && m[ks[1]].SocialWelfare() == 0.0;
    assert m[ks[2]].SocialWelfare() == 1.0 && m[ks[3]].SocialWelfare() == -10.0;
  }
}
