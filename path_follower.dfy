/**
 * The path-following car of the integrated OpenGL simulation
 * (act_integ/agentes.py).  It spawns on one of the four sides of the
 * crossing with a path number, and each step it accelerates up to the
 * maximum of its vehicle type and advances along z, turning right (path 2)
 * or left (path 3) once it reaches z = 100.  The vehicle type is `AUTO` of
 * m4/vehicles.py; the model file and the drawing are left out.
 */
module PathFollower {
  import opened Geometry
  import opened Kinematics

  /** `AUTO`: maximum speed and acceleration. */
  const MAX_SPEED: real := 0.5
  const ACCELERATION: real := 0.01
  /** The z at which paths 2 and 3 turn. */
  const TURN_Z: real := 100.0

  datatype SpawnSide = Left | Right | Top | Bottom

  /**
   * `assign_spawn_point` for the side drawn; `turn` is the draw from `[2, 3]`,
   * used only by the side spawns.  Side spawns start 140 out on x and get a
   * turning path; top and bottom spawns start 135 out on z and go straight.
   */
  function SpawnPoint(side: SpawnSide, turn: int): (r: (Vec3, int))
    requires turn == 2 || turn == 3
    ensures r.0.y == 0.0
    ensures (side == Left || side == Right) ==> r.1 == turn && Abs(r.0.x) == 140.0
    ensures (side == Top || side == Bottom) ==> r.1 == 1 && Abs(r.0.z) == 135.0
    ensures r.1 == 1 || r.1 == 2 || r.1 == 3
  {
    match side
    case Left => (Vec3(-140.0, 0.0, 5.0), turn)
    case Right => (Vec3(140.0, 0.0, -10.0), turn)
    case Bottom => (Vec3(-57.0, 0.0, 135.0), 1)
    case Top => (Vec3(63.0, 0.0, -135.0), 1)
  }

  /**
   * The position after one `move_along_path` at the (already updated) speed:
   * path 1 only advances z; paths 2 and 3 advance z until z reaches 100 and
   * then hold z and move x right or left; any other path number stays put.
   */
  function NextPosition(p: Vec3, pathId: int, speed: real): (r: Vec3)
    ensures r.y == p.y
    ensures speed >= 0.0 ==> r.z >= p.z
    ensures pathId == 1 ==> r.x == p.x && r.z == p.z + speed
    ensures (pathId == 2 || pathId == 3) && p.z < TURN_Z ==> r.x == p.x && r.z == p.z + speed
    ensures pathId == 2 && p.z >= TURN_Z ==> r.z == p.z && r.x == p.x + speed
    ensures pathId == 3 && p.z >= TURN_Z ==> r.z == p.z && r.x == p.x - speed
    ensures pathId != 1 && pathId != 2 && pathId != 3 ==> r == p
  {
    if pathId == 1 then Vec3(p.x, p.y, p.z + speed)
    else if pathId == 2 then
      if p.z < TURN_Z then Vec3(p.x, p.y, p.z + speed) else Vec3(p.x + speed, p.y, p.z)
    else if pathId == 3 then
      if p.z < TURN_Z then Vec3(p.x, p.y, p.z + speed) else Vec3(p.x - speed, p.y, p.z)
    else p
  }

  /** Position and speed after `n` steps from `p` at speed `s`. */
  function Run(p: Vec3, pathId: int, s: real, n: nat): (Vec3, real)
    decreases n
  {
    if n == 0 then (p, s)
    else
      var s1 := Accelerate(s, ACCELERATION, MAX_SPEED);
      Run(NextPosition(p, pathId, s1), pathId, s1, n - 1)
  }

  class VehicleAgent {
    var speed: real
    var position: Vec3
    var pathId: int

    /** `setup`: initial speed 0.5, then the spawn point for the draws `side` and `turn`. */
    constructor (side: SpawnSide, turn: int)
      requires turn == 2 || turn == 3
      ensures speed == MAX_SPEED && (position, pathId) == SpawnPoint(side, turn)
    {
      speed := 0.5;
      new;
      AssignSpawnPoint(side, turn);
    }

    method AssignSpawnPoint(side: SpawnSide, turn: int)
      requires turn == 2 || turn == 3
      modifies this`position, this`pathId
      ensures (position, pathId) == SpawnPoint(side, turn)
    {
      if side == Left {
        position := Vec3(-140.0, 0.0, 5.0);
        pathId := turn;
      } else if side == Right {
        position := Vec3(140.0, 0.0, -10.0);
        pathId := turn;
      } else if side == Bottom {
        position := Vec3(-57.0, 0.0, 135.0);
        pathId := 1;
      } else {
        position := Vec3(63.0, 0.0, -135.0);
        pathId := 1;
      }
    }

    /** `move_along_path`: accelerate, then advance by the new speed. */
    method MoveAlongPath()
      modifies this`speed, this`position
      ensures speed == Accelerate(old(speed), ACCELERATION, MAX_SPEED)
      ensures position == NextPosition(old(position), pathId, speed)
    {
      speed := Accelerate(speed, ACCELERATION, MAX_SPEED);
      if pathId == 1 {
        position := position.(z := position.z + speed);
      } else if pathId == 2 {
        if position.z < 100.0 {
          position := position.(z := position.z + speed);
        } else {
          position := position.(x := position.x + speed);
        }
      } else if pathId == 3 {
        if position.z < 100.0 {
          position := position.(z := position.z + speed);
        } else {
          position := position.(x := position.x - speed);
        }
      }
    }

    /** `step`: one step of `Run`. */
    method Step()
      modifies this`speed, this`position
      ensures (position, speed) == Run(old(position), pathId, old(speed), 1)
    {
      MoveAlongPath();
    }
  }

  /** From a speed in `[0, max]`, the speed never decreases and never passes the maximum. */
  lemma {:induction false} RunSpeedStaysInRange(p: Vec3, pathId: int, s: real, n: nat)
    requires 0.0 <= s <= MAX_SPEED
    ensures s <= Run(p, pathId, s, n).1 <= MAX_SPEED
    decreases n
  {
    if n > 0 {
      var s1 := Accelerate(s, ACCELERATION, MAX_SPEED);
      RunSpeedStaysInRange(NextPosition(p, pathId, s1), pathId, s1, n - 1);
    }
  }

  /** With a speed in `[0, max]`, z never decreases on any path, and height never changes. */
  lemma {:induction false} RunNeverGoesBack(p: Vec3, pathId: int, s: real, n: nat)
    requires 0.0 <= s <= MAX_SPEED
    ensures Run(p, pathId, s, n).0.z >= p.z && Run(p, pathId, s, n).0.y == p.y
    decreases n
  {
    if n > 0 {
      var s1 := Accelerate(s, ACCELERATION, MAX_SPEED);
      RunNeverGoesBack(NextPosition(p, pathId, s1), pathId, s1, n - 1);
    }
  }

  /**
   * On a turning path, once z has reached 100 it is fixed for good; before
   * that it overshoots 100 by less than one step of the top speed.
   */
  lemma {:induction false} TurnedStaysTurned(p: Vec3, pathId: int, s: real, n: nat)
    requires pathId == 2 || pathId == 3
    requires 0.0 <= s <= MAX_SPEED
    ensures p.z >= TURN_Z ==> Run(p, pathId, s, n).0.z == p.z
    ensures p.z < TURN_Z ==> Run(p, pathId, s, n).0.z < TURN_Z + MAX_SPEED
    decreases n
  {
    if n > 0 {
      var s1 := Accelerate(s, ACCELERATION, MAX_SPEED);
      TurnedStaysTurned(NextPosition(p, pathId, s1), pathId, s1, n - 1);
    }
  }

  /** Every spawn point sits on a valid path and, at the initial speed, only moves forward in z. */
  lemma SpawnRunsForward(side: SpawnSide, turn: int, n: nat)
    requires turn == 2 || turn == 3
    ensures var (p, id) := SpawnPoint(side, turn);
            Run(p, id, MAX_SPEED, n).0.z >= p.z && Run(p, id, MAX_SPEED, n).1 == MAX_SPEED
  {
    var (p, id) := SpawnPoint(side, turn);
    RunNeverGoesBack(p, id, MAX_SPEED, n);
    RunSpeedStaysInRange(p, id, MAX_SPEED, n);
  }
}
