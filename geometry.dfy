/** Points of the 3-D city scene, as exact rationals. Index 0 is `x`, 1 is `y` (height), 2 is `z`. */
module Geometry {
  datatype Vec3 = Vec3(x: real, y: real, z: real)

  function Abs(a: real): real { if a < 0.0 then -a else a }

  /** Squared distance in the ground plane (x, z); comparing it with r*r stands for comparing the distance with r. */
  function GroundDistSq(a: Vec3, b: Vec3): real {
    (b.x - a.x) * (b.x - a.x) + (b.z - a.z) * (b.z - a.z)
  }

  /**
   * `(mx, mz)` is the step `(dx / d * speed, dz / d * speed)` from `from` toward
   * `to`, with `d` the ground distance: it has length `speed`, is parallel to
   * `(dx, dz)` and points the same way.  These three facts fix the step uniquely.
   */
  predicate IsSpeedStep(from: Vec3, to: Vec3, speed: real, mx: real, mz: real) {
    var dx := to.x - from.x;
    var dz := to.z - from.z;
    && mx * mx + mz * mz == speed * speed
    && mx * dz == mz * dx
    && mx * dx >= 0.0 && mz * dz >= 0.0
  }
}

module GeometryLemmas {
  import opened Geometry

  /**
   * A full `speed` step toward a waypoint at least `speed` away brings the point
   * closer: the squared ground distance drops by at least `speed * speed`.
   */
  lemma SpeedStepApproaches(from: Vec3, to: Vec3, speed: real, mx: real, mz: real)
    requires speed > 0.0
    requires GroundDistSq(from, to) >= speed * speed
    requires IsSpeedStep(from, to, speed, mx, mz)
    ensures GroundDistSq(Vec3(from.x + mx, from.y, from.z + mz), to) <= GroundDistSq(from, to) - speed * speed
  {
    var dx, dz := to.x - from.x, to.z - from.z;
    var d2 := dx * dx + dz * dz;
    var p := mx * dx + mz * dz;
    // parallel vectors: (mx dx + mz dz)^2 == (mx^2 + mz^2)(dx^2 + dz^2)
    assert p * p - (mx * mx + mz * mz) * d2 == -((mx * dz - mz * dx) * (mx * dz - mz * dx));
    assert p * p == speed * speed * d2;
    assert p >= 0.0;
    var s2 := speed * speed;
    MulStrict(speed, speed, 0.0);
    MulMonotone(s2, d2, s2);
    assert p * p >= s2 * s2;
    SquareMonotone(p, s2);
    calc {
      GroundDistSq(Vec3(from.x + mx, from.y, from.z + mz), to);
      (dx - mx) * (dx - mx) + (dz - mz) * (dz - mz);
      d2 - 2.0 * p + (mx * mx + mz * mz);
      d2 - 2.0 * p + speed * speed;
    }
  }

  lemma SquareMonotone(x: real, y: real)
    requires x >= 0.0 && y >= 0.0 && x * x >= y * y
    ensures x >= y
  {
    if x < y {
      assert y * y - x * x == (y - x) * (y + x);
      MulStrict(y - x, y + x, 0.0);
    }
  }

  lemma MulMonotone(a: real, b: real, c: real)
    requires a >= 0.0 && b >= c
    ensures a * b >= a * c
  {
    assert a * b - a * c == a * (b - c);
  }

  lemma MulStrict(a: real, b: real, c: real)
    requires a > 0.0 && b > c
    ensures a * b > a * c
  {
    assert a * b - a * c == a * (b - c);
  }
}
