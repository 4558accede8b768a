/**
 * The stop block of the 3-D city (act_integ/objects/stop_block.py): an
 * axis-aligned rectangle in the ground plane whose `active` flag follows the
 * light it is synchronised with.
 */
module StopGate {
  import opened Geometry
  import CycleLight

  class StopBlock {
    const x: real
    const z: real
    const width: real
    const depth: real
    const direction: CycleLight.Axis
    var active: bool
    var visible: bool

    /** A new block is active (vehicles stop) and not drawn. */
    constructor (x: real, z: real, width: real, depth: real, direction: CycleLight.Axis)
      ensures this.x == x && this.z == z && this.width == width && this.depth == depth
      ensures this.direction == direction
      ensures active && !visible
    {
      this.x, this.z, this.width, this.depth := x, z, width, depth;
      this.direction := direction;
      active := true;
      visible := false;
    }

    /** `update`: `active` becomes exactly the light's `is_red`. */
    method Update(light: CycleLight.TrafficLight)
      modifies this`active
      ensures active == light.IsRed()
    {
      active := light.IsRed();
    }

    /**
     * `is_colliding`: the closed rectangle test on x (index 0) and z (index 2);
     * the height (index 1) and the `active` flag are not consulted.
     */
    predicate IsColliding(p: Vec3) {
      x - width / 2.0 <= p.x <= x + width / 2.0 && z - depth / 2.0 <= p.z <= z + depth / 2.0
    }
  }

  /** Synchronising twice with the same light state gives the same flag. */
  method UpdateTwice(b: StopBlock, light: CycleLight.TrafficLight)
    modifies b`active
    ensures b.active == light.IsRed()
  {
    b.Update(light);
    var first := b.active;
    b.Update(light);
    assert b.active == first;
  }

  /** The centre and the four corners collide when the extents are non-negative; the height never matters. */
  lemma CentreAndCornersCollide(b: StopBlock, y: real)
    requires b.width >= 0.0 && b.depth >= 0.0
    ensures b.IsColliding(Vec3(b.x, y, b.z))
    ensures b.IsColliding(Vec3(b.x - b.width / 2.0, y, b.z - b.depth / 2.0))
    ensures b.IsColliding(Vec3(b.x + b.width / 2.0, y, b.z + b.depth / 2.0))
    ensures b.IsColliding(Vec3(b.x - b.width / 2.0, y, b.z + b.depth / 2.0))
    ensures b.IsColliding(Vec3(b.x + b.width / 2.0, y, b.z - b.depth / 2.0))
  {
  }

  /** A point more than half the width away in x, or half the depth in z, does not collide. */
  lemma OutsideDoesNotCollide(b: StopBlock, p: Vec3)
    requires Abs(p.x - b.x) > b.width / 2.0 || Abs(p.z - b.z) > b.depth / 2.0
    ensures !b.IsColliding(p)
  {
  }

  lemma CollisionIgnoresHeight(b: StopBlock, p: Vec3, y: real)
    ensures b.IsColliding(p) == b.IsColliding(p.(y := y))
  {
  }
}
