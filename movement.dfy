/**
 * The displacement updatePlayerPosition sums for one frame. The source uses a
 * single direction vector `playerDirection` (the player's world direction,
 * a horizontal unit vector) and every `multiplyScalar` and `cross` on it
 * changes it IN PLACE, so each held key sees the vector as the previous keys
 * left it. The vector is tracked here as `k * w` with `w` a horizontal unit
 * vector; for such a vector `cross(up).normalize()` is `sign(k) * CrossUp(w)`,
 * which is the only use of normalisation the code makes.
 */
module Movement {
  import opened Rules

  /** A horizontal vector (x, z); the y component of every vector here is 0. */
  datatype Planar = Planar(x: real, z: real)

  function Plus(a: Planar, b: Planar): Planar { Planar(a.x + b.x, a.z + b.z) }
  function Minus(a: Planar, b: Planar): Planar { Planar(a.x - b.x, a.z - b.z) }
  function Scale(k: real, w: Planar): Planar { Planar(k * w.x, k * w.z) }

  predicate Unit(w: Planar) { w.x * w.x + w.z * w.z == 1.0 }

  /** (w.x, 0, w.z) x (0, 1, 0), the cross product with `player.up`. */
  function CrossUp(w: Planar): Planar { Planar(-w.z, w.x) }

  /** The state of `playerDirection`: the vector k * w. */
  datatype Direction = Direction(k: real, w: Planar)

  function Value(d: Direction): Planar { Scale(d.k, d.w) }

  /** `playerDirection.multiplyScalar(s)`, which rescales the vector itself. */
  function Scaled(d: Direction, s: real): Direction { Direction(d.k * s, d.w) }

  /** `playerDirection.cross(player.up).normalize()`, again in place. */
  function CrossUpNormalized(d: Direction): Direction
    requires d.k != 0.0
  {
    Direction(1.0, Scale(if d.k > 0.0 then 1.0 else -1.0, CrossUp(d.w)))
  }

  /** The sum of the held intents' contributions, in the order the source
      adds them: forward, backward, strafe left, strafe right. */
  function Displacement(forward: bool, backward: bool, strafeLeft: bool, strafeRight: bool,
                        facing: Planar): (r: Planar)
    requires Unit(facing)
    ensures !forward && !backward && !strafeLeft && !strafeRight ==> r == Planar(0.0, 0.0)
    ensures !strafeLeft && !strafeRight ==>
              r == Scale((if forward then MoveSpeed else 0.0)
                         - (if backward then (if forward then MoveSpeed * MoveSpeed else MoveSpeed) else 0.0),
                         facing)
  {
    var d0 := Direction(1.0, facing);
    var d1 := if forward then Scaled(d0, MoveSpeed) else d0;
    var p1 := if forward then Value(d1) else Planar(0.0, 0.0);
    var d2 := if backward then Scaled(d1, MoveSpeed) else d1;
    var p2 := if backward then Minus(p1, Value(d2)) else p1;
    var d3 := if strafeLeft then Scaled(CrossUpNormalized(d2), -MoveSpeed) else d2;
    var p3 := if strafeLeft then Plus(p2, Value(d3)) else p2;
    var d4 := if strafeRight then Scaled(CrossUpNormalized(d3), MoveSpeed) else d3;
    if strafeRight then Plus(p3, Value(d4)) else p3
  }

  /** A single held key moves the player MoveSpeed along its own axis:
      forward and backward along the world direction, the strafes along its
      cross product with `up`. */
  lemma SingleKeyDisplacement(facing: Planar)
    requires Unit(facing)
    ensures Displacement(true, false, false, false, facing) == Scale(MoveSpeed, facing)
    ensures Displacement(false, true, false, false, facing) == Scale(-MoveSpeed, facing)
    ensures Displacement(false, false, true, false, facing) == Scale(-MoveSpeed, CrossUp(facing))
    ensures Displacement(false, false, false, true, facing) == Scale(MoveSpeed, CrossUp(facing))
  {
  }

  /** Holding forward and backward together does not cancel out: the
      backward step is taken with the already-rescaled vector, so the player
      still moves 0.1275 = 0.15 - 0.15 * 0.15 along the world direction. */
  lemma ForwardAndBackwardDoNotCancel(facing: Planar)
    requires Unit(facing)
    ensures Displacement(true, true, false, false, facing) == Scale(0.1275, facing)
  {
  }

  /** Holding both strafe keys does not cancel out either: the right strafe
      crosses the vector the left strafe left behind, which points along the
      world direction again. */
  lemma BothStrafesDoNotCancel(facing: Planar)
    requires Unit(facing)
    ensures Displacement(false, false, true, true, facing)
            == Plus(Scale(-MoveSpeed, CrossUp(facing)), Scale(MoveSpeed, facing))
  {
  }

  /** The new heading: rotateLeft turns by +RotateSpeed, rotateRight by
      -RotateSpeed, and both together leave the heading as it was. */
  function Turned(yaw: real, rotateLeft: bool, rotateRight: bool): (r: real)
    ensures rotateLeft == rotateRight ==> r == yaw
    ensures rotateLeft && !rotateRight ==> r == yaw + RotateSpeed
    ensures rotateRight && !rotateLeft ==> r == yaw - RotateSpeed
  {
    var y1 := if rotateLeft then yaw + RotateSpeed else yaw;
    if rotateRight then y1 - RotateSpeed else y1
  }
}
