/** Player kinematics: the player's height is a clamped sine of a phase angle
    that only ever grows. The sine itself is a parameter, so every property
    here holds whatever values it returns. */
module Kinematics {

  /** Angle added per frame while the jump input is held. */
  const JumpSpeed: real := 0.05
  /** Angle added per frame while released and above the floor. */
  const JumpGravity: real := 0.1
  /** Lowest height a jump can put the player at. */
  const Floor: real := 0.4
  /** Offset added to the sine of the angle. */
  const Lift: real := 1.38

  /** The height `jump` assigns for a given angle: the larger of the lifted
      sine and the floor. */
  function Height(sine: real -> real, angle: real): (y: real)
    ensures y >= Floor && y >= sine(angle) + Lift
    ensures y == Floor || y == sine(angle) + Lift
    ensures y == Floor <==> sine(angle) + Lift <= Floor
  {
    var lifted := sine(angle) + Lift;
    if lifted > Floor then lifted else Floor
  }

  /** The states the player can be in: untouched since creation (angle 0 and
      the mesh's default height 0), or placed by at least one jump. */
  predicate PlayerAt(sine: real -> real, angle: real, y: real) {
    (angle == 0.0 && y == 0.0) || (angle > 0.0 && y == Height(sine, angle))
  }

  /** Once the player has jumped it never goes below the floor; before that it
      sits at its creation height 0. */
  lemma PlayerNeverBelowFloorAfterJump(sine: real -> real, angle: real, y: real)
    requires PlayerAt(sine, angle, y)
    ensures angle > 0.0 ==> y >= Floor
    ensures angle == 0.0 ==> y == 0.0
  {
  }

  /** With a true sine (values in [-1, 1]) the height stays in [0.4, 2.38]. */
  lemma HeightBounds(sine: real -> real, angle: real)
    requires -1.0 <= sine(angle) <= 1.0
    ensures Floor <= Height(sine, angle) <= Lift + 1.0
  {
  }
}
