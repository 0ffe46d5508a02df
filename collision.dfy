/** Axis-aligned bounding boxes and the intersection test the collision check
    uses. How a box is derived from a mesh (its geometry and world transform)
    belongs to the rendering library; the game step receives boxes as inputs. */
module Collision {

  /** A point in world space. */
  datatype Vec3 = Vec3(x: real, y: real, z: real)

  /** An axis-aligned box given by its minimum and maximum corners. */
  datatype Box = Box(min: Vec3, max: Vec3)

  /** A box whose corners are ordered on every axis (a box taken from a mesh). */
  predicate WellFormed(b: Box) {
    b.min.x <= b.max.x && b.min.y <= b.max.y && b.min.z <= b.max.z
  }

  /** The six-plane test: `b` misses `a` when it lies wholly beyond one face of
      `a`. Touching faces count as an intersection (closed intervals). */
  predicate Intersects(a: Box, b: Box) {
    !(b.max.x < a.min.x || b.min.x > a.max.x ||
      b.max.y < a.min.y || b.min.y > a.max.y ||
      b.max.z < a.min.z || b.min.z > a.max.z)
  }

  /** `p` lies in the closed box `b`. */
  predicate Contains(b: Box, p: Vec3) {
    b.min.x <= p.x <= b.max.x && b.min.y <= p.y <= b.max.y && b.min.z <= p.z <= b.max.z
  }

  function Max(a: real, b: real): (m: real) { if a < b then b else a }

  /** The plane test agrees with the geometric meaning: two well-formed boxes
      intersect exactly when they share a point. */
  lemma IntersectsIffSharedPoint(a: Box, b: Box)
    requires WellFormed(a) && WellFormed(b)
    ensures Intersects(a, b) <==> exists p :: Contains(a, p) && Contains(b, p)
  {
    if Intersects(a, b) {
      var p := Vec3(Max(a.min.x, b.min.x), Max(a.min.y, b.min.y), Max(a.min.z, b.min.z));
      assert Contains(a, p) && Contains(b, p);
    }
  }
}
