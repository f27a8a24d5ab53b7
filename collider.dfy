/**
 * `SphereCollider`: a sphere given by its centre and radius, and the strict
 * "is this point inside" test. The test compares distances; with the square
 * root left abstract it is stated on squared distances, guarded by a
 * positive radius, and proved equivalent to the distance comparison for
 * every non-negative square root of the squared distance.
 */
module Collider {
  import opened Vectors

  /** The constructor stores `center` and `radius` exactly as given. */
  datatype SphereCollider = SphereCollider(center: Vec3, radius: real)
  {
    /**
     * `isColliding(pos)`: `distance(pos, center) < radius`. A distance is never
     * negative, so no point collides with a sphere of radius zero or less, and
     * a point exactly on the surface does not collide.
     */
    predicate IsColliding(pos: Vec3): (r: bool)
      ensures r ==> radius > 0.0 && DistSq(pos, center) < radius * radius
      ensures DistSq(pos, center) == radius * radius ==> !r
    {
      radius > 0.0 && DistSq(pos, center) < radius * radius
    }
  }

  /**
   * For the distance `d` between `pos` and the centre (any `d >= 0` whose
   * square is the squared distance), `IsColliding(pos)` holds exactly when
   * `d < radius`.
   */
  lemma CollidingIffCloserThanRadius(s: SphereCollider, pos: Vec3, d: real)
    requires d >= 0.0 && d * d == DistSq(pos, s.center)
    ensures s.IsColliding(pos) <==> d < s.radius
  {
    var r := s.radius;
    // r*r - d*d factors as (r - d) * (r + d)
    assert r * r - d * d == (r - d) * (r + d);
    if d < r {
      assert r + d > 0.0;
      assert (r - d) * (r + d) > 0.0;
    } else if r > 0.0 {
      assert (d - r) * (r + d) >= 0.0;
    }
  }

  /** The centre itself collides exactly when the radius is positive. */
  lemma CentreCollides(s: SphereCollider)
    ensures s.IsColliding(s.center) <==> s.radius > 0.0
  {
    if s.radius > 0.0 {
      calc {
        DistSq(s.center, s.center);
        0.0;
      <
        s.radius * s.radius;
      }
      assert s.IsColliding(s.center);
    } else {
      assert !s.IsColliding(s.center);
    }
  }
}
