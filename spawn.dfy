/**
 * A new creature, as a value: where `Creature(cubeSize)` places it and where
 * it heads, given the random samples it draws.
 */
module Spawning {
  import opened Vectors
  import opened Flocking

  /**
   * `Creature(cubeSize)`: the position is three samples of the uniform
   * distribution on `[-1, 1]` scaled by `cubeSize`, the heading the normalised
   * point of the unit sphere at azimuth `theta` and polar angle `phi` (the
   * constructor draws `theta = u * pi` and `phi = acos(u)`).
   */
  function Spawn(cubeSize: real, ux: real, uy: real, uz: real, theta: real, phi: real,
                 trig: Trig, norm: Normalizer): Boid
  {
    Boid(Vec3(ux * cubeSize, uy * cubeSize, uz * cubeSize),
         norm(SphericalHeading(theta, phi, trig)),
         Speed, MaxTurn)
  }

  /** `(sin phi cos theta, cos phi, sin phi sin theta)`, before normalising. */
  function SphericalHeading(theta: real, phi: real, trig: Trig): Vec3 {
    Vec3(trig.sin(phi) * trig.cos(theta), trig.cos(phi), trig.sin(phi) * trig.sin(theta))
  }

  /** Where sine and cosine obey Pythagoras, the heading is already of unit length. */
  lemma SphericalHeadingUnit(theta: real, phi: real, trig: Trig)
    requires Pythagorean(trig)
    ensures var h := SphericalHeading(theta, phi, trig); Dot(h, h) == 1.0
  {
    var st, ct, sp, cp := trig.sin(theta), trig.cos(theta), trig.sin(phi), trig.cos(phi);
    assert st * st + ct * ct == 1.0;
    assert sp * sp + cp * cp == 1.0;
    calc {
      (sp * ct) * (sp * ct) + cp * cp + (sp * st) * (sp * st);
      sp * sp * (ct * ct + st * st) + cp * cp;
      sp * sp + cp * cp;
    }
  }

  /**
   * With samples in `[-1, 1]` a new creature starts inside the cube, with
   * speed 0.03 and turn rate 0.1, and its azimuth `u * pi` lies in `[-pi, pi]`.
   */
  lemma SpawnSpec(cubeSize: real, ux: real, uy: real, uz: real, uTheta: real, phi: real,
                  trig: Trig, norm: Normalizer)
    requires cubeSize >= 0.0 && trig.pi >= 0.0
    requires -1.0 <= ux <= 1.0 && -1.0 <= uy <= 1.0 && -1.0 <= uz <= 1.0 && -1.0 <= uTheta <= 1.0
    ensures var b := Spawn(cubeSize, ux, uy, uz, uTheta * trig.pi, phi, trig, norm);
      InCube(b.position, cubeSize) && b.speed == 0.03 && b.maxTurn == 0.1
    ensures -trig.pi <= uTheta * trig.pi <= trig.pi
  {
    var b := Spawn(cubeSize, ux, uy, uz, uTheta * trig.pi, phi, trig, norm);
    forall a: Axis
      ensures -cubeSize <= Component(b.position, a) <= cubeSize
    {
      match a
      case X => ScaledSampleInRange(ux, cubeSize);
      case Y => ScaledSampleInRange(uy, cubeSize);
      case Z => ScaledSampleInRange(uz, cubeSize);
    }
    ScaledSampleInRange(uTheta, trig.pi);
  }

  lemma ScaledSampleInRange(u: real, half: real)
    requires -1.0 <= u <= 1.0 && half >= 0.0
    ensures -half <= u * half <= half
  {
    if u >= 0.0 {
      assert u * half <= 1.0 * half;
    } else {
      assert (-u) * half <= 1.0 * half;
    }
  }
}
