/**
 * `Creature` as the object the program mutates in place: its fields, the
 * constructor, and `update`, `flock` and `reflect`, each proved against the
 * value-level functions of `Flocking`.
 */
module Creatures {
  import opened Vectors
  import opened Flocking
  import opened Spawning

  class Creature {
    var position: Vec3
    var direction: Vec3
    var speed: real
    var maxTurn: real

    /** The creature's fields as a value. */
    ghost function State(): Boid
      reads this
    {
      Boid(position, direction, speed, maxTurn)
    }

    /**
     * `Creature(cubeSize)`. The five draws of the random distribution on
     * `[-1, 1]`, and `sin`, `cos`, `acos`, `pi` and `normalize`, are parameters.
     */
    constructor (cubeSize: real, ux: real, uy: real, uz: real, uTheta: real, uPhi: real,
                 trig: Trig, norm: Normalizer)
      ensures State() == Spawn(cubeSize, ux, uy, uz, uTheta * trig.pi, trig.acos(uPhi), trig, norm)
    {
      position := Vec3(ux * cubeSize, uy * cubeSize, uz * cubeSize);
      // theta = u * pi, phi = acos(u)
      direction := norm(SphericalHeading(uTheta * trig.pi, trig.acos(uPhi), trig));
      speed := 0.03;
      maxTurn := 0.1;
    }

    /** `Creature::update`: flock, move by `direction * speed`, then the wall checks x, y, z. */
    method Update(others: seq<Creature>, cubeSize: real, norm: Normalizer)
      modifies this
      ensures State() == Step(old(State()), old(Others(others, this)), cubeSize, norm)
    {
      Flock(others, norm);

      var moveVec := Scale(direction, speed);
      position := Add(position, moveVec);

      BounceWall(X, cubeSize, norm);
      BounceWall(Y, cubeSize, norm);
      BounceWall(Z, cubeSize, norm);
    }

    /**
     * One of the three wall checks of `update`: past the upper wall, clamp to
     * it and reflect about the inward normal; else past the lower wall, the same.
     */
    method BounceWall(a: Axis, cubeSize: real, norm: Normalizer)
      modifies this
      ensures State() == BounceAxis(old(State()), a, cubeSize, norm)
    {
      if Component(position, a) > cubeSize {
        position := WithComponent(position, a, cubeSize);
        Reflect(AxisNormal(a, -1.0), norm);
      } else if Component(position, a) < -cubeSize {
        position := WithComponent(position, a, -cubeSize);
        Reflect(AxisNormal(a, 1.0), norm);
      }
    }

    /**
     * `Creature::flock`: sums separation, alignment and cohesion over the
     * others that are not this creature and lie within the neighbour radius,
     * then, if there was at least one, blends the heading toward the steer.
     */
    method Flock(others: seq<Creature>, norm: Normalizer)
      modifies this
      ensures State() == Flocking.Flock(old(State()), old(Others(others, this)), norm)
    {
      var separation, alignment, cohesion := Zero, Zero, Zero;
      var count: nat := 0;

      ghost var snapshot, mask := States(others), SelfMask(others, this);
      ghost var visited: seq<Boid> := [];
      for i := 0 to |others|
        invariant unchanged(this)
        invariant visited == Unmasked(snapshot[..i], mask[..i])
        invariant Accum(separation, alignment, cohesion, count) == Accumulate(position, visited, norm)
      {
        var other := others[i];
        UnmaskedPrefix(snapshot, mask, i);
        if other == this {
          continue;
        }
        assert other.State() == snapshot[i];
        var diffVec := Sub(position, other.position);
        var dSq := Dot(diffVec, diffVec);

        if dSq < 25.0 && dSq > 0.0001 {
          VisitNeighbour(position, visited, other.State(), norm);
          separation := Add(separation, Div(norm(diffVec), dSq + 0.01));
          alignment := Add(alignment, other.direction);
          cohesion := Add(cohesion, other.position);
          count := count + 1;
        } else {
          VisitNonNeighbour(position, visited, other.State(), norm);
        }
        visited := visited + [other.State()];
      }
      assert snapshot[..|others|] == snapshot && mask[..|others|] == mask;

      if count > 0 {
        ghost var acc := Accum(separation, alignment, cohesion, count);
        separation := Div(separation, count as real);
        alignment := norm(Div(alignment, count as real));
        cohesion := norm(Sub(Div(cohesion, count as real), position));

        var steer := Zero;
        steer := Add(steer, Scale(separation, 250.0));
        steer := Add(steer, Scale(alignment, 3.0));
        steer := Add(steer, Scale(cohesion, 10.0));
        steer := norm(steer);
        assert steer == Steer(position, acc, norm);
        assert FlockDirection(State(), visited, norm) == norm(Mix(direction, steer, maxTurn));

        direction := norm(Mix(direction, steer, maxTurn));
      }
    }

    /** `Creature::reflect`: `direction = normalize(reflect(direction, normal))`. */
    method Reflect(normal: Vec3, norm: Normalizer)
      modifies this
      ensures State() == old(State()).(direction := norm(Vectors.Reflect(old(direction), normal)))
    {
      direction := Vectors.Reflect(direction, normal);
      direction := norm(direction);
    }
  }

  /**
   * The states of the creatures of `cs` other than `me`, in order: the others
   * `flock` visits, self excluded by identity.
   */
  ghost function Others(cs: seq<Creature>, me: Creature): seq<Boid>
    reads cs
  {
    Unmasked(States(cs), SelfMask(cs, me))
  }

  /** Which creatures of `cs` are `me`. */
  function SelfMask(cs: seq<Creature>, me: Creature): seq<bool> {
    seq(|cs|, k requires 0 <= k < |cs| => cs[k] == me)
  }

  /** The entries of `s` whose flag in `mask` is clear, in order. */
  function Unmasked(s: seq<Boid>, mask: seq<bool>): (r: seq<Boid>)
    requires |s| == |mask|
    ensures |r| <= |s|
  {
    if s == [] then []
    else Unmasked(s[..|s| - 1], mask[..|s| - 1]) + (if mask[|s| - 1] then [] else [s[|s| - 1]])
  }

  lemma UnmaskedPrefix(s: seq<Boid>, mask: seq<bool>, i: nat)
    requires |s| == |mask| && i < |s|
    ensures Unmasked(s[..i + 1], mask[..i + 1]) == Unmasked(s[..i], mask[..i]) + (if mask[i] then [] else [s[i]])
  {
    assert s[..i + 1][..i] == s[..i];
    assert mask[..i + 1][..i] == mask[..i];
  }

  /** The states of the creatures of `cs`, in order. */
  ghost function States(cs: seq<Creature>): (r: seq<Boid>)
    reads cs
    ensures |r| == |cs|
    ensures forall k :: 0 <= k < |cs| ==> r[k] == cs[k].State()
  {
    if cs == [] then [] else States(cs[..|cs| - 1]) + [cs[|cs| - 1].State()]
  }
}
