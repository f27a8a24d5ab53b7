/**
 * The flocking rule of one creature, as values: which others count as
 * neighbours, how separation, alignment and cohesion are accumulated and
 * blended into a new heading, how the creature moves, and how it is clamped
 * and reflected at the walls of the cube. `Creatures.Creature` performs the
 * same steps in place and is proved against these functions.
 */
module Flocking {
  import opened Vectors

  /** The state of one creature: where it is, where it heads, and its two constants. */
  datatype Boid = Boid(position: Vec3, direction: Vec3, speed: real, maxTurn: real)

  const Speed: real := 0.03
  const MaxTurn: real := 0.1
  const NeighbourRadius: real := 5.0
  /** Squared distances at or below this are treated as coincident and skipped. */
  const MinDistSq: real := 0.0001
  /** Added to the squared distance before dividing, to bound the repulsion. */
  const SeparationSoftening: real := 0.01
  const SeparationWeight: real := 250.0
  const AlignmentWeight: real := 3.0
  const CohesionWeight: real := 10.0

  /** `other` influences a creature at `self` when `0.0001 < dSq < 5 * 5`. */
  predicate IsNeighbour(self: Vec3, other: Vec3) {
    var dSq := DistSq(self, other);
    dSq < NeighbourRadius * NeighbourRadius && dSq > MinDistSq
  }

  // ---------------------------------------------------------------------------
  // Accumulating the neighbours

  /** The sums the neighbour loop keeps, and how many neighbours it has seen. */
  datatype Accum = Accum(separation: Vec3, alignment: Vec3, cohesion: Vec3, count: nat)

  const NoAccum := Accum(Zero, Zero, Zero, 0)

  function Combine(a: Accum, b: Accum): Accum {
    Accum(Add(a.separation, b.separation), Add(a.alignment, b.alignment),
          Add(a.cohesion, b.cohesion), a.count + b.count)
  }

  /** What one other creature adds to the sums: nothing unless it is a neighbour. */
  function Contribution(self: Vec3, other: Boid, norm: Normalizer): Accum {
    if IsNeighbour(self, other.position) then
      var diff := Sub(self, other.position);
      Accum(Div(norm(diff), Dot(diff, diff) + SeparationSoftening), other.direction, other.position, 1)
    else
      NoAccum
  }

  /** The sums after visiting `others` from first to last. */
  function Accumulate(self: Vec3, others: seq<Boid>, norm: Normalizer): Accum {
    if others == [] then NoAccum
    else Combine(Accumulate(self, others[..|others| - 1], norm),
                 Contribution(self, others[|others| - 1], norm))
  }

  // unfolds `Accumulate` at `others + [b]` for the loop step
  lemma AccumulateSnoc(self: Vec3, others: seq<Boid>, b: Boid, norm: Normalizer)
    ensures Accumulate(self, others + [b], norm)
      == Combine(Accumulate(self, others, norm), Contribution(self, b, norm))
  {
    assert (others + [b])[..|others|] == others;
  }

  // unfolds `Accumulate`, `Contribution` and `Combine` for the loop step that visits a neighbour
  lemma VisitNeighbour(self: Vec3, others: seq<Boid>, b: Boid, norm: Normalizer)
    requires IsNeighbour(self, b.position)
    ensures var acc := Accumulate(self, others, norm);
      var diff := Sub(self, b.position);
      Accumulate(self, others + [b], norm)
        == Accum(Add(acc.separation, Div(norm(diff), Dot(diff, diff) + SeparationSoftening)),
                 Add(acc.alignment, b.direction), Add(acc.cohesion, b.position), acc.count + 1)
  {
    AccumulateSnoc(self, others, b, norm);
  }

  /** Visiting a creature that is not a neighbour changes none of the sums. */
  lemma VisitNonNeighbour(self: Vec3, others: seq<Boid>, b: Boid, norm: Normalizer)
    requires !IsNeighbour(self, b.position)
    ensures Accumulate(self, others + [b], norm) == Accumulate(self, others, norm)
  {
    AccumulateSnoc(self, others, b, norm);
    CombineNone(Accumulate(self, others, norm));
  }

  lemma CombineNone(a: Accum)
    ensures Combine(a, NoAccum) == a
  {
  }

  /** The others that count as neighbours of a creature at `self`, in order. */
  function Neighbours(self: Vec3, others: seq<Boid>): (r: seq<Boid>)
    ensures |r| <= |others|
    ensures forall b :: b in r <==> b in others && IsNeighbour(self, b.position)
  {
    if others == [] then []
    else
      var last := others[|others| - 1];
      assert others == others[..|others| - 1] + [last];
      Neighbours(self, others[..|others| - 1]) + (if IsNeighbour(self, last.position) then [last] else [])
  }

  /** The loop counts exactly the neighbours. */
  lemma {:induction false} NeighbourCount(self: Vec3, others: seq<Boid>, norm: Normalizer)
    ensures Accumulate(self, others, norm).count == |Neighbours(self, others)|
  {
    if others != [] {
      NeighbourCount(self, others[..|others| - 1], norm);
    }
  }

  /** Accumulating a concatenation combines the two halves' sums. */
  lemma {:induction false} AccumulateConcat(self: Vec3, s: seq<Boid>, t: seq<Boid>, norm: Normalizer)
    ensures Accumulate(self, s + t, norm) == Combine(Accumulate(self, s, norm), Accumulate(self, t, norm))
  {
    if t == [] {
      assert s + t == s;
      CombineNone(Accumulate(self, s, norm));
    } else {
      var front, last := t[..|t| - 1], t[|t| - 1];
      assert t == front + [last];
      assert s + t == (s + front) + [last];
      AccumulateConcat(self, s, front, norm);
      AccumulateSnoc(self, s + front, last, norm);
      AccumulateSnoc(self, front, last, norm);
      CombineAssoc(Accumulate(self, s, norm), Accumulate(self, front, norm), Contribution(self, last, norm));
    }
  }

  lemma CombineAssoc(a: Accum, b: Accum, c: Accum)
    ensures Combine(Combine(a, b), c) == Combine(a, Combine(b, c))
  {
  }

  // combining is commutative in its last two arguments
  lemma CombineSwap(a: Accum, b: Accum, c: Accum)
    ensures Combine(Combine(a, b), c) == Combine(Combine(a, c), b)
  {
  }

  /**
   * Over the reals the sums, and so the neighbour count, do not depend on the
   * order in which the others are visited.
   */
  lemma {:induction false} AccumulatePermutation(self: Vec3, s: seq<Boid>, t: seq<Boid>, norm: Normalizer)
    requires multiset(s) == multiset(t)
    ensures Accumulate(self, s, norm) == Accumulate(self, t, norm)
    decreases |s|
  {
    if s == [] {
      assert |t| == |multiset(t)| == 0;
    } else {
      var x := s[|s| - 1];
      var front := s[..|s| - 1];
      assert s == front + [x];
      assert multiset(s) == multiset(front) + multiset([x]);
      assert x in multiset(t);
      var j :| 0 <= j < |t| && t[j] == x;
      var left, right := t[..j], t[j + 1..];
      RemoveOne(t, j);
      AccumulatePermutation(self, front, left + right, norm);
      AccumulateSnoc(self, front, x, norm);
      AccumulateMiddle(self, left, x, right, norm);
    }
  }

  /** Taking entry `j` out of `t` leaves the rest, in order, with one copy of it fewer. */
  lemma RemoveOne(t: seq<Boid>, j: nat)
    requires j < |t|
    ensures t == t[..j] + [t[j]] + t[j + 1..]
    ensures multiset(t[..j] + t[j + 1..]) == multiset(t) - multiset([t[j]])
  {
    assert t == t[..j] + [t[j]] + t[j + 1..];
  }

  /** One creature in the middle of the visit order adds the same as at the end. */
  lemma AccumulateMiddle(self: Vec3, left: seq<Boid>, x: Boid, right: seq<Boid>, norm: Normalizer)
    ensures Accumulate(self, left + [x] + right, norm)
         == Combine(Accumulate(self, left + right, norm), Contribution(self, x, norm))
  {
    var sumL, sumR := Accumulate(self, left, norm), Accumulate(self, right, norm);
    AccumulateConcat(self, left + [x], right, norm);
    AccumulateSnoc(self, left, x, norm);
    AccumulateConcat(self, left, right, norm);
    CombineSwap(sumL, Contribution(self, x, norm), sumR);
  }

  // ---------------------------------------------------------------------------
  // Steering

  /** The desired heading when at least one neighbour was found. */
  function Steer(self: Vec3, acc: Accum, norm: Normalizer): Vec3
    requires acc.count > 0
  {
    var n := acc.count as real;
    var separation := Div(acc.separation, n);
    var alignment := norm(Div(acc.alignment, n));
    var cohesion := norm(Sub(Div(acc.cohesion, n), self));
    norm(Add(Add(Add(Zero, Scale(separation, SeparationWeight)),
                 Scale(alignment, AlignmentWeight)),
             Scale(cohesion, CohesionWeight)))
  }

  /** The heading after the flocking rule. */
  function FlockDirection(b: Boid, others: seq<Boid>, norm: Normalizer): Vec3 {
    var acc := Accumulate(b.position, others, norm);
    if acc.count == 0 then b.direction
    else norm(Mix(b.direction, Steer(b.position, acc, norm), b.maxTurn))
  }

  /** `Creature::flock`: only the heading changes. */
  function Flock(b: Boid, others: seq<Boid>, norm: Normalizer): Boid {
    b.(direction := FlockDirection(b, others, norm))
  }

  /** Flocking never touches position, speed or turn rate. */
  lemma FlockKeepsState(b: Boid, others: seq<Boid>, norm: Normalizer)
    ensures var r := Flock(b, others, norm);
      r.position == b.position && r.speed == b.speed && r.maxTurn == b.maxTurn
  {
  }

  /** A creature with no neighbour keeps its heading. */
  lemma FlockIsolated(b: Boid, others: seq<Boid>, norm: Normalizer)
    requires forall o :: o in others ==> !IsNeighbour(b.position, o.position)
    ensures Flock(b, others, norm) == b
  {
    NeighbourCount(b.position, others, norm);
    NoNeighbours(b.position, others);
  }

  lemma {:induction false} NoNeighbours(self: Vec3, others: seq<Boid>)
    requires forall o :: o in others ==> !IsNeighbour(self, o.position)
    ensures Neighbours(self, others) == []
  {
    if others != [] {
      var front := others[..|others| - 1];
      assert forall o :: o in front ==> o in others;
      NoNeighbours(self, front);
      assert others[|others| - 1] in others;
    }
  }

  /**
   * With at least one neighbour and the constructor's turn rate, the new
   * heading normalises the blend `0.9 d + 0.1 steer`.
   */
  lemma FlockBlend(b: Boid, others: seq<Boid>, norm: Normalizer)
    requires b.maxTurn == MaxTurn
    requires exists o :: o in others && IsNeighbour(b.position, o.position)
    ensures var acc := Accumulate(b.position, others, norm);
      acc.count > 0 &&
      FlockDirection(b, others, norm)
        == norm(Add(Scale(b.direction, 0.9), Scale(Steer(b.position, acc, norm), 0.1)))
  {
    NeighbourCount(b.position, others, norm);
    var o :| o in others && IsNeighbour(b.position, o.position);
    assert o in Neighbours(b.position, others);
    var acc := Accumulate(b.position, others, norm);
    assert Mix(b.direction, Steer(b.position, acc, norm), 0.1)
      == Add(Scale(b.direction, 0.9), Scale(Steer(b.position, acc, norm), 0.1));
  }

  /** The new heading does not depend on the order of the others. */
  lemma FlockOrderIndependent(b: Boid, s: seq<Boid>, t: seq<Boid>, norm: Normalizer)
    requires multiset(s) == multiset(t)
    ensures Flock(b, s, norm) == Flock(b, t, norm)
  {
    AccumulatePermutation(b.position, s, t, norm);
  }

  // ---------------------------------------------------------------------------
  // Moving and bouncing off the walls

  /** `position += direction * speed`. */
  function Move(b: Boid): Boid {
    b.(position := Add(b.position, Scale(b.direction, b.speed)))
  }

  /**
   * One axis of the wall check: past the upper wall, clamp to it and reflect
   * about the inward normal; else past the lower wall, likewise; else nothing.
   */
  function BounceAxis(b: Boid, a: Axis, cubeSize: real, norm: Normalizer): Boid {
    var p := Component(b.position, a);
    if p > cubeSize then
      b.(position := WithComponent(b.position, a, cubeSize),
         direction := norm(Reflect(b.direction, AxisNormal(a, -1.0))))
    else if p < -cubeSize then
      b.(position := WithComponent(b.position, a, -cubeSize),
         direction := norm(Reflect(b.direction, AxisNormal(a, 1.0))))
    else
      b
  }

  /** The wall checks for x, then y, then z. */
  function Bounce(b: Boid, cubeSize: real, norm: Normalizer): Boid {
    BounceAxis(BounceAxis(BounceAxis(b, X, cubeSize, norm), Y, cubeSize, norm), Z, cubeSize, norm)
  }

  /** `Creature::update`: flock, move, then the wall checks. */
  function Step(b: Boid, others: seq<Boid>, cubeSize: real, norm: Normalizer): Boid {
    Bounce(Move(Flock(b, others, norm)), cubeSize, norm)
  }

  function ClampCoordinate(v: real, cubeSize: real): real {
    if v > cubeSize then cubeSize else if v < -cubeSize then -cubeSize else v
  }

  function ClampToCube(p: Vec3, cubeSize: real): Vec3 {
    Vec3(ClampCoordinate(p.x, cubeSize), ClampCoordinate(p.y, cubeSize), ClampCoordinate(p.z, cubeSize))
  }

  /**
   * One wall check touches only its own axis: it ends inside the walls, is set
   * exactly to the wall it crossed after reflecting about that wall's inward
   * normal, and changes nothing at all if the coordinate was already inside.
   */
  lemma BounceAxisSpec(b: Boid, a: Axis, cubeSize: real, norm: Normalizer)
    requires cubeSize >= 0.0
    ensures var r := BounceAxis(b, a, cubeSize, norm);
      && r.speed == b.speed && r.maxTurn == b.maxTurn
      && -cubeSize <= Component(r.position, a) <= cubeSize
      && (forall o: Axis :: o != a ==> Component(r.position, o) == Component(b.position, o))
      && (Component(b.position, a) > cubeSize ==>
            Component(r.position, a) == cubeSize
            && r.direction == norm(WithComponent(b.direction, a, -Component(b.direction, a))))
      && (Component(b.position, a) < -cubeSize ==>
            Component(r.position, a) == -cubeSize
            && r.direction == norm(WithComponent(b.direction, a, -Component(b.direction, a))))
      && (-cubeSize <= Component(b.position, a) <= cubeSize ==> r == b)
  {
    ReflectAboutAxisNormal(b.direction, a, -1.0);
    ReflectAboutAxisNormal(b.direction, a, 1.0);
  }

  /**
   * Whatever order the reflections happen in, the position after the three
   * wall checks is the per-axis clamp of the position before them.
   */
  lemma BouncePosition(b: Boid, cubeSize: real, norm: Normalizer)
    requires cubeSize >= 0.0
    ensures var r := Bounce(b, cubeSize, norm);
      r.position == ClampToCube(b.position, cubeSize)
      && InCube(r.position, cubeSize)
      && r.speed == b.speed && r.maxTurn == b.maxTurn
  {
    var bx := BounceAxis(b, X, cubeSize, norm);
    var bY := BounceAxis(bx, Y, cubeSize, norm);
    var bz := BounceAxis(bY, Z, cubeSize, norm);
    BounceAxisSpec(b, X, cubeSize, norm);
    BounceAxisSpec(bx, Y, cubeSize, norm);
    BounceAxisSpec(bY, Z, cubeSize, norm);
    assert Component(bz.position, X) == Component(b.position, X) || Component(bz.position, X) == ClampCoordinate(b.position.x, cubeSize);
  }

  /**
   * `Creature::update`: the position before the wall checks is the old
   * position plus the flocked heading times speed; afterwards every coordinate
   * is that one clamped into the cube, so the creature is inside; speed and
   * turn rate never change; and if the move stays inside, nothing is reflected.
   */
  lemma StepSpec(b: Boid, others: seq<Boid>, cubeSize: real, norm: Normalizer)
    requires cubeSize >= 0.0
    ensures var heading := FlockDirection(b, others, norm);
      var moved := Add(b.position, Scale(heading, b.speed));
      var r := Step(b, others, cubeSize, norm);
      && r.position == ClampToCube(moved, cubeSize)
      && InCube(r.position, cubeSize)
      && r.speed == b.speed && r.maxTurn == b.maxTurn
      && (InCube(moved, cubeSize) ==> r == b.(position := moved, direction := heading))
  {
    var m := Move(Flock(b, others, norm));
    BouncePosition(m, cubeSize, norm);
    if InCube(m.position, cubeSize) {
      BounceAxisSpec(m, X, cubeSize, norm);
      BounceAxisSpec(m, Y, cubeSize, norm);
      BounceAxisSpec(m, Z, cubeSize, norm);
    }
  }

  /**
   * An isolated creature whose move stays inside the cube keeps its heading
   * and moves by exactly `direction * speed`.
   */
  lemma IsolatedStep(b: Boid, others: seq<Boid>, cubeSize: real, norm: Normalizer)
    requires cubeSize >= 0.0
    requires forall o :: o in others ==> !IsNeighbour(b.position, o.position)
    requires InCube(Move(b).position, cubeSize)
    ensures Step(b, others, cubeSize, norm) == Move(b)
  {
    FlockIsolated(b, others, norm);
    StepSpec(b, others, cubeSize, norm);
  }

  // ---------------------------------------------------------------------------
  // One frame: every creature updated once, in order, in place

  /** The others of creature `i`: everyone except `i` itself, in order. */
  function Without(s: seq<Boid>, i: nat): seq<Boid>
    requires i < |s|
  {
    s[..i] + s[i + 1..]
  }

  /** Update creatures `k`, `k + 1`, ... in turn, each seeing the current sequence. */
  function StepFrom(s: seq<Boid>, k: nat, cubeSize: real, norm: Normalizer): (r: seq<Boid>)
    ensures |r| == |s|
    decreases |s| - k
  {
    if k >= |s| then s
    else StepFrom(s[k := Step(s[k], Without(s, k), cubeSize, norm)], k + 1, cubeSize, norm)
  }

  // unfolds `StepFrom` for one step of the frame loop
  lemma StepFromNext(s: seq<Boid>, k: nat, cubeSize: real, norm: Normalizer)
    requires k < |s|
    ensures StepFrom(s, k, cubeSize, norm)
      == StepFrom(s[k := Step(s[k], Without(s, k), cubeSize, norm)], k + 1, cubeSize, norm)
  {
  }

  /** One frame of the sequential update loop. */
  function Tick(s: seq<Boid>, cubeSize: real, norm: Normalizer): seq<Boid> {
    StepFrom(s, 0, cubeSize, norm)
  }

  lemma {:induction false} StepFromKeepsPrefix(s: seq<Boid>, k: nat, cubeSize: real, norm: Normalizer)
    requires k <= |s|
    ensures StepFrom(s, k, cubeSize, norm)[..k] == s[..k]
    decreases |s| - k
  {
    if k < |s| {
      var s' := s[k := Step(s[k], Without(s, k), cubeSize, norm)];
      StepFromKeepsPrefix(s', k + 1, cubeSize, norm);
      assert s'[..k + 1][..k] == s[..k];
    }
  }

  lemma {:induction false} StepFromSequential(s: seq<Boid>, k: nat, j: nat, cubeSize: real, norm: Normalizer)
    requires k <= j < |s|
    ensures var u := StepFrom(s, k, cubeSize, norm);
      u[j] == Step(s[j], u[..j] + s[j + 1..], cubeSize, norm)
    decreases |s| - k
  {
    var u := StepFrom(s, k, cubeSize, norm);
    var s' := s[k := Step(s[k], Without(s, k), cubeSize, norm)];
    assert u == StepFrom(s', k + 1, cubeSize, norm);
    if j == k {
      StepFromKeepsPrefix(s', k + 1, cubeSize, norm);
      assert u[..k + 1] == s'[..k + 1];
      assert u[k] == s'[k];
      assert u[..k] == s'[..k + 1][..k] == s[..k];
      assert Without(s, k) == u[..k] + s[k + 1..];
    } else {
      StepFromSequential(s', k + 1, j, cubeSize, norm);
      assert s'[j + 1..] == s[j + 1..];
    }
  }

  /**
   * In a frame, creature `i` is updated against the ALREADY UPDATED creatures
   * before it and the not yet updated creatures after it: there is no snapshot.
   */
  lemma TickSequential(s: seq<Boid>, i: nat, cubeSize: real, norm: Normalizer)
    requires i < |s|
    ensures Tick(s, cubeSize, norm)[i] == Step(s[i], Tick(s, cubeSize, norm)[..i] + s[i + 1..], cubeSize, norm)
  {
    StepFromSequential(s, 0, i, cubeSize, norm);
  }

  /** After a frame every creature is inside the cube and kept its speed and turn rate. */
  lemma TickSpec(s: seq<Boid>, cubeSize: real, norm: Normalizer)
    requires cubeSize >= 0.0
    ensures var r := Tick(s, cubeSize, norm);
      |r| == |s| &&
      forall i :: 0 <= i < |s| ==>
        InCube(r[i].position, cubeSize) && r[i].speed == s[i].speed && r[i].maxTurn == s[i].maxTurn
  {
    var r := Tick(s, cubeSize, norm);
    forall i | 0 <= i < |s|
      ensures InCube(r[i].position, cubeSize) && r[i].speed == s[i].speed && r[i].maxTurn == s[i].maxTurn
    {
      TickSequential(s, i, cubeSize, norm);
      StepSpec(s[i], r[..i] + s[i + 1..], cubeSize, norm);
    }
  }
}
