/**
 * `generateSphereMesh`: a UV sphere as a grid of `(stackCount + 1)` rings of
 * `(sectorCount + 1)` points, and the triangle indices that stitch
 * neighbouring rings together (one triangle per sector at each pole, two in
 * between). The point coordinates come from sines and cosines of the stack
 * and sector angles; they are the parameter `point(i, j)` here, and only the
 * counts, order and indices are modelled.
 */
module SphereMesh {
  import opened Vectors
  import opened Loops

  function Floats(p: Vec3): seq<real> {
    [p.x, p.y, p.z]
  }

  /** The first `m` points of ring `i`, flattened. */
  function Ring(i: int, m: nat, point: (int, int) -> Vec3): (r: seq<real>)
    ensures |r| == 3 * m
  {
    if m == 0 then [] else Ring(i, m - 1, point) + Floats(point(i, m - 1))
  }

  /** The first `k` rings of `sectorCount + 1` points each, flattened. */
  function Rings(k: nat, sectorCount: int, point: (int, int) -> Vec3): (r: seq<real>)
    ensures |r| == 3 * k * Count(sectorCount + 1)
  {
    if k == 0 then []
    else
      var c := Count(sectorCount + 1);
      assert 3 * (k - 1) * c + 3 * c == 3 * k * c;
      Rings(k - 1, sectorCount, point) + Ring(k - 1, c, point)
  }

  /** The whole vertex list: rings 0 to `stackCount`, points 0 to `sectorCount` in each. */
  function SphereVertices(sectorCount: int, stackCount: int, point: (int, int) -> Vec3): seq<real> {
    Rings(Count(stackCount + 1), sectorCount, point)
  }

  /** How many indices one sector of stack `i` emits: 3 unless `i` is the first stack, 3 more unless it is the last. */
  function QuadSize(i: int, stackCount: int): nat {
    (if i != 0 then 3 else 0) + (if i != stackCount - 1 then 3 else 0)
  }

  /** The index of the first point of ring `i`. */
  function RowStart(i: int, sectorCount: int): int {
    i * (sectorCount + 1)
  }

  /**
   * The indices for one sector of stack `i` whose upper-left point is `k1`:
   * with `k2` the point below it, the triangle `k1, k2, k1 + 1` unless this
   * is the top stack, then `k1 + 1, k2, k2 + 1` unless it is the bottom one.
   */
  function Quad(i: int, k1: int, sectorCount: int, stackCount: int): (r: seq<int>)
    ensures |r| == QuadSize(i, stackCount)
  {
    var k2 := k1 + sectorCount + 1;
    (if i != 0 then [k1, k2, k1 + 1] else []) + (if i != stackCount - 1 then [k1 + 1, k2, k2 + 1] else [])
  }

  /** The indices of the first `m` sectors of stack `i`, whose first point is `start`. */
  function StackQuads(i: int, start: int, m: nat, sectorCount: int, stackCount: int): seq<int> {
    if m == 0 then []
    else StackQuads(i, start, m - 1, sectorCount, stackCount) + Quad(i, start + m - 1, sectorCount, stackCount)
  }

  /** The indices of the first `k` stacks. */
  function Stacks(k: nat, sectorCount: int, stackCount: int): seq<int> {
    if k == 0 then []
    else
      Stacks(k - 1, sectorCount, stackCount)
      + StackQuads(k - 1, RowStart(k - 1, sectorCount), Count(sectorCount), sectorCount, stackCount)
  }

  /** The whole index list. */
  function SphereIndices(sectorCount: int, stackCount: int): seq<int> {
    Stacks(Count(stackCount), sectorCount, stackCount)
  }

  /**
   * `generateSphereMesh(vertices, indices, radius, sectorCount, stackCount)`.
   * Both vectors are cleared first. There are `(stackCount + 1) * (sectorCount + 1)`
   * points of three floats; for at least one stack there are
   * `6 * sectorCount * (stackCount - 1)` indices, and every index names one
   * of the emitted points.
   */
  method GenerateSphereMesh(radius: real, sectorCount: int, stackCount: int, point: (int, int) -> Vec3)
    returns (vertices: seq<real>, indices: seq<int>)
    ensures vertices == SphereVertices(sectorCount, stackCount, point)
    ensures indices == SphereIndices(sectorCount, stackCount)
    ensures |vertices| == 3 * (Count(stackCount + 1) * Count(sectorCount + 1))
    ensures stackCount >= 1 ==> |indices| == 6 * Count(sectorCount) * (stackCount - 1)
    ensures forall e :: 0 <= e < |indices| ==> 0 <= indices[e] < |vertices| / 3
  {
    vertices := GridVertices(sectorCount, stackCount, point);
    indices := GridIndices(sectorCount, stackCount);

    SphereVertexCount(sectorCount, stackCount, point);
    SphereIndexCount(sectorCount, stackCount);
    SphereIndicesInRange(sectorCount, stackCount);
  }

  /** The vertex half of `generateSphereMesh`: ring by ring, point by point. */
  method GridVertices(sectorCount: int, stackCount: int, point: (int, int) -> Vec3) returns (vertices: seq<real>)
    ensures vertices == SphereVertices(sectorCount, stackCount, point)
  {
    vertices := [];
    var i := 0;
    while i <= stackCount
      invariant 0 <= i <= Count(stackCount + 1)
      invariant vertices == Rings(i, sectorCount, point)
    {
      var j := 0;
      while j <= sectorCount
        invariant 0 <= j <= Count(sectorCount + 1)
        invariant vertices == Rings(i, sectorCount, point) + Ring(i, j, point)
      {
        var p := point(i, j);
        vertices := vertices + [p.x];
        vertices := vertices + [p.y];
        vertices := vertices + [p.z];
        j := j + 1;
      }
      i := i + 1;
    }
  }

  /** The index half of `generateSphereMesh`: stack by stack. */
  method GridIndices(sectorCount: int, stackCount: int) returns (indices: seq<int>)
    ensures indices == SphereIndices(sectorCount, stackCount)
  {
    indices := [];
    var i := 0;
    while i < stackCount
      invariant 0 <= i <= Count(stackCount)
      invariant indices == Stacks(i, sectorCount, stackCount)
    {
      var k1 := i * (sectorCount + 1); // current stack
      var k2 := k1 + sectorCount + 1;  // next stack
      indices := AppendStack(indices, i, k1, k2, sectorCount, stackCount);
      i := i + 1;
    }
  }

  /**
   * The inner index loop for stack `i`: `k1` and `k2` start at the first
   * point of this ring and of the next, and advance with the sector.
   */
  method AppendStack(prefix: seq<int>, i: int, k1Start: int, k2Start: int, sectorCount: int, stackCount: int)
    returns (indices: seq<int>)
    requires k2Start == k1Start + sectorCount + 1
    ensures indices == prefix + StackQuads(i, k1Start, Count(sectorCount), sectorCount, stackCount)
  {
    indices := prefix;
    var k1, k2 := k1Start, k2Start;
    var j := 0;
    while j < sectorCount
      invariant 0 <= j <= Count(sectorCount)
      invariant k1 == k1Start + j && k2 == k1 + sectorCount + 1
      invariant indices == prefix + StackQuads(i, k1Start, j, sectorCount, stackCount)
    {
      if i != 0 {
        indices := indices + [k1];
        indices := indices + [k2];
        indices := indices + [k1 + 1];
      }
      if i != stackCount - 1 {
        indices := indices + [k1 + 1];
        indices := indices + [k2];
        indices := indices + [k2 + 1];
      }
      j, k1, k2 := j + 1, k1 + 1, k2 + 1;
    }
  }

  /** There are `(stackCount + 1) * (sectorCount + 1)` points, three floats each. */
  lemma SphereVertexCount(sectorCount: int, stackCount: int, point: (int, int) -> Vec3)
    ensures |SphereVertices(sectorCount, stackCount, point)| == 3 * (Count(stackCount + 1) * Count(sectorCount + 1))
  {
  }

  /** The sector sizes of the first `k` stacks, summed. */
  function QuadSizes(k: nat, stackCount: int): nat {
    if k == 0 then 0 else QuadSizes(k - 1, stackCount) + QuadSize(k - 1, stackCount)
  }

  /** `m` sectors of one stack hold `m` times the sector size. */
  lemma {:induction false} StackQuadsLength(i: int, start: int, m: nat, sectorCount: int, stackCount: int)
    ensures |StackQuads(i, start, m, sectorCount, stackCount)| == m * QuadSize(i, stackCount)
  {
    if m > 0 {
      StackQuadsLength(i, start, m - 1, sectorCount, stackCount);
      Distribute(QuadSize(i, stackCount), m - 1, 1);
    }
  }

  /** The first `k` stacks hold `Count(sectorCount)` sectors each. */
  lemma {:induction false} StacksLength(k: nat, sectorCount: int, stackCount: int)
    ensures |Stacks(k, sectorCount, stackCount)| == Count(sectorCount) * QuadSizes(k, stackCount)
  {
    if k > 0 {
      StacksLength(k - 1, sectorCount, stackCount);
      StackQuadsLength(k - 1, RowStart(k - 1, sectorCount), Count(sectorCount), sectorCount, stackCount);
      Distribute(Count(sectorCount), QuadSizes(k - 1, stackCount), QuadSize(k - 1, stackCount));
    }
  }

  lemma Distribute(c: int, a: int, b: int)
    ensures c * a + c * b == c * (a + b)
  {
  }

  /**
   * Below the last stack every stack but the first contributes 6 per sector
   * and the first 3; the last contributes 3 more.
   */
  lemma {:induction false} QuadSizesSum(k: nat, stackCount: int)
    requires 1 <= k <= stackCount
    ensures QuadSizes(k, stackCount) == 6 * k - 3 - (if k == stackCount then 3 else 0)
  {
    if k > 1 {
      QuadSizesSum(k - 1, stackCount);
    }
  }

  /** For at least one stack there are `6 * sectorCount * (stackCount - 1)` indices; none otherwise. */
  lemma SphereIndexCount(sectorCount: int, stackCount: int)
    ensures |SphereIndices(sectorCount, stackCount)|
         == if stackCount >= 1 then 6 * Count(sectorCount) * (stackCount - 1) else 0
  {
    StacksLength(Count(stackCount), sectorCount, stackCount);
    if stackCount >= 1 {
      QuadSizesSum(stackCount, stackCount);
      Regroup(Count(sectorCount), stackCount);
    }
  }

  lemma Regroup(c: int, s: int)
    ensures c * (6 * s - 3 - 3) == 6 * c * (s - 1)
  {
  }

  /** Every index of sector `j` of stack `i` names one of the `(stackCount + 1) * (sectorCount + 1)` points. */
  lemma QuadInRange(i: int, j: int, k1: int, sectorCount: int, stackCount: int)
    requires 0 <= i < stackCount && 0 <= j < sectorCount && k1 == RowStart(i, sectorCount) + j
    ensures forall e :: 0 <= e < |Quad(i, k1, sectorCount, stackCount)| ==>
      0 <= Quad(i, k1, sectorCount, stackCount)[e] < (stackCount + 1) * (sectorCount + 1)
  {
    RowStarts(i, stackCount, sectorCount + 1);
  }

  /** Row `i` starts at or after 0, and row `i + 1` no later than row `stackCount`. */
  lemma RowStarts(i: int, stackCount: int, w: int)
    requires 0 <= i < stackCount && w > 0
    ensures 0 <= i * w && i * w + w <= stackCount * w && (stackCount + 1) * w == stackCount * w + w
  {
    MulNonNegative(i, w);
    MulNonNegative(stackCount - i - 1, w);
    Distribute(w, stackCount - i - 1, i + 1);
    Distribute(w, stackCount, 1);
    Distribute(w, i, 1);
  }

  lemma MulNonNegative(a: int, b: int)
    requires a >= 0 && b >= 0
    ensures a * b >= 0
  {
  }

  lemma {:induction false} StackQuadsInRange(i: int, m: nat, sectorCount: int, stackCount: int)
    requires 0 <= i < stackCount && m <= Count(sectorCount)
    ensures forall e :: 0 <= e < |StackQuads(i, RowStart(i, sectorCount), m, sectorCount, stackCount)| ==>
      0 <= StackQuads(i, RowStart(i, sectorCount), m, sectorCount, stackCount)[e] < (stackCount + 1) * (sectorCount + 1)
  {
    if m > 0 {
      StackQuadsInRange(i, m - 1, sectorCount, stackCount);
      QuadInRange(i, m - 1, RowStart(i, sectorCount) + m - 1, sectorCount, stackCount);
    }
  }

  lemma {:induction false} StacksInRange(k: nat, sectorCount: int, stackCount: int)
    requires k <= Count(stackCount)
    ensures forall e :: 0 <= e < |Stacks(k, sectorCount, stackCount)| ==>
      0 <= Stacks(k, sectorCount, stackCount)[e] < (stackCount + 1) * (sectorCount + 1)
  {
    if k > 0 {
      StacksInRange(k - 1, sectorCount, stackCount);
      StackQuadsInRange(k - 1, Count(sectorCount), sectorCount, stackCount);
    }
  }

  /** Every sphere index names one of the emitted points. */
  lemma SphereIndicesInRange(sectorCount: int, stackCount: int)
    ensures forall e :: 0 <= e < |SphereIndices(sectorCount, stackCount)| ==>
      0 <= SphereIndices(sectorCount, stackCount)[e] < Count(stackCount + 1) * Count(sectorCount + 1)
  {
    StacksInRange(Count(stackCount), sectorCount, stackCount);
    StacksLength(Count(stackCount), sectorCount, stackCount);
  }
}
