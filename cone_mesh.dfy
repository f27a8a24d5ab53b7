/**
 * `generateConeData`: the creature cone as a vertex list (the base centre,
 * `radialSegments` rim points, the apex, three floats each) and a triangle
 * index list (a fan over the base, then a strip of sides up to the apex).
 * Both output vectors are cleared first, so the generator is modelled as
 * returning fresh sequences. `cos`, `sin` and `pi` come from a `Trig`.
 */
module ConeMesh {
  import opened Vectors
  import opened Loops

  /** The angle of rim point `i`: `i / n * pi * 2`. */
  function RimAngle(i: int, n: int, pi: real): real
    requires n != 0
  {
    (i as real) / (n as real) * pi * 2.0
  }

  /**
   * The rim point whose angle has cosine `c` and sine `s`: on the base circle
   * of the given radius, at height `-height / 2`.
   */
  function RimPoint(c: real, s: real, radius: real, height: real): seq<real> {
    [radius * c, -height / 2.0, radius * s]
  }

  /** The first `k` rim points, flattened. */
  function Rim(k: nat, n: int, radius: real, height: real, trig: Trig): (r: seq<real>)
    requires k <= Count(n)
    ensures |r| == 3 * k
  {
    if k == 0 then []
    else
      var angle := RimAngle(k - 1, n, trig.pi);
      Rim(k - 1, n, radius, height, trig) + RimPoint(trig.cos(angle), trig.sin(angle), radius, height)
  }

  /**
   * The three floats the vertex loop appends for one rim point. The loop
   * pushes `radius * cos(angle)` and `radius * sin(angle)` one by one;
   * calling this with those two values lets the solver match them to
   * `RimPoint` without unfolding products of function applications.
   */
  lemma RimPointFloats(c: real, s: real, radius: real, height: real)
    ensures RimPoint(c, s, radius, height) == [radius * c, -height / 2.0, radius * s]
  {
  }

  /** The whole vertex list: base centre, rim, apex. */
  function ConeVertices(radius: real, height: real, n: int, trig: Trig): (r: seq<real>)
    ensures |r| == 3 * (Count(n) + 2)
  {
    [0.0, -height / 2.0, 0.0] + Rim(Count(n), n, radius, height, trig) + [0.0, height / 2.0, 0.0]
  }

  /** The rim index that follows rim index `i + 1`, wrapping from `n` back to 1. */
  function NextRim(i: int, n: int): int
    requires n > 0
  {
    (i + 1) % n + 1
  }

  /** Base triangle `i`: the centre, rim point `i + 1`, the next rim point. */
  function BaseTriangle(i: int, n: int): seq<int>
    requires n > 0
  {
    [0, i + 1, NextRim(i, n)]
  }

  /** Side triangle `i`: the apex `n + 1`, the next rim point, rim point `i + 1`. */
  function SideTriangle(i: int, n: int): seq<int>
    requires n > 0
  {
    [n + 1, NextRim(i, n), i + 1]
  }

  /** The first `k` base triangles, flattened. */
  function BaseFan(k: nat, n: int): (r: seq<int>)
    requires k <= Count(n)
    ensures |r| == 3 * k
  {
    if k == 0 then [] else BaseFan(k - 1, n) + BaseTriangle(k - 1, n)
  }

  /** The first `k` side triangles, flattened. */
  function SideStrip(k: nat, n: int): (r: seq<int>)
    requires k <= Count(n)
    ensures |r| == 3 * k
  {
    if k == 0 then [] else SideStrip(k - 1, n) + SideTriangle(k - 1, n)
  }

  /** The whole index list: the base fan, then the side strip. */
  function ConeIndices(n: int): seq<int> {
    BaseFan(Count(n), n) + SideStrip(Count(n), n)
  }

  /**
   * `generateConeData(vertices, indices, radius, height, radialSegments)`.
   * The outputs are the cone's vertex and index lists; there are
   * `3 * (radialSegments + 2)` floats and `6 * radialSegments` indices (none
   * of either loop runs for a negative count), and every index names one of
   * the emitted vertices.
   */
  method GenerateConeData(radius: real, height: real, radialSegments: int, trig: Trig)
    returns (vertices: seq<real>, indices: seq<int>)
    ensures vertices == ConeVertices(radius, height, radialSegments, trig)
    ensures indices == ConeIndices(radialSegments)
    ensures |vertices| == 3 * (Count(radialSegments) + 2)
    ensures |indices| == 6 * Count(radialSegments)
    ensures forall k :: 0 <= k < |indices| ==> 0 <= indices[k] < |vertices| / 3
  {
    vertices := [];
    indices := [];

    vertices := vertices + [0.0];
    vertices := vertices + [-height / 2.0];
    vertices := vertices + [0.0];
    vertices := AppendRim(vertices, radius, height, radialSegments, trig);
    vertices := vertices + [0.0];
    vertices := vertices + [height / 2.0];
    vertices := vertices + [0.0];

    indices := AppendBaseFan(indices, radialSegments);
    indices := AppendSideStrip(indices, radialSegments);

    ConeIndicesInRange(radialSegments);
  }

  /** The vertex loop: one rim point per radial segment, appended to `prefix`. */
  method AppendRim(prefix: seq<real>, radius: real, height: real, radialSegments: int, trig: Trig)
    returns (vertices: seq<real>)
    ensures vertices == prefix + Rim(Count(radialSegments), radialSegments, radius, height, trig)
  {
    vertices := prefix;
    var i := 0;
    while i < radialSegments
      invariant 0 <= i <= Count(radialSegments)
      invariant vertices == prefix + Rim(i, radialSegments, radius, height, trig)
    {
      var angle := RimAngle(i, radialSegments, trig.pi);
      vertices := vertices + [radius * trig.cos(angle)];
      vertices := vertices + [-height / 2.0];
      vertices := vertices + [radius * trig.sin(angle)];
      RimPointFloats(trig.cos(angle), trig.sin(angle), radius, height);
      i := i + 1;
    }
  }

  /** The base loop: one fan triangle per radial segment, appended to `prefix`. */
  method AppendBaseFan(prefix: seq<int>, radialSegments: int) returns (indices: seq<int>)
    ensures indices == prefix + BaseFan(Count(radialSegments), radialSegments)
  {
    indices := prefix;
    var i := 0;
    while i < radialSegments
      invariant 0 <= i <= Count(radialSegments)
      invariant indices == prefix + BaseFan(i, radialSegments)
    {
      indices := indices + [0];
      indices := indices + [i + 1];
      indices := indices + [(i + 1) % radialSegments + 1];
      i := i + 1;
    }
  }

  /** The side loop: one triangle per radial segment up to the apex, appended to `prefix`. */
  method AppendSideStrip(prefix: seq<int>, radialSegments: int) returns (indices: seq<int>)
    ensures indices == prefix + SideStrip(Count(radialSegments), radialSegments)
  {
    indices := prefix;
    var apexIndex := radialSegments + 1;
    var i := 0;
    while i < radialSegments
      invariant 0 <= i <= Count(radialSegments)
      invariant indices == prefix + SideStrip(i, radialSegments)
    {
      indices := indices + [apexIndex];
      indices := indices + [(i + 1) % radialSegments + 1];
      indices := indices + [i + 1];
      i := i + 1;
    }
  }

  /** Every entry of the first `k` base triangles lies in `[0, n]`. */
  lemma {:induction false} BaseFanInRange(k: nat, n: int)
    requires k <= Count(n)
    ensures forall e :: 0 <= e < |BaseFan(k, n)| ==> 0 <= BaseFan(k, n)[e] <= n
  {
    if k > 0 {
      BaseFanInRange(k - 1, n);
      assert BaseFan(k, n) == BaseFan(k - 1, n) + BaseTriangle(k - 1, n);
    }
  }

  /** Every entry of the first `k` side triangles lies in `[1, n + 1]`. */
  lemma {:induction false} SideStripInRange(k: nat, n: int)
    requires k <= Count(n)
    ensures forall e :: 0 <= e < |SideStrip(k, n)| ==> 1 <= SideStrip(k, n)[e] <= n + 1
  {
    if k > 0 {
      SideStripInRange(k - 1, n);
      assert SideStrip(k, n) == SideStrip(k - 1, n) + SideTriangle(k - 1, n);
    }
  }

  /**
   * There are `6 * n` cone indices, a whole number of triangles, and every
   * one is at most `n + 1`, the apex, so it names one of the `n + 2`
   * emitted vertices.
   */
  lemma ConeIndicesInRange(n: int)
    ensures |ConeIndices(n)| == 6 * Count(n) && |ConeIndices(n)| % 3 == 0
    ensures forall e :: 0 <= e < |ConeIndices(n)| ==> 0 <= ConeIndices(n)[e] <= Count(n) + 1
  {
    BaseFanInRange(Count(n), n);
    SideStripInRange(Count(n), n);
  }

  /**
   * The rim index after rim point `i + 1` is `i + 2`, except for the last
   * point, where it wraps back to 1.
   */
  lemma NextRimWraps(i: int, n: int)
    requires 0 <= i < n
    ensures NextRim(i, n) == if i == n - 1 then 1 else i + 2
  {
    if i < n - 1 {
      assert (i + 1) % n == i + 1;
    }
  }

  /** Base triangle `i` sits at entries `3i .. 3i + 3` of the first `k` base triangles. */
  lemma {:induction false} BaseFanAt(k: nat, n: int, i: nat)
    requires k <= Count(n) && i < k
    ensures BaseFan(k, n)[3 * i .. 3 * i + 3] == BaseTriangle(i, n)
  {
    if i < k - 1 {
      BaseFanAt(k - 1, n, i);
      assert BaseFan(k, n)[3 * i .. 3 * i + 3] == BaseFan(k - 1, n)[3 * i .. 3 * i + 3];
    }
  }

  /** Side triangle `i` sits at entries `3i .. 3i + 3` of the first `k` side triangles. */
  lemma {:induction false} SideStripAt(k: nat, n: int, i: nat)
    requires k <= Count(n) && i < k
    ensures SideStrip(k, n)[3 * i .. 3 * i + 3] == SideTriangle(i, n)
  {
    if i < k - 1 {
      SideStripAt(k - 1, n, i);
      assert SideStrip(k, n)[3 * i .. 3 * i + 3] == SideStrip(k - 1, n)[3 * i .. 3 * i + 3];
    }
  }

  /**
   * The `i`-th base triangle is the centre 0, rim point `i + 1` and the next
   * rim point; the `i`-th side triangle, `3n` entries later, is the apex
   * `n + 1`, the next rim point and rim point `i + 1`.
   */
  lemma ConeTriangle(n: int, i: nat)
    requires i < n
    ensures var next := if i == n - 1 then 1 else i + 2;
      ConeIndices(n)[3 * i .. 3 * i + 3] == [0, i + 1, next] &&
      ConeIndices(n)[3 * n + 3 * i .. 3 * n + 3 * i + 3] == [n + 1, next, i + 1]
  {
    BaseFanAt(n, n, i);
    SideStripAt(n, n, i);
    NextRimWraps(i, n);
    var base, side := BaseFan(n, n), SideStrip(n, n);
    assert ConeIndices(n)[3 * i .. 3 * i + 3] == base[3 * i .. 3 * i + 3];
    assert ConeIndices(n)[3 * n + 3 * i .. 3 * n + 3 * i + 3] == side[3 * i .. 3 * i + 3];
  }
}
