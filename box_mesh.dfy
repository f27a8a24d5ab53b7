/**
 * The bounding box drawn as lines: the eight corners of the cube
 * `[-1, 1]^3` and the table of index pairs, one pair per edge.
 */
module BoxMesh {
  import opened Vectors

  /** The corners: the front face (z = 1) counter-clockwise from (-1, -1), then the back face (z = -1) likewise. */
  function BoxVertices(): (r: seq<Vec3>)
    ensures |r| == 8
  {
    [Vec3(-1.0, -1.0, 1.0), Vec3(1.0, -1.0, 1.0), Vec3(1.0, 1.0, 1.0), Vec3(-1.0, 1.0, 1.0),
     Vec3(-1.0, -1.0, -1.0), Vec3(1.0, -1.0, -1.0), Vec3(1.0, 1.0, -1.0), Vec3(-1.0, 1.0, -1.0)]
  }

  /** The twelve lines: the front face's four, the back face's four, then the four joining them. */
  function BoxIndices(): (r: seq<int>)
    ensures |r| == 24 && |r| % 2 == 0
  {
    [0, 1, 1, 2, 2, 3, 3, 0,
     4, 5, 5, 6, 6, 7, 7, 4,
     0, 4, 1, 5, 2, 6, 3, 7]
  }

  /** Every corner of the box is a corner of the cube `[-1, 1]^3`. */
  lemma BoxCorners()
    ensures forall k :: 0 <= k < |BoxVertices()| ==> InCube(BoxVertices()[k], 1.0)
    ensures forall k, a: Axis :: 0 <= k < |BoxVertices()| ==> Component(BoxVertices()[k], a) == 1.0 || Component(BoxVertices()[k], a) == -1.0
  {
  }

  /** Every entry of the line table names one of the eight corners. */
  lemma BoxIndicesInRange()
    ensures forall k :: 0 <= k < |BoxIndices()| ==> 0 <= BoxIndices()[k] < |BoxVertices()|
  {
  }

  /** Two corners of the cube joined by an edge: they differ in exactly one coordinate. */
  predicate IsEdge(p: Vec3, q: Vec3) {
    (if p.x != q.x then 1 else 0) + (if p.y != q.y then 1 else 0) + (if p.z != q.z then 1 else 0) == 1
  }

  /** Line `e` of the table, as its pair of corner indices. */
  function Line(e: int): (int, int)
    requires 0 <= e < 12
  {
    (BoxIndices()[2 * e], BoxIndices()[2 * e + 1])
  }

  /** Every line of the table joins two corners that differ in exactly one coordinate. */
  lemma BoxLinesAreEdges()
    ensures forall e :: 0 <= e < 12 ==> IsEdge(BoxVertices()[Line(e).0], BoxVertices()[Line(e).1])
  {
    BoxIndicesInRange();
    forall e | 0 <= e < 12
      ensures IsEdge(BoxVertices()[Line(e).0], BoxVertices()[Line(e).1])
    {
      LineIsEdge(e);
    }
  }

  /** The per-line step of `BoxLinesAreEdges`: line `e` joins two corners one coordinate apart. */
  lemma LineIsEdge(e: int)
    requires 0 <= e < 12
    ensures IsEdge(BoxVertices()[Line(e).0], BoxVertices()[Line(e).1])
  {
    BoxIndicesInRange();
    var v := BoxVertices();
    if e < 4 {
      assert v[0].z == v[1].z == v[2].z == v[3].z;
    } else if e < 8 {
      assert v[4].z == v[5].z == v[6].z == v[7].z;
    }
  }

  /**
   * Which line of the table joins two corners, whichever way round they are
   * given: the front ring's lines are 0 to 3, the back ring's 4 to 7, and the
   * line from front corner `i` to back corner `i + 4` is `8 + i`.
   */
  function LineNumber(p: (int, int)): int {
    var lo, hi := if p.0 <= p.1 then p.0 else p.1, if p.0 <= p.1 then p.1 else p.0;
    if hi == lo + 4 then 8 + lo
    else if lo == 0 && hi == 3 then 3
    else if lo == 4 && hi == 7 then 7
    else lo
  }

  lemma LineNumberOfLine(e: int)
    requires 0 <= e < 12
    ensures LineNumber(Line(e)) == e && LineNumber((Line(e).1, Line(e).0)) == e
  {
    // splitting on `e` makes the solver evaluate `LineNumber` on each concrete line
    if e == 0 {
    } else if e == 1 {
    } else if e == 2 {
    } else if e == 3 {
    } else if e == 4 {
    } else if e == 5 {
    } else if e == 6 {
    } else if e == 7 {
    } else if e == 8 {
    } else if e == 9 {
    } else if e == 10 {
    }
  }

  /** No line is drawn twice, in either direction. */
  lemma BoxLinesDistinct()
    ensures forall e, f :: 0 <= e < f < 12 ==> Line(e) != Line(f) && Line(e) != (Line(f).1, Line(f).0)
  {
    forall e, f | 0 <= e < f < 12
      ensures Line(e) != Line(f) && Line(e) != (Line(f).1, Line(f).0)
    {
      LineNumberOfLine(e);
      LineNumberOfLine(f);
    }
  }
}
