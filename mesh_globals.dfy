/**
 * The two draw counts the program keeps as globals: how many indices the
 * cone mesh has and how many indices the box's line table has. They are
 * zero until the meshes are set up, and each setup function writes its own.
 */
module MeshGlobals {
  import opened Vectors
  import opened Loops
  import ConeMesh
  import opened BoxMesh

  class MeshCounts {
    var creatureNumIndices: int
    var boxNumVertices: int

    /** Globals of static storage start at zero. */
    constructor ()
      ensures creatureNumIndices == 0 && boxNumVertices == 0
    {
      creatureNumIndices := 0;
      boxNumVertices := 0;
    }

    /**
     * `generateConeData`: builds the cone and records its index count, six
     * per radial segment.
     */
    method GenerateConeData(radius: real, height: real, radialSegments: int, trig: Trig)
      returns (vertices: seq<real>, indices: seq<int>)
      modifies this
      ensures vertices == ConeMesh.ConeVertices(radius, height, radialSegments, trig)
      ensures indices == ConeMesh.ConeIndices(radialSegments)
      ensures creatureNumIndices == |indices| == 6 * Count(radialSegments)
      ensures boxNumVertices == old(boxNumVertices)
    {
      vertices, indices := ConeMesh.GenerateConeData(radius, height, radialSegments, trig);
      creatureNumIndices := |indices|;
    }

    /**
     * The data half of `setupBoxMesh`: the corner and line tables, and
     * `boxNumVertices` set to the number of entries of the line table (two
     * per line), not the number of corners.
     */
    method SetupBoxMesh() returns (vertices: seq<Vec3>, indices: seq<int>)
      modifies this
      ensures vertices == BoxVertices() && indices == BoxIndices()
      ensures boxNumVertices == |indices| == 24 == 2 * 12
      ensures boxNumVertices != |vertices|
      ensures creatureNumIndices == old(creatureNumIndices)
    {
      vertices := BoxVertices();
      indices := BoxIndices();
      boxNumVertices := |indices|;
    }
  }
}
