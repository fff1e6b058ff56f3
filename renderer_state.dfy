/**
 * The renderer's per-scene state and the small, side-effect-free lookups over
 * it (renderer.h and the integer helpers of renderer.cpp): which packed meshes
 * are attached, which path IDs and instances an object covers, the sizes of
 * the per-path transform buffers.
 */
module RendererState {
  import opened Geometry
  import MeshIndex

  /**
   * The CPU-side packed meshes of one object, reduced to what the pipeline
   * reads: the per-path index-range tables and the stencil segment count.
   */
  datatype PackedMeshes = PackedMeshes(
    bQuadVertexPositionPathRanges: seq<Range>,
    bQuadVertexInteriorIndexPathRanges: seq<Range>,
    bBoxPathRanges: seq<Range>,
    stencilSegmentCount: nat)

  /** The GPU-side buffers built from one `PackedMeshes`, with the same per-path tables. */
  datatype PackedMeshBuffers = PackedMeshBuffers(
    bQuadVertexPositionPathRanges: seq<Range>,
    bQuadVertexInteriorIndexPathRanges: seq<Range>)

  /** Building the GPU buffers of a mesh keeps its per-path tables. */
  function BuffersFor(m: PackedMeshes): (b: PackedMeshBuffers)
    ensures b.bQuadVertexPositionPathRanges == m.bQuadVertexPositionPathRanges
    ensures b.bQuadVertexInteriorIndexPathRanges == m.bQuadVertexInteriorIndexPathRanges
  {
    PackedMeshBuffers(m.bQuadVertexPositionPathRanges, m.bQuadVertexInteriorIndexPathRanges)
  }

  /** `getMeshesAttached`: both the buffers and the CPU meshes are present. */
  predicate MeshesAttached(meshBuffers: seq<PackedMeshBuffers>, meshes: seq<PackedMeshes>) {
    |meshBuffers| > 0 && |meshes| > 0
  }

  /** `meshIndexForObject`: each object is drawn from the mesh at its own index. */
  function MeshIndexForObject(objectIndex: int): (r: int)
    ensures r == objectIndex
  {
    objectIndex
  }

  /**
   * `pathRangeForObject`: with no buffers attached, the empty range `(0, 0)`;
   * otherwise the 1-based path IDs `1 ..= n` of the object's `n` paths. The
   * object's buffer entry is read without a bound check.
   */
  function PathRangeForObject(meshBuffers: seq<PackedMeshBuffers>, objectIndex: int): (r: Range)
    requires |meshBuffers| > 0 ==> 0 <= objectIndex < |meshBuffers|
    ensures |meshBuffers| == 0 ==> r == Range(0, 0)
    ensures |meshBuffers| > 0 ==>
      r.start == 1 && r.Length() == |meshBuffers[objectIndex].bQuadVertexPositionPathRanges|
    ensures r.Valid()
  {
    if |meshBuffers| == 0 then
      Range(0, 0)
    else
      var length := |meshBuffers[MeshIndexForObject(objectIndex)].bQuadVertexPositionPathRanges|;
      Range(1, length + 1)
  }

  /** `instanceRangeForObject`: always the single instance 0, so no object is skipped for being empty. */
  function InstanceRangeForObject(objectIndex: int): (r: Range)
    ensures r.start == 0 && r.Length() == 1
    ensures !r.IsEmpty()
  {
    Range(0, 1)
  }

  /** `clearColorForObject`: every object clears to the zero vector. */
  function ClearColorForObject(objectIndex: int): (c: Color)
    ensures c == TRANSPARENT_BLACK
  {
    Color(0.0, 0.0, 0.0, 0.0)
  }

  /** `getPathIDsAreInstanced`: path IDs are never instanced, so the non-instanced draws are the ones taken. */
  function PathIDsAreInstanced(): (b: bool)
    ensures !b
  {
    false
  }

  /** A pair of buffers of the same element type: `st` (scale and translation) and `ext` (the rest of the affine transform). */
  datatype PathTransformBuffers<T> = PathTransformBuffers(st: T, ext: T)

  /** `n & 1` for a non-negative `n`. */
  function LowBit(n: nat): (b: nat)
    ensures b < 2
    ensures n - b == 2 * (n / 2)
  {
    n % 2
  }

  /**
   * `createPathTransformBuffers`: zero-filled buffers for `pathCount` paths plus
   * the reserved path 0. `st` holds four floats per path; `ext` holds two per
   * path, rounded up to an even number of paths so that it fills whole
   * four-float texels. A count below -1 would ask for a negative vector size.
   */
  function CreatePathTransformBuffers(pathCount: int): (r: PathTransformBuffers<seq<real>>)
    requires pathCount >= -1
    ensures |r.st| == 4 * (pathCount + 1)
    ensures |r.ext| % 4 == 0
    ensures 2 * (pathCount + 1) <= |r.ext| < 2 * (pathCount + 1) + 4
    ensures forall i :: 0 <= i < |r.st| ==> r.st[i] == 0.0
    ensures forall i :: 0 <= i < |r.ext| ==> r.ext[i] == 0.0
  {
    var n := pathCount + 1;
    var extLength := (n + LowBit(n)) * 2;
    assert extLength == 4 * ((n + 1) / 2) by {
      if LowBit(n) == 0 {
        assert n + LowBit(n) == 2 * (n / 2) && (n + 1) / 2 == n / 2;
      } else {
        assert n + LowBit(n) == 2 * (n / 2) + 2 && (n + 1) / 2 == n / 2 + 1;
      }
    }
    PathTransformBuffers(seq(4 * n, _ => 0.0), seq(extLength, _ => 0.0))
  }

  /**
   * Resolving an object's own path range against a per-path table of the same
   * length covers the whole table: from its first entry to its last in
   * ascending order, and from its last entry to its first in descending order.
   */
  lemma ObjectRangeCoversTable(meshBuffers: seq<PackedMeshBuffers>, objectIndex: int, table: seq<Range>)
    requires 0 <= objectIndex < |meshBuffers|
    requires |table| == |meshBuffers[objectIndex].bQuadVertexPositionPathRanges| > 0
    ensures MeshIndex.MeshIndexRangeDefined(table, PathRangeForObject(meshBuffers, objectIndex))
    ensures !MeshIndex.IsDescending(table) ==>
      MeshIndex.GetMeshIndexRange(table, PathRangeForObject(meshBuffers, objectIndex))
        == Range(table[0].start, MeshIndex.Last(table).end)
    ensures MeshIndex.IsDescending(table) ==>
      MeshIndex.GetMeshIndexRange(table, PathRangeForObject(meshBuffers, objectIndex))
        == Range(MeshIndex.Last(table).start, table[0].end)
  {
    var r := PathRangeForObject(meshBuffers, objectIndex);
    assert r == Range(1, |table| + 1);
  }
}
