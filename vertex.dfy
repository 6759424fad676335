/**
 * The load_model example's `Vertex`: a `#[repr(C)]` struct of a position, a texture
 * coordinate and a normal, its vertex-buffer layout, and `from_mesh_index`, which
 * gathers vertex `i` out of the flat attribute arrays of a loaded mesh.
 */
module LoadModelVertex {
  import opened Bytes
  import opened BufferLayout

  type Vec2 = s: seq<f32> | |s| == 2 witness [0, 0]
  type Vec3 = s: seq<f32> | |s| == 3 witness [0, 0, 0]

  datatype Vertex = Vertex(position: Vec3, texCoords: Vec2, normal: Vec3)

  /** `size_of::<Vertex>()`: eight `f32` fields, no padding. */
  const VertexSize: nat := 8 * F32Size

  /** The bytes of a vertex in `#[repr(C)]` order: position, then tex_coords, then normal. */
  function Encode(v: Vertex): (b: seq<byte>)
    ensures |b| == VertexSize
  {
    CastSlice(U32Pod(), v.position + v.texCoords + v.normal)
  }

  /** Reads a vertex back from its 32 bytes. */
  function Decode(b: seq<byte>): Vertex
    requires |b| == VertexSize
  {
    Vertex(UnpackU32s(b[..12]), UnpackU32s(b[12..20]), UnpackU32s(b[20..]))
  }

  /** The `Pod` layout of `Vertex` that `Model<Vertex>` casts to bytes. */
  function VertexPod(): (p: Pod<Vertex>)
    ensures p.WellFormed() && p.size == VertexSize
  {
    Pod(VertexSize, Encode)
  }

  /** The bytes that attribute `a` of the layout reads out of `b`. */
  function AttributeBytes(b: seq<byte>, a: VertexAttribute): seq<byte>
    requires a.End() <= |b|
  {
    b[a.offset .. a.End()]
  }

  /** `Vertex::buffer_layout_desc`. */
  function BufferLayoutDesc(): (l: VertexBufferLayout)
    ensures l.arrayStride == VertexSize == 32
    ensures l.stepMode == PerVertex
    ensures Packed(l)
    ensures DistinctLocations(l.attributes)
  {
    var l := VertexBufferLayout(
      VertexSize,
      PerVertex,
      [ VertexAttribute(0, 4, Float32x3),
        VertexAttribute(3 * F32Size, 5, Float32x2),
        VertexAttribute(5 * F32Size, 6, Float32x3) ]);
    assert PackedFrom(l.attributes[2..], 20, 32);
    assert PackedFrom(l.attributes[1..], 12, 32);
    l
  }

  /** The layout tiles the 32 bytes of a vertex with no gap and no overlap. */
  lemma VertexLayoutTiles()
    ensures Disjoint(BufferLayoutDesc().attributes)
    ensures WithinStride(BufferLayoutDesc()) && Covers(BufferLayoutDesc())
  {
    PackedLayoutTiles(BufferLayoutDesc());
  }

  /**
   * The layout agrees with the struct: attributes at locations 4, 5 and 6 read
   * exactly the bytes of position, tex_coords and normal.
   */
  lemma AttributesReadFields(v: Vertex)
    ensures var l := BufferLayoutDesc(); var b := Encode(v);
      && AttributeBytes(b, l.attributes[0]) == CastSlice(U32Pod(), v.position)
      && AttributeBytes(b, l.attributes[1]) == CastSlice(U32Pod(), v.texCoords)
      && AttributeBytes(b, l.attributes[2]) == CastSlice(U32Pod(), v.normal)
  {
    var p, t, n := v.position, v.texCoords, v.normal;
    CastSliceAppend(U32Pod(), p + t, n);
    CastSliceAppend(U32Pod(), p, t);
  }

  lemma DecodeEncode(v: Vertex)
    ensures Decode(Encode(v)) == v
  {
    AttributesReadFields(v);
    var b := Encode(v);
    UnpackCastSlice(v.position);
    UnpackCastSlice(v.texCoords);
    UnpackCastSlice(v.normal);
    assert b[..12] == AttributeBytes(b, BufferLayoutDesc().attributes[0]);
    assert b[20..] == AttributeBytes(b, BufferLayoutDesc().attributes[2]);
  }

  /** The flat attribute arrays of a `tobj::Mesh` (its index and material fields are not used here). */
  datatype Mesh = Mesh(positions: seq<f32>, texcoords: seq<f32>, normals: seq<f32>)

  /** Vertex `i` exists in every attribute array: otherwise the indexing panics. */
  predicate HasVertex(mesh: Mesh, i: nat) {
    3 * i + 2 < |mesh.positions| && 2 * i + 1 < |mesh.texcoords| && 3 * i + 2 < |mesh.normals|
  }

  /** `Vertex::from_mesh_index`: the three-, two- and three-element groups number `i`. */
  function FromMeshIndex(mesh: Mesh, i: nat): (v: Vertex)
    requires HasVertex(mesh, i)
    ensures v.position == mesh.positions[3 * i .. 3 * i + 3]
    ensures v.texCoords == mesh.texcoords[2 * i .. 2 * i + 2]
    ensures v.normal == mesh.normals[3 * i .. 3 * i + 3]
  {
    Vertex(
      [mesh.positions[i * 3], mesh.positions[i * 3 + 1], mesh.positions[i * 3 + 2]],
      [mesh.texcoords[i * 2], mesh.texcoords[i * 2 + 1]],
      [mesh.normals[i * 3], mesh.normals[i * 3 + 1], mesh.normals[i * 3 + 2]])
  }

  /** The positions of a vertex list, flattened back into one array. */
  function FlatPositions(vs: seq<Vertex>): seq<f32>
  {
    if vs == [] then [] else FlatPositions(vs[..|vs| - 1]) + vs[|vs| - 1].position
  }

  /** The texture coordinates of a vertex list, flattened back into one array. */
  function FlatTexCoords(vs: seq<Vertex>): seq<f32>
  {
    if vs == [] then [] else FlatTexCoords(vs[..|vs| - 1]) + vs[|vs| - 1].texCoords
  }

  /** The normals of a vertex list, flattened back into one array. */
  function FlatNormals(vs: seq<Vertex>): seq<f32>
  {
    if vs == [] then [] else FlatNormals(vs[..|vs| - 1]) + vs[|vs| - 1].normal
  }

  /** The first `n` vertices of a mesh, as `from_mesh_index(mesh, 0..n)` builds them. */
  function MeshVertices(mesh: Mesh, n: nat): (vs: seq<Vertex>)
    requires n == 0 || HasVertex(mesh, n - 1)
    ensures |vs| == n
  {
    if n == 0 then [] else MeshVertices(mesh, n - 1) + [FromMeshIndex(mesh, n - 1)]
  }

  lemma PrefixSplit(a: seq<f32>, lo: nat, hi: nat)
    requires lo <= hi <= |a|
    ensures a[..hi] == a[..lo] + a[lo..hi]
  {
  }

  /**
   * `from_mesh_index` reads disjoint consecutive groups: gathering vertices
   * `0..n` and flattening each attribute gives back the first `3n` positions,
   * `2n` texture coordinates and `3n` normals.
   */
  lemma {:induction false} GatherFlatten(mesh: Mesh, n: nat)
    requires n == 0 || HasVertex(mesh, n - 1)
    ensures FlatPositions(MeshVertices(mesh, n)) == mesh.positions[..3 * n]
    ensures FlatTexCoords(MeshVertices(mesh, n)) == mesh.texcoords[..2 * n]
    ensures FlatNormals(MeshVertices(mesh, n)) == mesh.normals[..3 * n]
  {
    if n > 0 {
      var vs := MeshVertices(mesh, n);
      var prev := MeshVertices(mesh, n - 1);
      var v := FromMeshIndex(mesh, n - 1);
      assert vs[..n - 1] == prev && vs[n - 1] == v;
      if n > 1 {
        GatherFlatten(mesh, n - 1);
      }
      assert FlatPositions(vs) == FlatPositions(prev) + v.position;
      assert FlatTexCoords(vs) == FlatTexCoords(prev) + v.texCoords;
      assert FlatNormals(vs) == FlatNormals(prev) + v.normal;
      PrefixSplit(mesh.positions, 3 * (n - 1), 3 * n);
      PrefixSplit(mesh.texcoords, 2 * (n - 1), 2 * n);
      PrefixSplit(mesh.normals, 3 * (n - 1), 3 * n);
    }
  }
}
