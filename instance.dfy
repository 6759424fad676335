/**
 * The load_model example's per-instance data: `InstanceRaw`, a 4x4 `f32` model
 * matrix stored column by column, and its instance-buffer layout, which feeds
 * the matrix to the shader as four `vec4` attributes.
 */
module LoadModelInstance {
  import opened Bytes
  import opened BufferLayout

  type Vec4 = s: seq<f32> | |s| == 4 witness [0, 0, 0, 0]
  const ZeroColumn: Vec4 := [0, 0, 0, 0]
  type Mat4 = m: seq<Vec4> | |m| == 4 witness [ZeroColumn, ZeroColumn, ZeroColumn, ZeroColumn]

  /** `InstanceRaw { model: [[f32; 4]; 4] }`, `model[k]` being column `k`. */
  datatype InstanceRaw = InstanceRaw(model: Mat4)

  /** `size_of::<InstanceRaw>()`: sixteen `f32`s. */
  const InstanceRawSize: nat := 16 * F32Size

  /** The sixteen floats of the matrix, column after column (`to_cols_array_2d` flattened). */
  function Columns(m: Mat4): (fs: seq<f32>)
    ensures |fs| == 16
  {
    var c0: seq<f32>, c1: seq<f32>, c2: seq<f32>, c3: seq<f32> := m[0], m[1], m[2], m[3];
    c0 + c1 + c2 + c3
  }

  /** The bytes of an instance: the four columns one after the other. */
  function Encode(r: InstanceRaw): (b: seq<byte>)
    ensures |b| == InstanceRawSize
  {
    CastSlice(U32Pod(), Columns(r.model))
  }

  /** The `Pod` layout of `InstanceRaw`. */
  function InstanceRawPod(): (p: Pod<InstanceRaw>)
    ensures p.WellFormed() && p.size == InstanceRawSize
  {
    Pod(InstanceRawSize, Encode)
  }

  /** `InstanceRaw::buffer_layout_desc`. */
  function BufferLayoutDesc(): (l: VertexBufferLayout)
    ensures l.arrayStride == InstanceRawSize == 64
    ensures l.stepMode == PerInstance
    ensures |l.attributes| == 4
    ensures forall k :: 0 <= k < 4 ==>
      l.attributes[k].format == Float32x4 && l.attributes[k].shaderLocation == 5 + k
    ensures Packed(l)
    ensures DistinctLocations(l.attributes)
  {
    var l := VertexBufferLayout(
      InstanceRawSize,
      PerInstance,
      [ VertexAttribute(0, 5, Float32x4),
        VertexAttribute(4 * F32Size, 6, Float32x4),
        VertexAttribute(8 * F32Size, 7, Float32x4),
        VertexAttribute(12 * F32Size, 8, Float32x4) ]);
    assert PackedFrom(l.attributes[3..], 48, 64);
    assert PackedFrom(l.attributes[2..], 32, 64);
    assert PackedFrom(l.attributes[1..], 16, 64);
    l
  }

  /** The four attributes tile the 64 bytes of an instance with no gap and no overlap. */
  lemma InstanceLayoutTiles()
    ensures Disjoint(BufferLayoutDesc().attributes)
    ensures WithinStride(BufferLayoutDesc()) && Covers(BufferLayoutDesc())
  {
    PackedLayoutTiles(BufferLayoutDesc());
  }

  /** The attribute at location `5 + k` reads exactly column `k` of the matrix. */
  lemma AttributesReadColumns(r: InstanceRaw, k: nat)
    requires k < 4
    ensures var a := BufferLayoutDesc().attributes[k];
      Encode(r)[a.offset .. a.End()] == CastSlice(U32Pod(), r.model[k])
  {
    var m := r.model;
    var c0: seq<f32>, c1: seq<f32>, c2: seq<f32>, c3: seq<f32> := m[0], m[1], m[2], m[3];
    CastSliceAppend(U32Pod(), c0 + c1 + c2, c3);
    CastSliceAppend(U32Pod(), c0 + c1, c2);
    CastSliceAppend(U32Pod(), c0, c1);
  }
}
