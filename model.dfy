/**
 * `Model<V>`: vertex and index data on the CPU side plus the two GPU buffers that
 * `alloc_buffer` creates from them, once. A GPU buffer is modelled by what it was
 * created with: its label, its byte contents and its usage.
 */
module RenderModel {
  import opened Bytes

  datatype Option<T> = None | Some(value: T)

  /** `wgpu::BufferUsages::VERTEX` and `wgpu::BufferUsages::INDEX`. */
  datatype BufferUsage = VertexUsage | IndexUsage

  /** A buffer made by `create_buffer_init` from a `BufferInitDescriptor`. */
  datatype Buffer = Buffer(name: string, contents: seq<byte>, usage: BufferUsage)

  /** The bytes of the index data: the `u32` indices packed one after the other. */
  function IndexBytes(indices: seq<u32>): (b: seq<byte>)
    ensures |b| == 4 * |indices|
    ensures UnpackU32s(b) == indices
  {
    UnpackCastSlice(indices);
    CastSlice(U32Pod(), indices)
  }

  class Model<!V(!new)> {
    /** The `Pod` layout of `V`, which the `RenderVertex: Pod` bound supplies in the source. */
    const pod: Pod<V>
    var vertices: seq<V>
    var indices: seq<u32>
    var vertexBuffer: Option<Buffer>
    var indexBuffer: Option<Buffer>
    /** The source's `label` (a reserved word in Dafny). */
    var name: string

    /** `Model::new`: copies the data and the label; no buffer exists yet. */
    constructor(pod: Pod<V>, vertices: seq<V>, indices: seq<u32>, name: string)
      ensures this.pod == pod
      ensures this.vertices == vertices && this.indices == indices && this.name == name
      ensures vertexBuffer == None && indexBuffer == None
    {
      this.pod := pod;
      this.vertices := vertices;
      this.indices := indices;
      this.name := name;
      vertexBuffer := None;
      indexBuffer := None;
    }

    /**
     * `Model::alloc_buffer`. Both buffers must still be absent (the source asserts
     * it, so a second call panics); afterwards both exist and hold the packed data.
     */
    method AllocBuffer()
      requires vertexBuffer == None && indexBuffer == None
      modifies this`vertexBuffer, this`indexBuffer
      ensures vertexBuffer == Some(Buffer(name + " vertex buffer", CastSlice(pod, vertices), VertexUsage))
      ensures indexBuffer == Some(Buffer(name + " index buffer", IndexBytes(indices), IndexUsage))
      ensures |indexBuffer.value.contents| == 4 * |indices|
      ensures pod.WellFormed() ==> |vertexBuffer.value.contents| == |vertices| * pod.size
    {
      var vb := Buffer(name + " vertex buffer", CastSlice(pod, vertices), VertexUsage);
      var ib := Buffer(name + " index buffer", IndexBytes(indices), IndexUsage);
      vertexBuffer := Some(vb);
      indexBuffer := Some(ib);
    }
  }
}
