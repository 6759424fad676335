/**
 * The integer part of wgpu's vertex-buffer descriptions: attribute formats and
 * their sizes, attribute offsets and shader locations, strides and step modes,
 * and what it means for a list of attributes to tile one element of a buffer.
 */
module BufferLayout {
  import opened Bytes

  datatype VertexFormat = Float32x2 | Float32x3 | Float32x4 {
    /** Number of `f32` components. */
    function Components(): nat {
      match this
      case Float32x2 => 2
      case Float32x3 => 3
      case Float32x4 => 4
    }

    /** `VertexFormat::size`: bytes occupied by one attribute of this format. */
    function Size(): (n: nat)
      ensures n == Components() * F32Size
      ensures n > 0
    {
      match this
      case Float32x2 => 8
      case Float32x3 => 12
      case Float32x4 => 16
    }
  }

  /** `wgpu::VertexStepMode`: advance per vertex or per instance. */
  datatype VertexStepMode = PerVertex | PerInstance

  datatype VertexAttribute = VertexAttribute(offset: nat, shaderLocation: nat, format: VertexFormat) {
    /** First byte past this attribute. */
    function End(): nat { offset + format.Size() }
  }

  datatype VertexBufferLayout = VertexBufferLayout(
    arrayStride: nat,
    stepMode: VertexStepMode,
    attributes: seq<VertexAttribute>)

  /** The attributes sit end to end from offset `start` and the last one ends at `stop`. */
  predicate PackedFrom(attrs: seq<VertexAttribute>, start: nat, stop: nat)
    decreases |attrs|
  {
    if attrs == [] then start == stop
    else attrs[0].offset == start && PackedFrom(attrs[1..], attrs[0].End(), stop)
  }

  /** The attributes sit end to end from offset 0 and the last one ends at the stride. */
  predicate Packed(l: VertexBufferLayout) {
    PackedFrom(l.attributes, 0, l.arrayStride)
  }

  /** Offsets strictly increase and no attribute overlaps a later one. */
  ghost predicate Disjoint(attrs: seq<VertexAttribute>) {
    forall i, j :: 0 <= i < j < |attrs| ==> attrs[i].offset < attrs[i].End() <= attrs[j].offset
  }

  /** Every attribute lies inside `[0, stride)`. */
  ghost predicate WithinStride(l: VertexBufferLayout) {
    forall i :: 0 <= i < |l.attributes| ==> l.attributes[i].End() <= l.arrayStride
  }

  /** Byte `b` belongs to some attribute. */
  ghost predicate CoveredAt(attrs: seq<VertexAttribute>, b: int) {
    exists i :: 0 <= i < |attrs| && attrs[i].offset <= b < attrs[i].End()
  }

  /** Every byte of `[0, stride)` belongs to some attribute. */
  ghost predicate Covers(l: VertexBufferLayout) {
    forall b :: 0 <= b < l.arrayStride ==> CoveredAt(l.attributes, b)
  }

  /** No two attributes share a shader location. */
  predicate DistinctLocations(attrs: seq<VertexAttribute>) {
    forall i, j :: 0 <= i < j < |attrs| ==> attrs[i].shaderLocation != attrs[j].shaderLocation
  }

  lemma {:induction false} PackedFromTiles(attrs: seq<VertexAttribute>, start: nat, stop: nat)
    requires PackedFrom(attrs, start, stop)
    ensures Disjoint(attrs)
    ensures start <= stop
    ensures forall i :: 0 <= i < |attrs| ==> start <= attrs[i].offset && attrs[i].End() <= stop
    ensures forall b :: start <= b < stop ==> CoveredAt(attrs, b)
    decreases |attrs|
  {
    if attrs != [] {
      var rest := attrs[1..];
      PackedFromTiles(rest, attrs[0].End(), stop);
      forall i, j | 0 <= i < j < |attrs|
        ensures attrs[i].offset < attrs[i].End() <= attrs[j].offset
      {
        if i > 0 {
          assert rest[i - 1] == attrs[i] && rest[j - 1] == attrs[j];
        } else {
          assert rest[j - 1] == attrs[j];
        }
      }
      forall i | 0 <= i < |attrs|
        ensures start <= attrs[i].offset && attrs[i].End() <= stop
      {
        if i > 0 { assert rest[i - 1] == attrs[i]; }
      }
      forall b | start <= b < stop
        ensures CoveredAt(attrs, b)
      {
        if b < attrs[0].End() {
          assert attrs[0].offset <= b < attrs[0].End();
        } else {
          assert CoveredAt(rest, b);
          var k :| 0 <= k < |rest| && rest[k].offset <= b < rest[k].End();
          assert attrs[k + 1] == rest[k];
        }
      }
    }
  }

  /**
   * A packed layout tiles one buffer element exactly: the attributes are in
   * increasing order, do not overlap, stay inside the stride and leave no gap.
   */
  lemma PackedLayoutTiles(l: VertexBufferLayout)
    requires Packed(l)
    ensures Disjoint(l.attributes) && WithinStride(l) && Covers(l)
  {
    PackedFromTiles(l.attributes, 0, l.arrayStride);
  }
}
