/**
 * Plain-old-data byte casting, the part of `bytemuck` the renderer relies on:
 * `cast_slice` turns a slice of fixed-size values into their packed bytes.
 * Values are laid out little-endian, as on every target wgpu runs on here.
 * Floating-point numbers are only ever copied, so an `f32` is kept as its bit pattern.
 */
module Bytes {

  type byte = x: int | 0 <= x < 256
  type u32 = x: int | 0 <= x < 0x1_0000_0000

  /** The IEEE-754 bit pattern of a single-precision float. */
  type f32 = u32

  /** Size in bytes of one `f32` (and of one `u32`). */
  const F32Size: nat := 4

  /** The four little-endian bytes of a `u32`. */
  function LeBytes(x: u32): (b: seq<byte>)
    ensures |b| == 4
  {
    [x % 256, (x / 256) % 256, (x / 65536) % 256, x / 16777216]
  }

  /** The `u32` whose little-endian bytes are `b`. */
  function FromLeBytes(b: seq<byte>): (x: u32)
    requires |b| == 4
  {
    b[0] as int + 256 * (b[1] as int) + 65536 * (b[2] as int) + 16777216 * (b[3] as int)
  }

  lemma LeBytesRoundTrip(x: u32)
    ensures FromLeBytes(LeBytes(x)) == x
  {
    var b := LeBytes(x);
    assert x == b[0] as int + 256 * ((x / 256) % 256) + 65536 * (x / 65536);
    assert x / 65536 == b[2] as int + 256 * (b[3] as int);
  }

  lemma FromLeBytesRoundTrip(b: seq<byte>)
    requires |b| == 4
    ensures LeBytes(FromLeBytes(b)) == b
  {
    var x := FromLeBytes(b);
    assert x / 256 == b[1] as int + 256 * (b[2] as int) + 65536 * (b[3] as int);
    assert x / 65536 == b[2] as int + 256 * (b[3] as int);
    assert x / 16777216 == b[3];
  }

  /**
   * How a `Pod` type is laid out in memory: its size in bytes and the bytes of
   * each value (the `Pod` bound of `RenderVertex` in the source).
   */
  datatype Pod<!V(!new)> = Pod(size: nat, encode: V -> seq<byte>) {
    /** Every value occupies exactly `size` bytes, as `size_of::<V>()` promises. */
    ghost predicate WellFormed() {
      forall v: V :: |encode(v)| == size
    }
  }

  /**
   * `bytemuck::cast_slice`: the values' bytes, one value after the other;
   * `n` values of a `size`-byte type give `n * size` bytes.
   */
  function CastSlice<V(!new)>(p: Pod<V>, vs: seq<V>): (b: seq<byte>)
    ensures p.WellFormed() ==> |b| == |vs| * p.size
  {
    if vs == [] then []
    else
      MulSucc(|vs| - 1, p.size);
      p.encode(vs[0]) + CastSlice(p, vs[1..])
  }

  /** The layout of `u32` (index data and float bit patterns). */
  function U32Pod(): (p: Pod<u32>)
    ensures p.WellFormed() && p.size == 4
  {
    Pod(4, LeBytes)
  }

  /** Reads back a byte sequence as consecutive little-endian `u32`s. */
  function UnpackU32s(b: seq<byte>): (r: seq<u32>)
    requires |b| % 4 == 0
    ensures 4 * |r| == |b|
    decreases |b|
  {
    if b == [] then [] else [FromLeBytes(b[..4])] + UnpackU32s(b[4..])
  }

  lemma {:induction false} CastSliceAppend<V(!new)>(p: Pod<V>, xs: seq<V>, ys: seq<V>)
    ensures CastSlice(p, xs + ys) == CastSlice(p, xs) + CastSlice(p, ys)
  {
    if xs != [] {
      assert (xs + ys)[1..] == xs[1..] + ys;
      CastSliceAppend(p, xs[1..], ys);
    } else {
      assert xs + ys == ys;
    }
  }

  lemma MulSucc(i: nat, size: nat)
    ensures (i + 1) * size == i * size + size
  {
  }

  /** Value `i` of the slice occupies bytes `[i * size, (i + 1) * size)`. */
  lemma CastSliceChunk<V(!new)>(p: Pod<V>, vs: seq<V>, i: nat)
    requires p.WellFormed() && i < |vs|
    ensures |CastSlice(p, vs)| == |vs| * p.size
    ensures CastSlice(p, vs)[i * p.size .. (i + 1) * p.size] == p.encode(vs[i])
  {
    var before, after := vs[..i], vs[i + 1..];
    assert vs == before + [vs[i]] + after;
    CastSliceAppend(p, before + [vs[i]], after);
    CastSliceAppend(p, before, [vs[i]]);
    assert CastSlice(p, [vs[i]]) == p.encode(vs[i]) + CastSlice(p, []);
    var a := CastSlice(p, before);
    var m := p.encode(vs[i]);
    var c := CastSlice(p, after);
    assert CastSlice(p, vs) == a + m + c;
    MulSucc(i, p.size);
    assert (a + m + c)[|a| .. |a| + |m|] == m;
  }

  /** Unpacking the bytes of a `u32` slice gives the slice back. */
  lemma {:induction false} UnpackCastSlice(xs: seq<u32>)
    ensures |CastSlice(U32Pod(), xs)| == 4 * |xs|
    ensures UnpackU32s(CastSlice(U32Pod(), xs)) == xs
  {
    if xs != [] {
      var b := CastSlice(U32Pod(), xs);
      assert b[..4] == LeBytes(xs[0]);
      assert b[4..] == CastSlice(U32Pod(), xs[1..]);
      LeBytesRoundTrip(xs[0]);
      UnpackCastSlice(xs[1..]);
    }
  }

  /** Packing the `u32`s read from a byte sequence gives the bytes back. */
  lemma {:induction false} CastSliceUnpack(b: seq<byte>)
    requires |b| % 4 == 0
    ensures CastSlice(U32Pod(), UnpackU32s(b)) == b
    decreases |b|
  {
    if b != [] {
      FromLeBytesRoundTrip(b[..4]);
      CastSliceUnpack(b[4..]);
      assert UnpackU32s(b)[1..] == UnpackU32s(b[4..]);
      assert b == b[..4] + b[4..];
    }
  }
}
