/**
 * Views of the flat `Float32Array` geometry buffers that the renderer reads:
 * slot `i` of an item-size-3 attribute occupies indices `3i`, `3i+1`, `3i+2`.
 */
module Buffers {
  import opened Vectors

  ghost function Vec3At(buf: array<real>, i: nat): Vec3
    reads buf
    requires 3 * i + 2 < buf.Length
  {
    Vec3(buf[3 * i], buf[3 * i + 1], buf[3 * i + 2])
  }

  ghost function RgbAt(buf: array<real>, i: nat): Rgb
    reads buf
    requires 3 * i + 2 < buf.Length
  {
    Rgb(buf[3 * i], buf[3 * i + 1], buf[3 * i + 2])
  }

  /** Writes `v` into slot `i`; every other slot keeps its value. */
  method SetVec3(buf: array<real>, i: nat, v: Vec3)
    requires 3 * i + 2 < buf.Length
    modifies buf
    ensures Vec3At(buf, i) == v
    ensures forall k: nat :: 3 * k + 2 < buf.Length && k != i ==> Vec3At(buf, k) == old(Vec3At(buf, k))
  {
    buf[3 * i] := v.x;
    buf[3 * i + 1] := v.y;
    buf[3 * i + 2] := v.z;
  }

  /** Writes colour `c` into slot `i`; every other slot keeps its value. */
  method SetRgb(buf: array<real>, i: nat, c: Rgb)
    requires 3 * i + 2 < buf.Length
    modifies buf
    ensures RgbAt(buf, i) == c
    ensures forall k: nat :: 3 * k + 2 < buf.Length && k != i ==> RgbAt(buf, k) == old(RgbAt(buf, k))
  {
    buf[3 * i] := c.r;
    buf[3 * i + 1] := c.g;
    buf[3 * i + 2] := c.b;
  }
}
