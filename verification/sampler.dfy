/**
 * Equirectangular sampler: from unclamped panorama coordinates (u, v) to an
 * 8-bit RGB pixel by bilinear interpolation, with the two neighbour policies
 * of the two revisions of the tool:
 *   - Clamp (skybox_architect.py, ImageProcessor.remap_face): u is clipped to
 *     [0, W - 1.001], the "+1" neighbour is clipped to W - 1;
 *   - Wrap (jk2_skybox_creator.py, process_math): u is clipped to [0, W - 1],
 *     the "+1" neighbour is taken modulo W.
 * The mapping from a view direction to (u, v) (atan2, arcsin, square root) is
 * floating-point trigonometry and enters as a parameter (`Projection`).
 */
module Sampler {
  import opened Geometry

  type Channel = c: int | 0 <= c < 256

  datatype Rgb = Rgb(r: Channel, g: Channel, b: Channel)

  /** A decoded RGB panorama as numpy holds it: rows of equal width. */
  type Raster = p: seq<seq<Rgb>> | forall i :: 0 <= i < |p| ==> |p[i]| == |p[0]|

  /** A rendered face, row by row. */
  type Image = seq<seq<Rgb>>

  function Height(p: Raster): nat {
    |p|
  }

  function Width(p: Raster): nat {
    if |p| == 0 then 0 else |p[0]|
  }

  /** A panorama both revisions can sample; any other makes the aspect-ratio correction divide by zero. */
  predicate Samplable(p: Raster) {
    Width(p) >= 1 && Height(p) >= 1
  }

  function Min(a: real, b: real): real {
    if a <= b then a else b
  }

  function Max(a: real, b: real): real {
    if a >= b then a else b
  }

  /** numpy.clip: the lower bound first, then the upper one (so hi wins when lo > hi). */
  function Clip(c: real, lo: real, hi: real): real {
    Min(Max(c, lo), hi)
  }

  function ClipInt(i: int, lo: int, hi: int): int {
    if i < lo then lo else if i > hi then hi else i
  }

  /** numpy indexing: an index in [-n, n) names element i, or n + i when negative. */
  function PyIndex(i: int, n: nat): (k: nat)
    requires -(n as int) <= i < n
    ensures k < n && (k == i || k == n + i)
  {
    if i < 0 then n + i else i
  }

  /** Addressing along one axis: the two texel indices read, and the weight of the second. */
  datatype Tap = Tap(i0: int, i1: int, frac: real)

  /**
   * The clamp policy on an axis of n texels. Every index it produces is one
   * numpy accepts, and the two indices with the fraction reconstruct the
   * clipped coordinate. With n >= 2 no index is negative, the neighbour is the
   * next texel and both lie in bounds; with n == 1 the clip bound is -0.001,
   * the floor is -1, and numpy reads the single texel through index -1.
   */
  function ClampTap(c: real, n: nat): (t: Tap)
    requires n >= 1
    ensures -(n as int) <= t.i0 < n && 0 <= t.i1 < n
    ensures 0.0 <= t.frac < 1.0
    ensures t.i0 as real + t.frac == Clip(c, 0.0, n as real - 1.001)
    ensures n >= 2 ==> 0 <= t.i0 <= n - 2 && t.i1 == t.i0 + 1
  {
    var clipped := Clip(c, 0.0, n as real - 1.001);
    var i0 := clipped.Floor;
    Tap(i0, ClipInt(i0 + 1, 0, n - 1), clipped - i0 as real)
  }

  /**
   * The wrap policy on an axis of n texels. Both indices are in bounds, and
   * the neighbour is either the next texel or, only when the coordinate sits
   * exactly on the last texel, texel 0 with weight 0: the modulo wrap never
   * blends the first texel into the last.
   */
  function WrapTap(c: real, n: nat): (t: Tap)
    requires n >= 1
    ensures 0 <= t.i0 < n && 0 <= t.i1 < n
    ensures 0.0 <= t.frac < 1.0
    ensures t.i0 as real + t.frac == Clip(c, 0.0, n as real - 1.0)
    ensures t.i1 == t.i0 + 1 || (t.i1 == 0 && t.frac == 0.0)
  {
    var clipped := Clip(c, 0.0, n as real - 1.0);
    var i0 := clipped.Floor;
    assert 0 <= i0 < n;
    assert i0 + 1 == n ==> (i0 + 1) % n == 0 && clipped == i0 as real;
    assert i0 + 1 < n ==> (i0 + 1) % n == i0 + 1;
    Tap(i0, (i0 + 1) % n, clipped - i0 as real)
  }

  /** The neighbour policy of each revision. */
  datatype Policy = Clamp | Wrap

  function TapOf(policy: Policy, c: real, n: nat): (t: Tap)
    requires n >= 1
    ensures -(n as int) <= t.i0 < n && 0 <= t.i1 < n && 0.0 <= t.frac < 1.0
  {
    match policy
    case Clamp => ClampTap(c, n)
    case Wrap => WrapTap(c, n)
  }

  /** The bilinear weights of the texels p00, p01, p10, p11 for fractions du, dv. */
  function Weights(du: real, dv: real): (w: (real, real, real, real))
    requires 0.0 <= du <= 1.0 && 0.0 <= dv <= 1.0
    ensures w.0 >= 0.0 && w.1 >= 0.0 && w.2 >= 0.0 && w.3 >= 0.0
    ensures w.0 + w.1 + w.2 + w.3 == 1.0
  {
    assert (1.0 - du) * (1.0 - dv) + du * (1.0 - dv) == 1.0 - dv;
    assert (1.0 - du) * dv + du * dv == dv;
    ProductNonNegative(1.0 - du, 1.0 - dv);
    ProductNonNegative(du, 1.0 - dv);
    ProductNonNegative(1.0 - du, dv);
    ProductNonNegative(du, dv);
    ((1.0 - du) * (1.0 - dv), du * (1.0 - dv), (1.0 - du) * dv, du * dv)
  }

  lemma ProductNonNegative(a: real, b: real)
    requires a >= 0.0 && b >= 0.0
    ensures a * b >= 0.0
  {
    if a * b < 0.0 {
      assert false;
    }
  }

  function MinC(a: int, b: int): int {
    if a <= b then a else b
  }

  function MaxC(a: int, b: int): int {
    if a >= b then a else b
  }

  function Min4(a: int, b: int, c: int, d: int): int {
    MinC(MinC(a, b), MinC(c, d))
  }

  function Max4(a: int, b: int, c: int, d: int): int {
    MaxC(MaxC(a, b), MaxC(c, d))
  }

  /** The four values weighted by the four weights, in the order of the texels. */
  function Mix(a: real, b: real, c: real, d: real, w: (real, real, real, real)): real {
    a * w.0 + b * w.1 + c * w.2 + d * w.3
  }

  /** Shifting all four values by k shifts a mix with weights summing to 1 by k. */
  lemma MixShift(a: real, b: real, c: real, d: real, w: (real, real, real, real), k: real)
    requires w.0 + w.1 + w.2 + w.3 == 1.0
    ensures Mix(a, b, c, d, w) - k == Mix(a - k, b - k, c - k, d - k, w)
    ensures k - Mix(a, b, c, d, w) == Mix(k - a, k - b, k - c, k - d, w)
  {
    assert k * (w.0 + w.1 + w.2 + w.3) == k * w.0 + k * w.1 + k * w.2 + k * w.3;
  }

  /** Nonnegative values under nonnegative weights mix to a nonnegative value. */
  lemma MixNonNegative(a: real, b: real, c: real, d: real, w: (real, real, real, real))
    requires w.0 >= 0.0 && w.1 >= 0.0 && w.2 >= 0.0 && w.3 >= 0.0
    requires a >= 0.0 && b >= 0.0 && c >= 0.0 && d >= 0.0
    ensures Mix(a, b, c, d, w) >= 0.0
  {
    ProductNonNegative(a, w.0);
    ProductNonNegative(b, w.1);
    ProductNonNegative(c, w.2);
    ProductNonNegative(d, w.3);
  }

  /** A convex combination of four values in [lo, hi] lies in [lo, hi]. */
  lemma ConvexCombinationBounds(a: real, b: real, c: real, d: real, w: (real, real, real, real), lo: real, hi: real)
    requires w.0 >= 0.0 && w.1 >= 0.0 && w.2 >= 0.0 && w.3 >= 0.0
    requires w.0 + w.1 + w.2 + w.3 == 1.0
    requires lo <= a <= hi && lo <= b <= hi && lo <= c <= hi && lo <= d <= hi
    ensures lo <= Mix(a, b, c, d, w) <= hi
  {
    MixShift(a, b, c, d, w, lo);
    MixNonNegative(a - lo, b - lo, c - lo, d - lo, w);
    MixShift(a, b, c, d, w, hi);
    MixNonNegative(hi - a, hi - b, hi - c, hi - d, w);
  }

  /** The floor of a real between two integers lies between them. */
  lemma FloorWithin(x: real, lo: int, hi: int)
    requires lo as real <= x <= hi as real
    ensures lo <= x.Floor <= hi
  {
  }

  /**
   * One output channel: the weighted sum of the four texels' channel values,
   * cast to an unsigned byte (truncation, which is the floor on non-negative
   * values). It lies between the smallest and largest of the four texels, so
   * the cast never wraps.
   */
  function BlendChannel(c00: Channel, c01: Channel, c10: Channel, c11: Channel, du: real, dv: real): (c: Channel)
    requires 0.0 <= du <= 1.0 && 0.0 <= dv <= 1.0
    ensures Min4(c00, c01, c10, c11) <= c <= Max4(c00, c01, c10, c11)
  {
    var w := Weights(du, dv);
    var sum := Mix(c00 as real, c01 as real, c10 as real, c11 as real, w);
    var lo, hi := Min4(c00, c01, c10, c11), Max4(c00, c01, c10, c11);
    ConvexCombinationBounds(c00 as real, c01 as real, c10 as real, c11 as real, w, lo as real, hi as real);
    FloorWithin(sum, lo, hi);
    sum.Floor
  }

  /** The four texels a sample reads: rows v0, v1 and columns u0, u1. */
  datatype Quad = Quad(p00: Rgb, p01: Rgb, p10: Rgb, p11: Rgb)

  /** The texel at numpy indices (row, col). */
  function Texel(p: Raster, row: int, col: int): Rgb
    requires -(Height(p) as int) <= row < Height(p) && -(Width(p) as int) <= col < Width(p)
  {
    p[PyIndex(row, Height(p))][PyIndex(col, Width(p))]
  }

  function Neighbourhood(p: Raster, policy: Policy, u: real, v: real): Quad
    requires Samplable(p)
  {
    var a := TapOf(policy, u, Width(p));
    var b := TapOf(policy, v, Height(p));
    Quad(Texel(p, b.i0, a.i0), Texel(p, b.i0, a.i1), Texel(p, b.i1, a.i0), Texel(p, b.i1, a.i1))
  }

  /** Each channel of px lies between the smallest and largest value of that channel in q. */
  predicate WithinQuad(px: Rgb, q: Quad) {
    && Min4(q.p00.r, q.p01.r, q.p10.r, q.p11.r) <= px.r <= Max4(q.p00.r, q.p01.r, q.p10.r, q.p11.r)
    && Min4(q.p00.g, q.p01.g, q.p10.g, q.p11.g) <= px.g <= Max4(q.p00.g, q.p01.g, q.p10.g, q.p11.g)
    && Min4(q.p00.b, q.p01.b, q.p10.b, q.p11.b) <= px.b <= Max4(q.p00.b, q.p01.b, q.p10.b, q.p11.b)
  }

  /**
   * Bilinear sample of the panorama at (u, v) under a neighbour policy: every
   * texel read is in bounds, and each output channel stays within the range
   * of the four texels read.
   */
  function Sample(p: Raster, policy: Policy, u: real, v: real): (px: Rgb)
    requires Samplable(p)
    ensures WithinQuad(px, Neighbourhood(p, policy, u, v))
  {
    var q := Neighbourhood(p, policy, u, v);
    var du := TapOf(policy, u, Width(p)).frac;
    var dv := TapOf(policy, v, Height(p)).frac;
    Rgb(BlendChannel(q.p00.r, q.p01.r, q.p10.r, q.p11.r, du, dv),
        BlendChannel(q.p00.g, q.p01.g, q.p10.g, q.p11.g, du, dv),
        BlendChannel(q.p00.b, q.p01.b, q.p10.b, q.p11.b, du, dv))
  }

  /** A panorama whose every texel is c. */
  predicate Uniform(p: Raster, c: Rgb) {
    forall i, j :: 0 <= i < |p| && 0 <= j < |p[i]| ==> p[i][j] == c
  }

  /** Sampling a uniform panorama gives its colour, whatever the coordinates. */
  lemma {:induction false} UniformSample(p: Raster, c: Rgb, policy: Policy, u: real, v: real)
    requires Samplable(p) && Uniform(p, c)
    ensures Sample(p, policy, u, v) == c
  {
    var q := Neighbourhood(p, policy, u, v);
    assert q.p00 == c && q.p01 == c && q.p10 == c && q.p11 == c;
  }

  /**
   * The part of the projection that is floating-point trigonometry: the cosine
   * and sine of an offset given in degrees, and the mapping of a view
   * direction to unclamped panorama coordinates (u, v) for a W-by-H panorama.
   */
  datatype Projection = Projection(angle: real -> Angle, coords: (Vec3, nat, nat) -> (real, real))

  /** The colour of pixel (row y, column x) of a face rendered at the given size. */
  function FacePixel(p: Raster, policy: Policy, proj: Projection, face: Face, size: nat,
                     yaw: real, pitch: real, y: nat, x: nat): Rgb
    requires Samplable(p) && y < size && x < size
  {
    var d := Direction(face, size, y, x, proj.angle(pitch), proj.angle(yaw));
    var uv := proj.coords(d, Width(p), Height(p));
    Sample(p, policy, uv.0, uv.1)
  }

  /** A whole face: size rows of size pixels. */
  function RenderFace(p: Raster, policy: Policy, proj: Projection, face: Face, size: nat,
                      yaw: real, pitch: real): (img: Image)
    requires Samplable(p)
    ensures |img| == size && forall y :: 0 <= y < size ==> |img[y]| == size
  {
    seq(size, y requires 0 <= y < size =>
      seq(size, x requires 0 <= x < size => FacePixel(p, policy, proj, face, size, yaw, pitch, y, x)))
  }

  /** A uniform panorama renders to uniform faces of the same colour, for every face, offset and policy. */
  lemma UniformPanoramaUniformFace(p: Raster, c: Rgb, policy: Policy, proj: Projection, face: Face,
                                   size: nat, yaw: real, pitch: real)
    requires Samplable(p) && Uniform(p, c)
    ensures forall y, x :: 0 <= y < size && 0 <= x < size ==>
              RenderFace(p, policy, proj, face, size, yaw, pitch)[y][x] == c
  {
    forall y, x | 0 <= y < size && 0 <= x < size
      ensures RenderFace(p, policy, proj, face, size, yaw, pitch)[y][x] == c
    {
      var d := Direction(face, size, y, x, proj.angle(pitch), proj.angle(yaw));
      var uv := proj.coords(d, Width(p), Height(p));
      UniformSample(p, c, policy, uv.0, uv.1);
    }
  }
}
