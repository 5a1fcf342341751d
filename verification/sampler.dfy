/** The bilinear image sampler: reads a source image [B, Hs, Ws, C] at
    fractional (x, y) coordinates [B, Ht, Wt, 2] through four clamped
    neighbour gathers and four bilinear weights. */
module Sampler {
  import opened Tensors

  /** clip_by_value on an integer-valued coordinate: min(max(v, lo), hi). */
  function Clip(v: int, lo: int, hi: int): (r: int)
    requires lo <= hi
    ensures lo <= r <= hi
    ensures lo <= v <= hi ==> r == v
    ensures v < lo ==> r == lo
    ensures v > hi ==> r == hi
  {
    var m := if v < lo then lo else v;
    if m > hi then hi else m
  }

  /** The half-open window [0, size - 1) of coordinates along an axis of
      `size` pixels whose two integer neighbours both lie inside the image.
      The last pixel row and column are not in it. */
  predicate InWindow(x: real, size: int)
  {
    0.0 <= x < (size - 1) as real
  }

  /** One axis of a sample: the clamped neighbour indices (x0_safe,
      x1_safe) and the weights wt_0 = x1_safe - x and wt_1 = x - x0_safe. */
  datatype Axis = Axis(lo: int, hi: int, w0: real, w1: real)

  /** The neighbours and weights of coordinate x along an axis of `size`
      pixels. Both neighbours are valid indices; they differ by one exactly
      inside the window and coincide outside it, and the two weights always
      add up to that gap, so outside the window they cancel. Inside the
      window the weights are the distances to the two neighbours; below it
      both neighbours are pixel 0, above it both are the last pixel. */
  function AxisOf(x: real, size: int): (a: Axis)
    requires size >= 1
    ensures 0 <= a.lo <= a.hi <= size - 1
    ensures a.hi - a.lo == (if InWindow(x, size) then 1 else 0)
    ensures a.w0 + a.w1 == (a.hi - a.lo) as real
    ensures InWindow(x, size) ==>
              a.lo == x.Floor && a.hi == x.Floor + 1 && 0.0 < a.w0 <= 1.0 && 0.0 <= a.w1 < 1.0
    ensures InWindow(x, size) ==> a.w1 == x - x.Floor as real && a.w0 == 1.0 - a.w1
    ensures x < 0.0 ==> a.lo == 0 && a.hi == 0 && a.w0 == -x && a.w1 == x
    ensures x >= (size - 1) as real ==>
              a.lo == size - 1 && a.hi == size - 1 && a.w0 == (size - 1) as real - x && a.w1 == -a.w0
  {
    var x0 := x.Floor;
    var x1 := x0 + 1;
    var x0Safe := Clip(x0, 0, size - 1);
    var x1Safe := Clip(x1, 0, size - 1);
    Axis(x0Safe, x1Safe, x1Safe as real - x, x - x0Safe as real)
  }

  /** The flat row b*Hs*Ws + y*Ws + x of pixel (y, x) of batch b in the
      source image viewed as [B*Hs*Ws, C]; it lies in batch b's block. */
  function GatherIndex(b: nat, y: nat, x: nat, height: nat, width: nat): (idx: nat)
    requires y < height && x < width
    ensures b * (height * width) <= idx < (b + 1) * (height * width)
    ensures idx == Index4(0, b, y, x, 0, height, width)
  {
    MulAddBound(y, height, x, width);
    assert (b + 1) * (height * width) == b * (height * width) + height * width;
    b * (width * height) + y * width + x
  }

  /** The four gather indices of a sample at (x, y) in batch element b are
      all rows of the flattened [B*Hs*Ws, C] image. */
  lemma GatherIndicesInRange(x: real, y: real, b: nat, batch: nat, height: nat, width: nat)
    requires b < batch && 1 <= height && 1 <= width
    ensures var ax, ay := AxisOf(x, width), AxisOf(y, height);
            && GatherIndex(b, ay.lo, ax.lo, height, width) < batch * (height * width)
            && GatherIndex(b, ay.hi, ax.lo, height, width) < batch * (height * width)
            && GatherIndex(b, ay.lo, ax.hi, height, width) < batch * (height * width)
            && GatherIndex(b, ay.hi, ax.hi, height, width) < batch * (height * width)
  {
    MulMonotone(b + 1, batch, height * width);
  }

  /** _repeat(xs, n): every element of xs repeated n times in a row. */
  function Repeat(xs: seq<int>, n: nat): (r: seq<int>)
    ensures |r| == |xs| * n
    ensures forall i: nat, k: nat :: i < |xs| && k < n ==> Index2(i, k, n) < |r| && r[Index2(i, k, n)] == xs[i]
  {
    var len := |xs| * n;
    var r := seq(len, p requires 0 <= p < len => DivBelow(p, |xs|, n); xs[p / n]);
    RepeatBlocks(xs, n, r);
    r
  }

  lemma RepeatBlocks(xs: seq<int>, n: nat, r: seq<int>)
    requires |r| == |xs| * n
    requires forall p :: 0 <= p < |r| ==> n > 0 && p / n < |xs| && r[p] == xs[p / n]
    ensures forall i: nat, k: nat :: i < |xs| && k < n ==> Index2(i, k, n) < |r| && r[Index2(i, k, n)] == xs[i]
  {
    forall i: nat, k: nat | i < |xs| && k < n
      ensures Index2(i, k, n) < |r| && r[Index2(i, k, n)] == xs[i]
    {
      var p := Index2(i, k, n);
      MulAddBound(i, |xs|, k, n);
      assert p < |r|;
      DivModOfMulAdd(i, n, k);
      assert p / n == i;
      assert r[p] == xs[p / n];
    }
  }

  /** The base offsets the sampler adds to every target position: with
      xs = [0, dim1, 2*dim1, ...] repeated Ht*Wt times, target position
      (b, h, w) gets b * dim1, so each output pixel reads from its own batch
      element of the source. */
  lemma RepeatedBaseOfPosition(batch: nat, ht: nat, wt: nat, dim1: nat, b: nat, h: nat, w: nat)
    requires b < batch && h < ht && w < wt
    ensures Index4(0, b, h, w, batch, ht, wt) < |Repeat(seq(batch, i => i * dim1), ht * wt)|
    ensures Repeat(seq(batch, i => i * dim1), ht * wt)[Index4(0, b, h, w, batch, ht, wt)] == b * dim1
  {
    var xs := seq(batch, i => i * dim1);
    MergeTrailingAxes(0, b, h, w, batch, ht, wt);
    MulAddBound(h, ht, w, wt);
    assert Index4(0, b, h, w, batch, ht, wt) == Index2(b, h * wt + w, ht * wt);
  }

  /** Channel c of the gathered row: imgs_flat[idx][c]. It is source pixel
      (b, y, x) in channel c. */
  function Gather(img: Tensor<real>, b: nat, y: nat, x: nat, c: nat): (v: real)
    requires img.Valid() && img.InBounds(b, y, x, c)
    ensures v == img.At(b, y, x, c)
  {
    var idx := GatherIndex(b, y, x, img.d1, img.d2);
    assert idx * img.d3 + c == Index4(b, y, x, c, img.d1, img.d2, img.d3) by {
      MergeTrailingAxes(0, b, y, x, 0, img.d1, img.d2);
    }
    Index4InRange(b, y, x, c, img.d0, img.d1, img.d2, img.d3);
    img.data[idx * img.d3 + c]
  }

  /** One output value: the sampler's blend of the four gathered
      neighbours of (x, y) in batch element b, channel c. It is the
      reference interpolation, so it is exactly 0 whenever x < 0,
      x >= Ws - 1, y < 0 or y >= Hs - 1. */
  function Sample(img: Tensor<real>, b: nat, x: real, y: real, c: nat): (r: real)
    requires img.Valid() && b < img.d0 && 1 <= img.d1 && 1 <= img.d2 && c < img.d3
    ensures r == Bilinear(img, b, x, y, c)
    ensures !InWindow(x, img.d2) || !InWindow(y, img.d1) ==> r == 0.0
  {
    var ax := AxisOf(x, img.d2);
    var ay := AxisOf(y, img.d1);
    var im00 := Gather(img, b, ay.lo, ax.lo, c);
    var im01 := Gather(img, b, ay.hi, ax.lo, c);
    var im10 := Gather(img, b, ay.lo, ax.hi, c);
    var im11 := Gather(img, b, ay.hi, ax.hi, c);
    BlendIsBilinear(img, b, x, y, c);
    Blend(ax, ay, im00, im01, im10, im11)
  }

  /** w00 * im00 + w01 * im01 + w10 * im10 + w11 * im11 with w_ij the
      product of the x weight i and the y weight j. */
  function Blend(ax: Axis, ay: Axis, im00: real, im01: real, im10: real, im11: real): real
  {
    ax.w0 * ay.w0 * im00 + ax.w0 * ay.w1 * im01 + ax.w1 * ay.w0 * im10 + ax.w1 * ay.w1 * im11
  }

  /** Reference semantics: textbook bilinear interpolation between the four
      pixels around (x, y) when both coordinates lie in the window, and 0
      for every other point. */
  function Bilinear(img: Tensor<real>, b: nat, x: real, y: real, c: nat): real
    requires img.Valid() && b < img.d0 && c < img.d3
  {
    if !InWindow(x, img.d2) || !InWindow(y, img.d1) then 0.0
    else
      var i: nat := x.Floor;
      var j: nat := y.Floor;
      var fx := x - i as real;
      var fy := y - j as real;
      Interpolate(fx, fy, img.At(b, j, i, c), img.At(b, j + 1, i, c),
                  img.At(b, j, i + 1, c), img.At(b, j + 1, i + 1, c))
  }

  /** Textbook bilinear interpolation at fractional offsets (fx, fy) between
      p00 (top left), p01 (below it), p10 (right of it) and p11. */
  function Interpolate(fx: real, fy: real, p00: real, p01: real, p10: real, p11: real): real
  {
    (1.0 - fx) * (1.0 - fy) * p00 + (1.0 - fx) * fy * p01 + fx * (1.0 - fy) * p10 + fx * fy * p11
  }

  /** When the two x neighbours coincide, the x weights cancel and the
      blend vanishes. */
  lemma BlendVanishesX(ax: Axis, ay: Axis, a: real, b: real)
    requires ax.w0 + ax.w1 == 0.0
    ensures Blend(ax, ay, a, b, a, b) == 0.0
  {
    assert Blend(ax, ay, a, b, a, b) == (ax.w0 + ax.w1) * (ay.w0 * a + ay.w1 * b);
  }

  /** Likewise when the two y neighbours coincide. */
  lemma BlendVanishesY(ax: Axis, ay: Axis, a: real, b: real)
    requires ay.w0 + ay.w1 == 0.0
    ensures Blend(ax, ay, a, a, b, b) == 0.0
  {
    assert Blend(ax, ay, a, a, b, b) == (ay.w0 + ay.w1) * (ax.w0 * a + ax.w1 * b);
  }

  /** The blend of the four clamped neighbours of (x, y) is the reference
      interpolation: outside the window one pair of neighbours coincides
      and its weights cancel; inside it the weights are the fractional
      offsets. */
  lemma BlendIsBilinear(img: Tensor<real>, b: nat, x: real, y: real, c: nat)
    requires img.Valid() && b < img.d0 && 1 <= img.d1 && 1 <= img.d2 && c < img.d3
    ensures var ax, ay := AxisOf(x, img.d2), AxisOf(y, img.d1);
            Blend(ax, ay, img.At(b, ay.lo, ax.lo, c), img.At(b, ay.hi, ax.lo, c),
                  img.At(b, ay.lo, ax.hi, c), img.At(b, ay.hi, ax.hi, c))
            == Bilinear(img, b, x, y, c)
  {
    var ax, ay := AxisOf(x, img.d2), AxisOf(y, img.d1);
    var im00, im01 := img.At(b, ay.lo, ax.lo, c), img.At(b, ay.hi, ax.lo, c);
    var im10, im11 := img.At(b, ay.lo, ax.hi, c), img.At(b, ay.hi, ax.hi, c);
    if !InWindow(x, img.d2) {
      assert ax.lo == ax.hi;
      BlendVanishesX(ax, ay, im00, im01);
    } else if !InWindow(y, img.d1) {
      assert ay.lo == ay.hi;
      BlendVanishesY(ax, ay, im00, im10);
    } else {
      var i: nat := x.Floor;
      var j: nat := y.Floor;
      BlendOfFractions(ax, ay, x - i as real, y - j as real, im00, im01, im10, im11);
    }
  }

  lemma BlendOfFractions(ax: Axis, ay: Axis, fx: real, fy: real, p00: real, p01: real, p10: real, p11: real)
    requires ax.w0 == 1.0 - fx && ax.w1 == fx && ay.w0 == 1.0 - fy && ay.w1 == fy
    ensures Blend(ax, ay, p00, p01, p10, p11) == Interpolate(fx, fy, p00, p01, p10, p11)
  {
  }

  /** Inside the window the four weights w00, w01, w10, w11 are
      non-negative and add up to one. */
  lemma WindowWeightsAreConvex(x: real, y: real, width: int, height: int)
    requires width >= 1 && height >= 1 && InWindow(x, width) && InWindow(y, height)
    ensures var ax, ay := AxisOf(x, width), AxisOf(y, height);
            && 0.0 <= ax.w0 * ay.w0 && 0.0 <= ax.w0 * ay.w1
            && 0.0 <= ax.w1 * ay.w0 && 0.0 <= ax.w1 * ay.w1
            && ax.w0 * ay.w0 + ax.w0 * ay.w1 + ax.w1 * ay.w0 + ax.w1 * ay.w1 == 1.0
  {
    var ax, ay := AxisOf(x, width), AxisOf(y, height);
    ProductNonnegative(ax.w0, ay.w0);
    ProductNonnegative(ax.w0, ay.w1);
    ProductNonnegative(ax.w1, ay.w0);
    ProductNonnegative(ax.w1, ay.w1);
    assert ax.w0 * ay.w0 + ax.w0 * ay.w1 + ax.w1 * ay.w0 + ax.w1 * ay.w1
        == (ax.w0 + ax.w1) * (ay.w0 + ay.w1);
  }

  lemma ProductNonnegative(a: real, b: real)
    requires 0.0 <= a && 0.0 <= b
    ensures 0.0 <= a * b
  {
  }

  /** At integer coordinates the sampler returns the source pixel itself
      when it lies off the last row and column, and 0 when it lies on
      them or outside the image. */
  lemma SampleAtPixel(img: Tensor<real>, b: nat, i: int, j: int, c: nat)
    requires img.Valid() && b < img.d0 && 1 <= img.d1 && 1 <= img.d2 && c < img.d3
    ensures Sample(img, b, i as real, j as real, c)
            == if 0 <= i < img.d2 - 1 && 0 <= j < img.d1 - 1 then img.At(b, j, i, c) else 0.0
  {
    assert (i as real).Floor == i && (j as real).Floor == j;
  }

  /** The sampler over whole tensors: output pixel (b, h, w) in channel c
      is the reference interpolation of source batch element b at the
      coordinates stored at (b, h, w). */
  function BilinearSampler(imgs: Tensor<real>, coords: Tensor<real>): (out: Tensor<real>)
    requires imgs.Valid() && coords.Valid()
    requires 1 <= imgs.d1 && 1 <= imgs.d2 && coords.d0 <= imgs.d0 && coords.d3 == 2
    ensures out.Valid()
    ensures out.d0 == coords.d0 && out.d1 == coords.d1 && out.d2 == coords.d2 && out.d3 == imgs.d3
    ensures forall b: nat, h: nat, w: nat, c: nat :: out.InBounds(b, h, w, c) ==>
              out.At(b, h, w, c) == Bilinear(imgs, b, coords.At(b, h, w, 0), coords.At(b, h, w, 1), c)
  {
    var out := Build4(coords.d0, coords.d1, coords.d2, imgs.d3,
      (b: nat, h: nat, w: nat, c: nat) requires coords.InBounds(b, h, w, 0) && c < imgs.d3 =>
        Sample(imgs, b, coords.At(b, h, w, 0), coords.At(b, h, w, 1), c));
    out
  }
}
