/** Inverse warping of a source image by a dense flow field: every target
    pixel (h, w) is read from the source at (w, h) plus its flow vector. */
module Warp {
  import opened Tensors
  import opened Grid
  import opened Sampler

  /** The sample coordinates [B, H, W, 2]: the channels-last pixel grid
      plus the flow. */
  function WarpCoords(src: Tensor<real>, flow: Tensor<real>): (coords: Tensor<real>)
    requires src.Valid() && flow.Valid()
    requires flow.d0 == src.d0 && flow.d1 == src.d1 && flow.d2 == src.d2 && flow.d3 == 2
    ensures coords.Valid() && coords.d0 == src.d0 && coords.d1 == src.d1 && coords.d2 == src.d2 && coords.d3 == 2
    ensures forall b: nat, h: nat, w: nat :: b < src.d0 && h < src.d1 && w < src.d2 ==>
              && coords.At(b, h, w, 0) == w as real + flow.At(b, h, w, 0)
              && coords.At(b, h, w, 1) == h as real + flow.At(b, h, w, 1)
  {
    var grid := Transpose0231(Meshgrid(src.d0, src.d1, src.d2, false));
    var coords := Build4(src.d0, src.d1, src.d2, 2,
      (b: nat, h: nat, w: nat, k: nat) requires flow.InBounds(b, h, w, k) =>
        grid.At(b, h, w, k) + flow.At(b, h, w, k));
    assert forall b: nat, h: nat, w: nat :: b < src.d0 && h < src.d1 && w < src.d2 ==>
             && coords.At(b, h, w, 0) == w as real + flow.At(b, h, w, 0)
             && coords.At(b, h, w, 1) == h as real + flow.At(b, h, w, 1) by {
      forall b: nat, h: nat, w: nat | b < src.d0 && h < src.d1 && w < src.d2
        ensures coords.At(b, h, w, 0) == w as real + flow.At(b, h, w, 0)
        ensures coords.At(b, h, w, 1) == h as real + flow.At(b, h, w, 1)
      {
        assert grid.InBounds(b, h, w, 0) && grid.InBounds(b, h, w, 1);
        assert grid.At(b, h, w, 0) == w as real;
        assert grid.At(b, h, w, 1) == h as real;
      }
    }
    coords
  }

  /** The source image warped by the flow: target pixel (h, w) is the
      bilinear interpolation of the source at (w + dx, h + dy). */
  function FlowWarp(src: Tensor<real>, flow: Tensor<real>): (out: Tensor<real>)
    requires src.Valid() && flow.Valid() && 1 <= src.d1 && 1 <= src.d2
    requires flow.d0 == src.d0 && flow.d1 == src.d1 && flow.d2 == src.d2 && flow.d3 == 2
    ensures out.Valid() && out.d0 == src.d0 && out.d1 == src.d1 && out.d2 == src.d2 && out.d3 == src.d3
    ensures forall b: nat, h: nat, w: nat, c: nat :: out.InBounds(b, h, w, c) ==>
              out.At(b, h, w, c)
              == Bilinear(src, b, w as real + flow.At(b, h, w, 0), h as real + flow.At(b, h, w, 1), c)
  {
    BilinearSampler(src, WarpCoords(src, flow))
  }

  /** With zero flow the warp copies the source, except that the last row
      and the last column come out as 0. */
  lemma ZeroFlowCopiesSource(src: Tensor<real>, flow: Tensor<real>, b: nat, h: nat, w: nat, c: nat)
    requires src.Valid() && flow.Valid() && 1 <= src.d1 && 1 <= src.d2
    requires flow.d0 == src.d0 && flow.d1 == src.d1 && flow.d2 == src.d2 && flow.d3 == 2
    requires forall b': nat, h': nat, w': nat, k: nat ::
               flow.InBounds(b', h', w', k) ==> flow.At(b', h', w', k) == 0.0
    requires src.InBounds(b, h, w, c)
    ensures FlowWarp(src, flow).At(b, h, w, c)
            == if h < src.d1 - 1 && w < src.d2 - 1 then src.At(b, h, w, c) else 0.0
  {
    var out := FlowWarp(src, flow);
    assert flow.InBounds(b, h, w, 0) && flow.InBounds(b, h, w, 1);
    assert flow.At(b, h, w, 0) == 0.0 && flow.At(b, h, w, 1) == 0.0;
    assert out.InBounds(b, h, w, c);
    SampleAtPixel(src, b, w, h, c);
  }
}
