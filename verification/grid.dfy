/** The pixel-coordinate grid: for every batch element, channel 0 holds the
    column index and channel 1 the row index of each cell, optionally
    followed by a channel of ones. */
module Grid {
  import opened Tensors

  /** Element i of linspace(start, stop, num). With a single point the
      sequence is [start]. */
  function Linspace(start: real, stop: real, num: nat, i: nat): real
    requires i < num
  {
    if num == 1 then start else start + (i as real) * (stop - start) / ((num - 1) as real)
  }

  /** The i-th of n points of a [-1, 1] linspace, remapped by
      (v + 1) * 0.5 * (n - 1): exactly the pixel index i. */
  function PixelCoord(i: nat, n: nat): (r: real)
    requires i < n
    ensures r == i as real
  {
    RemapIsIndex(i, n);
    (Linspace(-1.0, 1.0, n, i) + 1.0) * 0.5 * ((n - 1) as real)
  }

  lemma RemapIsIndex(i: nat, n: nat)
    requires i < n
    ensures (Linspace(-1.0, 1.0, n, i) + 1.0) * 0.5 * ((n - 1) as real) == i as real
  {
    if n > 1 {
      var m := (n - 1) as real;
      assert Linspace(-1.0, 1.0, n, i) + 1.0 == (i as real) * 2.0 / m;
      assert (i as real) * 2.0 / m * 0.5 * m == i as real;
    }
  }

  /** Channel ch of grid cell (h, w): the remapped column, the remapped row,
      or the homogeneous 1. */
  function GridCell(ch: nat, h: nat, w: nat, height: nat, width: nat): real
    requires h < height && w < width
  {
    if ch == 0 then PixelCoord(w, width) else if ch == 1 then PixelCoord(h, height) else 1.0
  }

  /** The [batch, 2 or 3, height, width] grid: cell (h, w) of every batch
      element holds (w, h), and 1 in the third channel when homogeneous. */
  function Meshgrid(batch: nat, height: nat, width: nat, homogeneous: bool): (g: Tensor<real>)
    ensures g.Valid()
    ensures g.d0 == batch && g.d1 == (if homogeneous then 3 else 2) && g.d2 == height && g.d3 == width
    ensures forall b: nat, h: nat, w: nat :: b < batch && h < height && w < width ==>
              && g.At(b, 0, h, w) == w as real
              && g.At(b, 1, h, w) == h as real
              && (homogeneous ==> g.At(b, 2, h, w) == 1.0)
  {
    var channels := if homogeneous then 3 else 2;
    var g := Build4(batch, channels, height, width,
      (b: nat, ch: nat, h: nat, w: nat) requires h < height && w < width => GridCell(ch, h, w, height, width));
    assert forall b: nat, h: nat, w: nat :: b < batch && h < height && w < width ==>
             && g.At(b, 0, h, w) == w as real
             && g.At(b, 1, h, w) == h as real
             && (homogeneous ==> g.At(b, 2, h, w) == 1.0) by {
      forall b: nat, h: nat, w: nat | b < batch && h < height && w < width
        ensures g.At(b, 0, h, w) == w as real && g.At(b, 1, h, w) == h as real
        ensures homogeneous ==> g.At(b, 2, h, w) == 1.0
      {
        assert g.InBounds(b, 0, h, w) && g.InBounds(b, 1, h, w);
        assert g.At(b, 0, h, w) == GridCell(0, h, w, height, width);
        assert g.At(b, 1, h, w) == GridCell(1, h, w, height, width);
        if homogeneous {
          assert g.InBounds(b, 2, h, w);
          assert g.At(b, 2, h, w) == GridCell(2, h, w, height, width);
        }
      }
    }
    g
  }

  /** Every batch element of the grid is the same copy. */
  lemma MeshgridBatchCopiesAgree(batch: nat, height: nat, width: nat, homogeneous: bool,
                                 b1: nat, b2: nat, ch: nat, h: nat, w: nat)
    requires b1 < batch && b2 < batch && ch < (if homogeneous then 3 else 2) && h < height && w < width
    ensures Meshgrid(batch, height, width, homogeneous).At(b1, ch, h, w)
            == Meshgrid(batch, height, width, homogeneous).At(b2, ch, h, w)
  {
    var g := Meshgrid(batch, height, width, homogeneous);
    assert g.InBounds(b1, ch, h, w) && g.InBounds(b2, ch, h, w);
  }
}
