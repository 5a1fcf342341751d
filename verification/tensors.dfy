/** Dense four-axis tensors stored row-major in a flat sequence, with the
    index arithmetic that every reshape, transpose and gather relies on. */
module Tensors {

  /** Flat offset of element (i0, i1, i2, i3) of a row-major tensor whose
      trailing axes have sizes d1, d2, d3 (the leading size does not enter). */
  function Index4(i0: nat, i1: nat, i2: nat, i3: nat, d1: nat, d2: nat, d3: nat): nat
  {
    ((i0 * d1 + i1) * d2 + i2) * d3 + i3
  }

  /** Flat offset of element (i, k) of a row-major matrix with n columns. */
  function Index2(i: nat, k: nat, n: nat): nat
  {
    i * n + k
  }

  /** i * d + j stays below n * d when i < n and j < d. */
  lemma MulAddBound(i: nat, n: nat, j: nat, d: nat)
    requires i < n && j < d
    ensures i * d + j < n * d
  {
    assert (i + 1) * d == i * d + d;
    assert (i + 1) * d <= n * d by { MulMonotone(i + 1, n, d); }
  }

  lemma MulMonotone(a: nat, b: nat, d: nat)
    requires a <= b
    ensures a * d <= b * d
  {
    assert b * d == a * d + (b - a) * d;
  }

  /** Euclidean division of q * d + r by d, with r a valid remainder, gives
      back q and r. */
  lemma DivModOfMulAdd(q: nat, d: nat, r: nat)
    requires r < d
    ensures (q * d + r) / d == q && (q * d + r) % d == r
  {
    var n := q * d + r;
    var q', r' := n / d, n % d;
    assert n == q' * d + r';
    assert (q' + 1) * d == q' * d + d;
    assert (q + 1) * d == q * d + d;
    if q' < q {
      MulMonotone(q' + 1, q, d);
      assert false;
    } else if q < q' {
      MulMonotone(q + 1, q', d);
      assert false;
    }
  }

  /** An index below n * d has quotient below n. */
  lemma DivBelow(i: nat, n: nat, d: nat)
    requires i < n * d
    ensures d > 0 && i / d < n
  {
    if i / d >= n {
      MulMonotone(n, i / d, d);
      assert false;
    }
  }

  /** Every in-range index tuple addresses a cell of the flat storage. */
  lemma Index4InRange(i0: nat, i1: nat, i2: nat, i3: nat, d0: nat, d1: nat, d2: nat, d3: nat)
    requires i0 < d0 && i1 < d1 && i2 < d2 && i3 < d3
    ensures Index4(i0, i1, i2, i3, d1, d2, d3) < d0 * d1 * d2 * d3
  {
    MulAddBound(i0, d0, i1, d1);
    MulAddBound(i0 * d1 + i1, d0 * d1, i2, d2);
    MulAddBound((i0 * d1 + i1) * d2 + i2, d0 * d1 * d2, i3, d3);
  }

  /** The index tuple of a flat offset: the inverse of Index4. */
  function Decode4(i: nat, d0: nat, d1: nat, d2: nat, d3: nat): (c: (nat, nat, nat, nat))
    requires i < d0 * d1 * d2 * d3
    ensures c.0 < d0 && c.1 < d1 && c.2 < d2 && c.3 < d3
    ensures Index4(c.0, c.1, c.2, c.3, d1, d2, d3) == i
  {
    DivBelow(i, d0 * d1 * d2, d3);
    var q3 := i / d3;
    DivBelow(q3, d0 * d1, d2);
    var q2 := q3 / d2;
    DivBelow(q2, d0, d1);
    (q2 / d1, q2 % d1, q3 % d2, i % d3)
  }

  /** Decoding the offset of an in-range tuple gives the tuple back. */
  lemma {:induction false} DecodeIndex4(i0: nat, i1: nat, i2: nat, i3: nat, d0: nat, d1: nat, d2: nat, d3: nat)
    requires i0 < d0 && i1 < d1 && i2 < d2 && i3 < d3
    ensures Index4(i0, i1, i2, i3, d1, d2, d3) < d0 * d1 * d2 * d3
    ensures Decode4(Index4(i0, i1, i2, i3, d1, d2, d3), d0, d1, d2, d3) == (i0, i1, i2, i3)
  {
    Index4InRange(i0, i1, i2, i3, d0, d1, d2, d3);
    DivModOfMulAdd((i0 * d1 + i1) * d2 + i2, d3, i3);
    DivModOfMulAdd(i0 * d1 + i1, d2, i2);
    DivModOfMulAdd(i0, d1, i1);
  }

  /** Folding the last two axes into one (a [B, C, H, W] tensor read as
      [B, C, H*W]) keeps every element at the same flat offset. */
  lemma MergeTrailingAxes(i0: nat, i1: nat, i2: nat, i3: nat, d1: nat, d2: nat, d3: nat)
    ensures Index4(i0, i1, i2, i3, d1, d2, d3) == (i0 * d1 + i1) * (d2 * d3) + (i2 * d3 + i3)
  {
    var p := i0 * d1 + i1;
    assert (p * d2 + i2) * d3 == p * (d2 * d3) + i2 * d3;
  }

  /** A tensor with explicit shape [d0, d1, d2, d3]. */
  datatype Tensor<T> = Tensor(d0: nat, d1: nat, d2: nat, d3: nat, data: seq<T>)
  {
    predicate Valid()
    {
      |data| == d0 * d1 * d2 * d3
    }

    predicate InBounds(i0: nat, i1: nat, i2: nat, i3: nat)
    {
      i0 < d0 && i1 < d1 && i2 < d2 && i3 < d3
    }

    function At(i0: nat, i1: nat, i2: nat, i3: nat): T
      requires Valid() && InBounds(i0, i1, i2, i3)
    {
      Index4InRange(i0, i1, i2, i3, d0, d1, d2, d3);
      data[Index4(i0, i1, i2, i3, d1, d2, d3)]
    }
  }

  /** The tensor of shape [d0, d1, d2, d3] whose element at every index tuple
      is f of that tuple. */
  function Build4<T>(d0: nat, d1: nat, d2: nat, d3: nat, f: (nat, nat, nat, nat) --> T): (t: Tensor<T>)
    requires forall i0: nat, i1: nat, i2: nat, i3: nat
               :: i0 < d0 && i1 < d1 && i2 < d2 && i3 < d3 ==> f.requires(i0, i1, i2, i3)
    ensures t.Valid() && t.d0 == d0 && t.d1 == d1 && t.d2 == d2 && t.d3 == d3
    ensures forall i0: nat, i1: nat, i2: nat, i3: nat
              :: t.InBounds(i0, i1, i2, i3) ==> t.At(i0, i1, i2, i3) == f(i0, i1, i2, i3)
  {
    var n := d0 * d1 * d2 * d3;
    var data := seq(n, i requires 0 <= i < n => var c := Decode4(i, d0, d1, d2, d3); f(c.0, c.1, c.2, c.3));
    var t := Tensor(d0, d1, d2, d3, data);
    Build4Elements(t, f);
    t
  }

  lemma Build4Elements<T>(t: Tensor<T>, f: (nat, nat, nat, nat) --> T)
    requires forall i0: nat, i1: nat, i2: nat, i3: nat
               :: t.InBounds(i0, i1, i2, i3) ==> f.requires(i0, i1, i2, i3)
    requires t.Valid()
    requires forall i: nat :: i < |t.data| ==>
               var c := Decode4(i, t.d0, t.d1, t.d2, t.d3);
               f.requires(c.0, c.1, c.2, c.3) && t.data[i] == f(c.0, c.1, c.2, c.3)
    ensures forall i0: nat, i1: nat, i2: nat, i3: nat
              :: t.InBounds(i0, i1, i2, i3) ==> t.At(i0, i1, i2, i3) == f(i0, i1, i2, i3)
  {
    forall i0: nat, i1: nat, i2: nat, i3: nat | t.InBounds(i0, i1, i2, i3)
      ensures t.At(i0, i1, i2, i3) == f(i0, i1, i2, i3)
    {
      DecodeIndex4(i0, i1, i2, i3, t.d0, t.d1, t.d2, t.d3);
    }
  }

  /** The axis permutation [0, 2, 3, 1]: a channels-first [B, C, H, W]
      tensor re-laid out channels-last as [B, H, W, C]. */
  function Transpose0231<T>(t: Tensor<T>): (r: Tensor<T>)
    requires t.Valid()
    ensures r.Valid() && r.d0 == t.d0 && r.d1 == t.d2 && r.d2 == t.d3 && r.d3 == t.d1
    ensures forall b: nat, h: nat, w: nat, c: nat
              :: r.InBounds(b, h, w, c) ==> r.At(b, h, w, c) == t.At(b, c, h, w)
  {
    Build4(t.d0, t.d2, t.d3, t.d1,
           (b: nat, h: nat, w: nat, c: nat) requires t.InBounds(b, c, h, w) => t.At(b, c, h, w))
  }
}
