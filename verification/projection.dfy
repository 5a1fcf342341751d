/** Pixel-to-ground-plane back-projection and camera-to-pixel projection,
    both with epsilon-guarded divisions. */
module Projection {
  import opened Tensors
  import opened Matrices

  /** The guard added to every denominator, 1e-10. */
  const Epsilon: real := 0.0000000001

  /** The divisor that turns y_u into the ground-plane scale y_u / -1.65. */
  const PlaneDivisor: real := -1.65

  /** A quotient as floating-point division yields it: a finite value, or
      an infinity or NaN when the denominator is exactly zero. */
  datatype Guarded = Finite(value: real) | NonFinite

  /** a / d: finite exactly when d is not zero, and then multiplying back
      by d recovers a. */
  function Quot(a: real, d: real): (q: Guarded)
    ensures q.Finite? <==> d != 0.0
    ensures q.Finite? ==> q.value * d == a
  {
    if d == 0.0 then NonFinite else Finite(a / d)
  }

  /** One matrix of size n x n per batch element. */
  predicate BatchOfMatrices(ms: seq<seq<seq<real>>>, batch: nat, n: nat)
  {
    |ms| == batch && forall b :: 0 <= b < batch ==> IsMatrix(ms[b], n, n)
  }

  /** Channels 0 .. n-1 of cell (h, w) of batch element b of a
      channels-first tensor: column h*W + w of the [B, C, H*W] view. */
  function Channels(t: Tensor<real>, b: nat, h: nat, w: nat, n: nat): (v: seq<real>)
    requires t.Valid() && b < t.d0 && h < t.d2 && w < t.d3 && n <= t.d1
    ensures |v| == n && forall k :: 0 <= k < n ==> v[k] == t.At(b, k, h, w)
  {
    seq(n, k requires 0 <= k < n => t.At(b, k, h, w))
  }

  /** The plane coordinates (x_n, y_n, z_n) of one unnormalised ray
      u = K^-1 p: u divided by its ground-plane scale y_u / -1.65 plus
      epsilon. All three share one denominator, so they are finite
      together; the point lies on the ray through u, and its height misses
      the ground plane y = -1.65 only by the epsilon term. */
  function BackProject(u: seq<real>): (n: seq<Guarded>)
    requires |u| == 3
    ensures |n| == 3
    ensures forall k :: 0 <= k < 3 ==> (n[k].Finite? <==> u[1] / PlaneDivisor + Epsilon != 0.0)
    ensures forall k :: 0 <= k < 3 && n[k].Finite? ==>
              n[k].value * (u[1] / PlaneDivisor + Epsilon) == u[k]
    ensures n[1].Finite? ==>
              n[1].value - PlaneDivisor == -PlaneDivisor * Epsilon / (u[1] / PlaneDivisor + Epsilon)
  {
    var la := u[1] / PlaneDivisor;
    var n := [Quot(u[0], la + Epsilon), Quot(u[1], la + Epsilon), Quot(u[2], la + Epsilon)];
    PlaneHeight(u[1], la);
    n
  }

  lemma PlaneHeight(yu: real, la: real)
    requires la == yu / PlaneDivisor
    ensures la + Epsilon != 0.0 ==>
              yu / (la + Epsilon) - PlaneDivisor == -PlaneDivisor * Epsilon / (la + Epsilon)
  {
    if la + Epsilon != 0.0 {
      var d := la + Epsilon;
      assert yu == PlaneDivisor * la;
      assert yu - PlaneDivisor * d == -PlaneDivisor * Epsilon;
      assert yu / d - PlaneDivisor == (yu - PlaneDivisor * d) / d;
    }
  }

  /** The unnormalised ray K^-1 p of pixel (h, w) of batch element b. */
  function Ray(pix: Tensor<real>, kinv: seq<seq<seq<real>>>, b: nat, h: nat, w: nat): (u: seq<real>)
    requires pix.Valid() && pix.d1 == 3 && BatchOfMatrices(kinv, pix.d0, 3)
    requires b < pix.d0 && h < pix.d2 && w < pix.d3
    ensures |u| == 3
  {
    MatVec(kinv[b], Channels(pix, b, h, w, 3))
  }

  /** Ground-plane coordinates [B, 3 or 4, H, W] and the y_n plane
      [B, 1, H, W] (the layout of the [B, 1, H*W] tensor). */
  datatype PlaneCoords = PlaneCoords(coords: Tensor<Guarded>, yn: Tensor<Guarded>)

  /** Back-projects every pixel of a homogeneous grid [B, 3, H, W] with the
      inverse intrinsics of its batch element; channel 3, when requested,
      is all ones, and y_n repeats channel 1. */
  function Pixel2Cam(pix: Tensor<real>, kinv: seq<seq<seq<real>>>, homogeneous: bool): (r: PlaneCoords)
    requires pix.Valid() && pix.d1 == 3 && BatchOfMatrices(kinv, pix.d0, 3)
    ensures r.coords.Valid() && r.coords.d0 == pix.d0 && r.coords.d1 == (if homogeneous then 4 else 3)
    ensures r.coords.d2 == pix.d2 && r.coords.d3 == pix.d3
    ensures r.yn.Valid() && r.yn.d0 == pix.d0 && r.yn.d1 == 1 && r.yn.d2 == pix.d2 && r.yn.d3 == pix.d3
    ensures forall b: nat, k: nat, h: nat, w: nat :: r.coords.InBounds(b, k, h, w) ==>
              r.coords.At(b, k, h, w) == if k < 3 then BackProject(Ray(pix, kinv, b, h, w))[k] else Finite(1.0)
    ensures forall b: nat, h: nat, w: nat :: r.yn.InBounds(b, 0, h, w) ==>
              r.yn.At(b, 0, h, w) == r.coords.At(b, 1, h, w)
  {
    var coords := Build4(pix.d0, if homogeneous then 4 else 3, pix.d2, pix.d3,
      (b: nat, k: nat, h: nat, w: nat) requires b < pix.d0 && h < pix.d2 && w < pix.d3 =>
        if k < 3 then BackProject(Ray(pix, kinv, b, h, w))[k] else Finite(1.0));
    var yn := Build4(pix.d0, 1, pix.d2, pix.d3,
      (b: nat, k: nat, h: nat, w: nat) requires b < pix.d0 && h < pix.d2 && w < pix.d3 =>
        BackProject(Ray(pix, kinv, b, h, w))[1]);
    assert forall b: nat, h: nat, w: nat :: yn.InBounds(b, 0, h, w) ==>
             yn.At(b, 0, h, w) == coords.At(b, 1, h, w) by {
      forall b: nat, h: nat, w: nat | yn.InBounds(b, 0, h, w)
        ensures yn.At(b, 0, h, w) == coords.At(b, 1, h, w)
      {
        assert coords.InBounds(b, 1, h, w);
      }
    }
    PlaneCoords(coords, yn)
  }

  /** The pixel coordinates (x_u / (z_u + eps), y_u / (z_u + eps)) of one
      projected point v = proj * c: finite exactly when the guarded depth
      is not zero, and then rescaling by it recovers x_u and y_u. */
  function Project(v: seq<real>): (p: seq<Guarded>)
    requires |v| >= 3
    ensures |p| == 2
    ensures forall k :: 0 <= k < 2 ==> (p[k].Finite? <==> v[2] + Epsilon != 0.0)
    ensures forall k :: 0 <= k < 2 && p[k].Finite? ==> p[k].value * (v[2] + Epsilon) == v[k]
  {
    [Quot(v[0], v[2] + Epsilon), Quot(v[1], v[2] + Epsilon)]
  }

  /** Projects every cell of camera coordinates [B, 4, H, W] with the
      4 x 4 matrix of its batch element and returns the channels-last
      pixel coordinates [B, H, W, 2]. */
  function Cam2Pixel(cam: Tensor<real>, proj: seq<seq<seq<real>>>): (out: Tensor<Guarded>)
    requires cam.Valid() && cam.d1 == 4 && BatchOfMatrices(proj, cam.d0, 4)
    ensures out.Valid() && out.d0 == cam.d0 && out.d1 == cam.d2 && out.d2 == cam.d3 && out.d3 == 2
    ensures forall b: nat, h: nat, w: nat, k: nat :: out.InBounds(b, h, w, k) ==>
              out.At(b, h, w, k) == Project(MatVec(proj[b], Channels(cam, b, h, w, 4)))[k]
  {
    var stacked := Build4(cam.d0, 2, cam.d2, cam.d3,
      (b: nat, k: nat, h: nat, w: nat) requires b < cam.d0 && k < 2 && h < cam.d2 && w < cam.d3 =>
        Project(MatVec(proj[b], Channels(cam, b, h, w, 4)))[k]);
    Transpose0231(stacked)
  }
}
