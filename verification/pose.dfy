/** Rotation matrices from Euler angles and 4 x 4 rigid transforms from
    6-DoF pose vectors (tx, ty, tz, rx, ry, rz). */
module Pose {
  import opened Matrices

  /** The shortest decimal of the double nearest pi, used to clip the angles. */
  const Pi: real := 3.141592653589793

  /** Cosine and sine, supplied by the caller: the model treats them as
      uninterpreted functions. */
  datatype Trig = Trig(cos: real -> real, sin: real -> real)

  /** clip_by_value(a, -pi, pi). */
  function ClipAngle(a: real): (r: real)
    ensures -Pi <= r <= Pi
    ensures -Pi <= a <= Pi ==> r == a
    ensures a < -Pi ==> r == -Pi
    ensures a > Pi ==> r == Pi
  {
    var m := if a < -Pi then -Pi else a;
    if m > Pi then Pi else m
  }

  /** Rotation about the z axis with cosine c and sine s: the
      [c, -s; s, c] block in x/y. */
  function RotZ(c: real, s: real): seq<seq<real>>
  {
    [[c, -s, 0.0],
     [s, c, 0.0],
     [0.0, 0.0, 1.0]]
  }

  /** Rotation about the y axis: the [c, s; -s, c] block in x/z. */
  function RotY(c: real, s: real): seq<seq<real>>
  {
    [[c, 0.0, s],
     [0.0, 1.0, 0.0],
     [-s, 0.0, c]]
  }

  /** Rotation about the x axis: the [c, -s; s, c] block in y/z. */
  function RotX(c: real, s: real): seq<seq<real>>
  {
    [[1.0, 0.0, 0.0],
     [0.0, c, -s],
     [0.0, s, c]]
  }

  /** The rotation for Euler angles (z, y, x): each angle clipped to
      [-pi, pi], then Rx * Ry * Rz. It is the written-out rotation of the
      cosines and sines of the clipped angles. */
  function Euler2Mat(t: Trig, z: real, y: real, x: real): (r: seq<seq<real>>)
    ensures IsMatrix(r, 3, 3)
    ensures var zc, yc, xc := ClipAngle(z), ClipAngle(y), ClipAngle(x);
            r == XyzRotation(t.cos(zc), t.sin(zc), t.cos(yc), t.sin(yc), t.cos(xc), t.sin(xc))
  {
    var zc, yc, xc := ClipAngle(z), ClipAngle(y), ClipAngle(x);
    var zmat := RotZ(t.cos(zc), t.sin(zc));
    var ymat := RotY(t.cos(yc), t.sin(yc));
    var xmat := RotX(t.cos(xc), t.sin(xc));
    RotationProduct(t.cos(zc), t.sin(zc), t.cos(yc), t.sin(yc), t.cos(xc), t.sin(xc));
    MatMul(MatMul(xmat, ymat), zmat)
  }

  /** The product Rx * Ry * Rz written out entry by entry, from the
      cosines and sines of the three angles. */
  function XyzRotation(cz: real, sz: real, cy: real, sy: real, cx: real, sx: real): seq<seq<real>>
  {
    [[cy * cz, -cy * sz, sy],
     [sx * sy * cz + cx * sz, cx * cz - sx * sy * sz, -sx * cy],
     [sx * sz - cx * sy * cz, cx * sy * sz + sx * cz, cx * cy]]
  }

  lemma RotationProduct(cz: real, sz: real, cy: real, sy: real, cx: real, sx: real)
    ensures MatMul(MatMul(RotX(cx, sx), RotY(cy, sy)), RotZ(cz, sz)) == XyzRotation(cz, sz, cy, sy, cx, sx)
  {
    XyProduct(cy, sy, cx, sx);
    XyzProduct(cz, sz, cy, sy, cx, sx);
  }

  /** Rx * Ry written out. */
  function XyRotation(cy: real, sy: real, cx: real, sx: real): seq<seq<real>>
  {
    [[cy, 0.0, sy],
     [sx * sy, cx, -sx * cy],
     [-cx * sy, sx, cx * cy]]
  }

  lemma XyProduct(cy: real, sy: real, cx: real, sx: real)
    ensures MatMul(RotX(cx, sx), RotY(cy, sy)) == XyRotation(cy, sy, cx, sx)
  {
    MatMulEntries(RotX(cx, sx), RotY(cy, sy), XyRotation(cy, sy, cx, sx));
  }

  lemma XyzProduct(cz: real, sz: real, cy: real, sy: real, cx: real, sx: real)
    ensures MatMul(XyRotation(cy, sy, cx, sx), RotZ(cz, sz)) == XyzRotation(cz, sz, cy, sy, cx, sx)
  {
    var a, b, c := XyRotation(cy, sy, cx, sx), RotZ(cz, sz), XyzRotation(cz, sz, cy, sy, cx, sx);
    assert c[1][0] == a[1][0] * b[0][0] + a[1][1] * b[1][0] + a[1][2] * b[2][0];
    assert c[1][1] == a[1][0] * b[0][1] + a[1][1] * b[1][1] + a[1][2] * b[2][1];
    assert c[2][0] == a[2][0] * b[0][0] + a[2][1] * b[1][0] + a[2][2] * b[2][0];
    assert c[2][1] == a[2][0] * b[0][1] + a[2][1] * b[1][1] + a[2][2] * b[2][1];
    MatMulEntries(a, b, c);
  }

  /** A 3 x 3 product equals a given matrix once every entry does. */
  lemma MatMulEntries(a: seq<seq<real>>, b: seq<seq<real>>, c: seq<seq<real>>)
    requires IsMatrix(a, 3, 3) && IsMatrix(b, 3, 3) && IsMatrix(c, 3, 3)
    requires forall i, j :: 0 <= i < 3 && 0 <= j < 3 ==>
               c[i][j] == a[i][0] * b[0][j] + a[i][1] * b[1][j] + a[i][2] * b[2][j]
    ensures MatMul(a, b) == c
  {
    MatMul3(a, b);
    var m := MatMul(a, b);
    forall i | 0 <= i < 3
      ensures m[i] == c[i]
    {
    }
  }

  /** Angles beyond pi act as pi, angles below -pi as -pi, about each of
      the three axes. */
  lemma Euler2MatSaturates(t: Trig, z: real, y: real, x: real)
    ensures z >= Pi ==> Euler2Mat(t, z, y, x) == Euler2Mat(t, Pi, y, x)
    ensures z <= -Pi ==> Euler2Mat(t, z, y, x) == Euler2Mat(t, -Pi, y, x)
    ensures y >= Pi ==> Euler2Mat(t, z, y, x) == Euler2Mat(t, z, Pi, x)
    ensures y <= -Pi ==> Euler2Mat(t, z, y, x) == Euler2Mat(t, z, -Pi, x)
    ensures x >= Pi ==> Euler2Mat(t, z, y, x) == Euler2Mat(t, z, y, Pi)
    ensures x <= -Pi ==> Euler2Mat(t, z, y, x) == Euler2Mat(t, z, y, -Pi)
  {
  }

  /** The homogeneous transform [[R, t], [0, 0, 0, 1]] of a pose vector
      (tx, ty, tz, rx, ry, rz), with R = Euler2Mat(rz, ry, rx). */
  function PoseVec2Mat(t: Trig, vec: seq<real>): (m: seq<seq<real>>)
    requires |vec| == 6
    ensures IsMatrix(m, 4, 4)
    ensures m[3] == [0.0, 0.0, 0.0, 1.0]
    ensures forall i :: 0 <= i < 3 ==> m[i][3] == vec[i]
    ensures forall i, j :: 0 <= i < 3 && 0 <= j < 3 ==> m[i][j] == Euler2Mat(t, vec[5], vec[4], vec[3])[i][j]
  {
    var r := Euler2Mat(t, vec[5], vec[4], vec[3]);
    [r[0] + [vec[0]], r[1] + [vec[1]], r[2] + [vec[2]], [0.0, 0.0, 0.0, 1.0]]
  }

  /** The transform of a pose vector moves a homogeneous point (p, 1) to
      (R p + t, 1): rotate, then translate, and stay homogeneous. */
  lemma PoseActsRigidly(t: Trig, vec: seq<real>, p: seq<real>)
    requires |vec| == 6 && |p| == 3
    ensures var q := MatVec(PoseVec2Mat(t, vec), p + [1.0]);
            var rp := MatVec(Euler2Mat(t, vec[5], vec[4], vec[3]), p);
            q == [rp[0] + vec[0], rp[1] + vec[1], rp[2] + vec[2], 1.0]
  {
    var m := PoseVec2Mat(t, vec);
    var r := Euler2Mat(t, vec[5], vec[4], vec[3]);
    var ph := p + [1.0];
    var q := MatVec(m, ph);
    var rp := MatVec(r, p);
    forall i | 0 <= i < 3
      ensures q[i] == rp[i] + vec[i]
    {
      assert m[i] == r[i] + [vec[i]];
      RowActsAffinely(r[i], vec[i], p);
    }
    Dot4(m[3], ph);
  }

  /** A row [a, t] applied to (p, 1) is a . p + t. */
  lemma RowActsAffinely(a: seq<real>, tv: real, p: seq<real>)
    requires |a| == 3 && |p| == 3
    ensures Dot(a + [tv], p + [1.0]) == Dot(a, p) + tv
  {
    Dot4(a + [tv], p + [1.0]);
    Dot3(a, p);
  }

  function Identity(n: nat): (m: seq<seq<real>>)
    ensures IsMatrix(m, n, n)
  {
    seq(n, i => seq(n, j => if i == j then 1.0 else 0.0))
  }

  /** With cos 0 = 1 and sin 0 = 0, the zero pose vector gives the
      identity transform. */
  lemma ZeroPoseIsIdentity(t: Trig)
    requires t.cos(0.0) == 1.0 && t.sin(0.0) == 0.0
    ensures PoseVec2Mat(t, [0.0, 0.0, 0.0, 0.0, 0.0, 0.0]) == Identity(4)
  {
    var m := PoseVec2Mat(t, [0.0, 0.0, 0.0, 0.0, 0.0, 0.0]);
    var id := Identity(4);
    forall i | 0 <= i < 4
      ensures m[i] == id[i]
    {
    }
  }
}
