# Pixel geometry of the road-plane view-synthesis helpers

This project is a Dafny model of the pixel-geometry helpers in
`data/utils_road.py`. They form the image-warping half of an unsupervised
depth/pose/flow pipeline:

- the bilinear image sampler, together with its `_repeat` base-offset helper;
- the pixel grid (`meshgrid`) and flow-based inverse warping (`flow_warp`);
- 6-DoF pose vectors turned into 4 x 4 rigid transforms (`pose_vec2mat`,
  `euler2mat`);
- back-projection of pixels onto the ground plane 1.65 units below the camera
  (`pixel2cam`), and the perspective projection of camera points to pixels
  (`cam2pixel`).

Tensors are flat row-major sequences with four explicit dimensions
(`Tensors.Tensor`). Every reshape and transpose of the source becomes index
arithmetic on them, proved once through `Tensors.Decode4`. All arithmetic is
exact: `real` for values and `int` for indices.

The modules follow the source's structure:

| module | file | models |
|---|---|---|
| `Tensors` | tensors.dfy | flat four-dimensional tensors, reshape and transpose |
| `Matrices` | matrices.dfy | the small matrix products (`tf.matmul`) |
| `Sampler` | sampler.dfy | `bilinear_sampler` and `_repeat` |
| `Grid` | grid.dfy | `meshgrid` |
| `Warp` | warp.dfy | `flow_warp` |
| `Pose` | pose.dfy | `euler2mat`, `pose_vec2mat` |
| `Projection` | projection.dfy | `pixel2cam`, `cam2pixel` |

The central result is the contract of `Sampler.Sample`. The sampler clamps each
neighbour index and takes its weights from the clamped indices. As a result,
the two weights of an axis always add up to the gap between its two clamped
neighbours (`Sampler.AxisOf`).

- Outside the half-open window `0 <= x < Ws - 1` the two neighbours coincide,
  so the weights cancel and the sample is exactly 0. This holds in every
  channel, and the last column and last row count as outside.
- Inside the window the sampler is textbook bilinear interpolation
  (`Sampler.Bilinear`).

The code therefore zero-fills points outside the image, as its docstring
promises; a point at x = -5 does not read the edge pixel. It also returns 0
at points inside the image that lie on its last column (x = Ws - 1) or last
row (y = Hs - 1), which the docstring does not announce
(`Sampler.SampleAtPixel`). The model follows the code. One consequence is
that a zero flow does not reproduce the source image exactly, because its
last row and column come out as 0 (`Warp.ZeroFlowCopiesSource`).

Two computing helpers carry no row of their own: `Sampler.Blend`, the
four-term `add_n` sum of the sampler, whose meaning is stated by
`Sampler.BlendIsBilinear`, `Sampler.BlendVanishesX` and
`Sampler.BlendOfFractions`; and `Matrices.MatMul`, the `tf.matmul` product,
whose entries are stated by `Matrices.MatMul3` and `Pose.MatMulEntries`.

## Model

| member | source | states |
|---|---|---|
| Sampler.Clip | data/utils_road.py:303-310 | clip_by_value stays within [lo, hi], leaves values already in range unchanged, sends values below lo to lo and values above hi to hi |
| Sampler.AxisOf | data/utils_road.py:298-321 | both clamped neighbours are valid indices; they differ by 1 exactly when 0 <= x < size - 1 and coincide otherwise; the two weights add up to that gap; inside the window the neighbours are floor(x) and floor(x) + 1, w1 = x - floor(x) and w0 = 1 - w1; for x < 0 both neighbours are 0 (weights -x and x), for x >= size - 1 both are size - 1 (weights size - 1 - x and its negation) |
| Sampler.GatherIndex | data/utils_road.py:324-337 | the flat gather row b*Hs*Ws + y*Ws + x of pixel (y, x) lies in batch b's block of the [B*Hs*Ws, C] view and is that pixel's row-major position |
| Sampler.GatherIndicesInRange | data/utils_road.py:303-337 | all four gather indices of any sample are below B*Hs*Ws, whatever the coordinates |
| Sampler.Repeat | data/utils_road.py:279-286 | _repeat(xs, n) has length \|xs\|*n and holds xs[i] at every position i*n + k with k < n |
| Sampler.RepeatedBaseOfPosition | data/utils_road.py:326-330 | the base offset at target position (b, h, w) is b * Hs*Ws, so every output pixel reads from its own batch element |
| Sampler.Gather | data/utils_road.py:340-345 | gathering row idx of the flattened image in channel c yields source pixel (b, y, x, c) |
| Sampler.BlendVanishesX | data/utils_road.py:347-355 | when the two x neighbours coincide and their weights cancel, the four-term blend is 0 |
| Sampler.BlendVanishesY | data/utils_road.py:347-355 | when the two y neighbours coincide and their weights cancel, the four-term blend is 0 |
| Sampler.Sample | data/utils_road.py:298-355 | every sample equals the reference interpolation (bilinear inside the window, 0 elsewhere); in particular a sample with x < 0, x >= Ws - 1, y < 0 or y >= Hs - 1 is exactly 0 |
| Sampler.BlendIsBilinear | data/utils_road.py:298-355 | the four-term blend of the four clamped neighbours, with their weights, equals the reference interpolation at (x, y) |
| Sampler.BlendOfFractions | data/utils_road.py:347-355 | with weights 1-fx, fx, 1-fy, fy the blend is the textbook bilinear formula |
| Sampler.WindowWeightsAreConvex | data/utils_road.py:318-350 | inside the window w00, w01, w10 and w11 are non-negative and add up to 1 |
| Sampler.SampleAtPixel | data/utils_road.py:298-355 | at integer (i, j) the sample is source pixel (j, i) when i < Ws - 1 and j < Hs - 1, and 0 otherwise |
| Sampler.BilinearSampler | data/utils_road.py:265-355 | output (b, h, w, c) is the reference interpolation of source batch b at the coordinates stored at (b, h, w); the output has the target's height and width and the source's channels |
| Grid.PixelCoord | data/utils_road.py:193-199 | point i of linspace(-1, 1, n), remapped by (v + 1) * 0.5 * (n - 1), is exactly i, including for n = 1 |
| Grid.Meshgrid | data/utils_road.py:182-206 | cell (h, w) of every batch element holds w in channel 0 and h in channel 1, and 1 in channel 2 when homogeneous; the shape is [B, 2 or 3, H, W] |
| Grid.MeshgridBatchCopiesAgree | data/utils_road.py:205 | all batch copies of the grid are identical |
| Tensors.Transpose0231 | data/utils_road.py:217-218 | the [0, 2, 3, 1] transpose moves entry (b, c, h, w) to (b, h, w, c) |
| Tensors.DecodeIndex4 | data/utils_road.py:136 | a row-major position decodes back to its four coordinates, so reshapes between layouts preserve entries |
| Tensors.MergeTrailingAxes | data/utils_road.py:112 | viewing [B, C, H, W] as [B, C, H*W] places cell (h, w) at column h*W + w |
| Warp.WarpCoords | data/utils_road.py:216-219 | the sample coordinates at (b, h, w) are (w + flow x, h + flow y) |
| Warp.FlowWarp | data/utils_road.py:208-221 | target pixel (h, w) is the reference interpolation of the source at (w + flow x, h + flow y) |
| Warp.ZeroFlowCopiesSource | data/utils_road.py:216-220 | with zero flow the output equals the source off the last row and column, and is 0 on them |
| Matrices.MatMul3 | data/utils_road.py:55 | each entry of a 3 x 3 product is the sum of three row-by-column terms |
| Pose.ClipAngle | data/utils_road.py:22-24 | clipped angles lie in [-pi, pi], angles already in range are unchanged, angles below -pi become -pi and angles above pi become pi |
| Pose.Euler2Mat | data/utils_road.py:8-56 | euler2mat(z, y, x) = Rx Ry Rz of the clipped angles, written out entry by entry in their cosines and sines |
| Pose.RotationProduct | data/utils_road.py:34-55 | the product of the three axis rotations in the order Rx, Ry, Rz equals the written-out rotation |
| Pose.XyProduct | data/utils_road.py:41-55 | Rx Ry written out |
| Pose.XyzProduct | data/utils_road.py:34-55 | (Rx Ry) Rz written out |
| Pose.MatMulEntries | data/utils_road.py:55 | a 3 x 3 product equals a matrix whose every entry matches the row-by-column sum |
| Pose.Euler2MatSaturates | data/utils_road.py:22-24 | for each of z, y and x, an angle at or beyond pi acts as pi, and one at or below -pi acts as -pi |
| Pose.PoseVec2Mat | data/utils_road.py:65-76 | the transform is 4 x 4, its bottom row is (0, 0, 0, 1), column 3 holds (tx, ty, tz), and the upper-left 3 x 3 block is euler2mat(rz, ry, rx) |
| Pose.PoseActsRigidly | data/utils_road.py:66-76 | the transform maps a homogeneous point (p, 1) to (R p + t, 1) |
| Pose.RowActsAffinely | data/utils_road.py:75 | a row [a, t] applied to (p, 1) is a . p + t |
| Pose.ZeroPoseIsIdentity | data/utils_road.py:58-77 | with cos 0 = 1 and sin 0 = 0, the zero pose vector gives the 4 x 4 identity |
| Projection.Quot | data/utils_road.py:124-126 | a quotient is finite exactly when its denominator is non-zero, and then multiplying back recovers the numerator |
| Projection.BackProject | data/utils_road.py:117-128 | x_n, y_n and z_n share the denominator y_u / -1.65 + 1e-10, so they are finite together; each times that denominator gives back its component of K^-1 p; y_n differs from -1.65 only by 1.65e-10 over the denominator |
| Projection.PlaneHeight | data/utils_road.py:121-125 | y_u / (y_u / -1.65 + eps) minus -1.65 is 1.65 eps over the same denominator |
| Projection.Pixel2Cam | data/utils_road.py:101-138 | channels 0..2 of plane cell (b, h, w) are the back-projection of K_b^-1 times the pixel, channel 3 is 1 when homogeneous, and the returned y_n is channel 1; the shapes are [B, 3 or 4, H, W] and [B, 1, H*W] |
| Projection.Project | data/utils_road.py:152-157 | both pixel coordinates are finite exactly when z_u + 1e-10 is non-zero, and then times that depth they give back x_u and y_u |
| Projection.Cam2Pixel | data/utils_road.py:140-159 | output (b, h, w, k) is coordinate k of the guarded perspective division of proj_b times cell (h, w) of the camera coordinates; the shape is [B, H, W, 2] |

## Left out

- Floating-point precision. The source mixes float32 (the sampler, the grid
  and `_repeat`) with float64 (pose, projection) and casts between them. The
  model computes over exact reals and integers, so IEEE rounding is not
  modelled. This applies in particular to the sampler's zero outside the
  window: in float32 the two cancelling weights give exactly 0 only up to
  rounding.
- The sampler's float32 flat indices. The source computes gather indices in
  float32 and casts them to int32. The model uses exact integers, so it
  does not model the loss of precision for images above 2^24 pixels.
- Sampler.BilinearSampler: requires a non-empty source (Hs, Ws >= 1). With an
  empty source there is no valid row to gather and the source's gather
  fails. It also requires no more coordinate batches than image batches,
  because otherwise the source's base offsets point past the image.
- `tf.cos`, `tf.sin`: supplied as the functions of a `Pose.Trig` value,
  which the model treats as uninterpreted. Pi is 3.141592653589793, the
  shortest decimal of the double nearest pi, taken as an exact real.
- `tf.linalg.inv`: the inverse intrinsics are an input of
  `Projection.Pixel2Cam`, because the inversion is a library call.
- Pose.PoseVec2Mat: models one batch element. The batched tensor is that
  function applied to each row of the [B, 6] input, and the N = 1 axis of
  `euler2mat` is squeezed away.
- Projection.Quot: division by an exactly zero denominator is modelled as
  `NonFinite` (an IEEE infinity or NaN) without telling the two apart.
  Denominators that are non-zero but tiny give finite reals, with no
  overflow.
- `compute_rigid_flow`: it only composes the modelled functions, and its
  "identity gives zero flow" property holds only approximately because of
  the 1e-10 guards. It and its `reverse_pose` inversion are not part of this
  model.
- `get_relative_velosity_with_pred_poses`: dead code that refers to
  undefined names.
- `get_pose_by_obd`: a dataset-specific odometry heuristic built on
  calibration constants, outside the pixel geometry.
- The commented-out alternatives of `pixel2cam`, `cam2pixel` and the
  masked sampler weights: they are comments, not live code.
- TensorFlow shape plumbing (`get_shape`, `tf.tile`, broadcasting, the
  `_repeat` matmul trick): replaced by explicit index arithmetic.
- `Projection.Pixel2Cam` returns y_n as a [B, 1, H, W] tensor. Its flat
  layout is that of the source's [B, 1, H*W] tensor (`Tensors.MergeTrailingAxes`).
