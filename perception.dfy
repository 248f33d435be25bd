/** The perception stage: terrain classification of the warped camera frame,
    the mapping of mask pixels to rover-centric and world coordinates, and the
    per-tick update of the rover's world map, bearings and mode. */
module Perception {
  import opened RoverState

  // ---------------------------------------------------------------------------
  // Configuration constants
  // ---------------------------------------------------------------------------

  /** Default threshold for navigable ground and obstacles. */
  const NavigableThreshold := Rgb(160, 160, 160)
  /** Default threshold for sample rocks (red and green above, blue below). */
  const RockThreshold := Rgb(110, 110, 50)
  /** Half-width, in pixels, of the one-cell square in the warped view. */
  const DstSize := 5
  /** Warped pixels per world-map cell: `2 * DstSize`. */
  const Scale: real := 10.0
  /** Evidence weights and the rock marker value of the world map. */
  const ObstacleIncrement := 1
  const NavigableIncrement := 10
  const RockMarker := 255
  /** World-map channels. */
  const ObstacleChannel := 0
  const RockChannel := 1
  const NavigableChannel := 2

  /** The floating-point library functions the stage calls. They are inputs
      of the model: only the arithmetic around them is modelled. */
  datatype MathLib = MathLib(cos: real -> real, sin: real -> real,
                             sqrt: real -> real, atan2: (real, real) -> real)

  // ---------------------------------------------------------------------------
  // Terrain classifiers
  // ---------------------------------------------------------------------------

  predicate AboveAll(p: Rgb, t: Rgb) { p.r > t.r && p.g > t.g && p.b > t.b }
  predicate BelowAll(p: Rgb, t: Rgb) { p.r < t.r && p.g < t.g && p.b < t.b }
  predicate RockColored(p: Rgb, t: Rgb) { p.r > t.r && p.g > t.g && p.b < t.b }

  function Bit(b: bool): int { if b then 1 else 0 }

  /** Navigable ground: 1 where every channel is strictly above `t`. */
  function ColorThresh(img: Image, t: Rgb): (m: Mask)
    ensures |m| == |img|
    ensures forall i :: 0 <= i < |img| ==> |m[i]| == |img[i]|
    ensures forall i, j :: 0 <= i < |img| && 0 <= j < |img[i]| ==>
      0 <= m[i][j] <= 1 && (m[i][j] == 1 <==> AboveAll(img[i][j], t))
  {
    seq(|img|, i requires 0 <= i < |img| =>
      seq(|img[i]|, j requires 0 <= j < |img[i]| => Bit(AboveAll(img[i][j], t))))
  }

  /** Obstacles: 1 where every channel is strictly below `t`. No pixel is both
      navigable and an obstacle, and a pixel equal to `t` is neither. */
  function Obstacles(img: Image, t: Rgb): (m: Mask)
    ensures |m| == |img|
    ensures forall i :: 0 <= i < |img| ==> |m[i]| == |img[i]|
    ensures forall i, j :: 0 <= i < |img| && 0 <= j < |img[i]| ==>
      0 <= m[i][j] <= 1 && (m[i][j] == 1 <==> BelowAll(img[i][j], t))
    ensures forall i, j :: 0 <= i < |img| && 0 <= j < |img[i]| ==>
      !(m[i][j] == 1 && ColorThresh(img, t)[i][j] == 1)
    ensures forall i, j :: 0 <= i < |img| && 0 <= j < |img[i]| && img[i][j] == t ==>
      m[i][j] == 0 && ColorThresh(img, t)[i][j] == 0
  {
    seq(|img|, i requires 0 <= i < |img| =>
      seq(|img[i]|, j requires 0 <= j < |img[i]| => Bit(BelowAll(img[i][j], t))))
  }

  /** Sample rocks: 1 where red and green are above and blue below `t`. */
  function Rocks(img: Image, t: Rgb): (m: Mask)
    ensures |m| == |img|
    ensures forall i :: 0 <= i < |img| ==> |m[i]| == |img[i]|
    ensures forall i, j :: 0 <= i < |img| && 0 <= j < |img[i]| ==>
      0 <= m[i][j] <= 1 && (m[i][j] == 1 <==> RockColored(img[i][j], t))
  {
    seq(|img|, i requires 0 <= i < |img| =>
      seq(|img[i]|, j requires 0 <= j < |img[i]| => Bit(RockColored(img[i][j], t))))
  }

  /** Number of nonzero entries of a row and of a mask. */
  function RowCount(row: seq<int>): nat
  {
    if |row| == 0 then 0 else Bit(row[0] != 0) + RowCount(row[1..])
  }

  function MaskCount(m: Mask): nat
  {
    if |m| == 0 then 0 else RowCount(m[0]) + MaskCount(m[1..])
  }

  function PixelCount<T>(g: seq<seq<T>>): nat
  {
    if |g| == 0 then 0 else |g[0]| + PixelCount(g[1..])
  }

  lemma {:induction false} DisjointRowCount(a: seq<int>, b: seq<int>)
    requires |a| == |b|
    requires forall k :: 0 <= k < |a| ==> !(a[k] != 0 && b[k] != 0)
    ensures RowCount(a) + RowCount(b) <= |a|
  {
    if |a| > 0 {
      DisjointRowCount(a[1..], b[1..]);
    }
  }

  lemma {:induction false} DisjointMaskCount(a: Mask, b: Mask)
    requires |a| == |b|
    requires forall i :: 0 <= i < |a| ==> |a[i]| == |b[i]|
    requires forall i, j :: 0 <= i < |a| && 0 <= j < |a[i]| ==> !(a[i][j] != 0 && b[i][j] != 0)
    ensures MaskCount(a) + MaskCount(b) <= PixelCount(a)
  {
    if |a| > 0 {
      DisjointRowCount(a[0], b[0]);
      DisjointMaskCount(a[1..], b[1..]);
    }
  }

  /** The navigable and obstacle masks together never claim more pixels than
      the frame has. */
  lemma NavigableObstacleCount(img: Image, t: Rgb)
    ensures MaskCount(ColorThresh(img, t)) + MaskCount(Obstacles(img, t)) <= PixelCount(img)
  {
    var nav, obs := ColorThresh(img, t), Obstacles(img, t);
    DisjointMaskCount(nav, obs);
    SameShapeCount(nav, img);
  }

  lemma {:induction false} SameShapeCount<T, U>(a: seq<seq<T>>, b: seq<seq<U>>)
    requires |a| == |b|
    requires forall i :: 0 <= i < |a| ==> |a[i]| == |b[i]|
    ensures PixelCount(a) == PixelCount(b)
  {
    if |a| > 0 {
      SameShapeCount(a[1..], b[1..]);
    }
  }

  // ---------------------------------------------------------------------------
  // Nonzero pixels and rover-centric coordinates
  // ---------------------------------------------------------------------------

  datatype Pixel = Pixel(row: nat, col: nat)

  predicate RowMajorBefore(p: Pixel, q: Pixel)
  {
    p.row < q.row || (p.row == q.row && p.col < q.col)
  }

  /** The nonzero pixels of row `r` from column `c` on, left to right. */
  function RowPixels(m: Mask, r: nat, c: nat): seq<Pixel>
    requires r < |m| && c <= |m[r]|
    decreases |m[r]| - c
  {
    if c == |m[r]| then []
    else (if m[r][c] != 0 then [Pixel(r, c)] else []) + RowPixels(m, r, c + 1)
  }

  /** The nonzero pixels of rows `r` and below, in row-major order. */
  function PixelsFrom(m: Mask, r: nat): seq<Pixel>
    requires r <= |m|
    decreases |m| - r
  {
    if r == |m| then []
    else RowPixels(m, r, 0) + PixelsFrom(m, r + 1)
  }

  /** All nonzero pixels of a mask (`nonzero()`): as many as the mask has
      nonzero entries (which they are is `NonzeroPixelsSpec`). */
  function NonzeroPixels(m: Mask): (ps: seq<Pixel>)
    ensures |ps| == MaskCount(m)
  {
    PixelsFromCount(m, 0);
    assert m[0..] == m;
    PixelsFrom(m, 0)
  }

  predicate AnyNonzero(m: Mask)
  {
    exists i, j | 0 <= i < |m| && 0 <= j < |m[i]| :: m[i][j] != 0
  }

  lemma {:induction false} RowPixelsCount(m: Mask, r: nat, c: nat)
    requires r < |m| && c <= |m[r]|
    decreases |m[r]| - c
    ensures |RowPixels(m, r, c)| == RowCount(m[r][c..])
  {
    if c < |m[r]| {
      RowPixelsCount(m, r, c + 1);
      assert m[r][c..][1..] == m[r][c + 1..];
    }
  }

  lemma {:induction false} PixelsFromCount(m: Mask, r: nat)
    requires r <= |m|
    decreases |m| - r
    ensures |PixelsFrom(m, r)| == MaskCount(m[r..])
  {
    if r < |m| {
      RowPixelsCount(m, r, 0);
      PixelsFromCount(m, r + 1);
      assert m[r..][1..] == m[r + 1..];
      assert m[r][0..] == m[r];
    }
  }

  lemma {:induction false} RowPixelsSpec(m: Mask, r: nat, c: nat)
    requires r < |m| && c <= |m[r]|
    decreases |m[r]| - c
    ensures var ps := RowPixels(m, r, c);
      (forall k :: 0 <= k < |ps| ==>
         ps[k].row == r && c <= ps[k].col < |m[r]| && m[r][ps[k].col] != 0) &&
      (forall j :: c <= j < |m[r]| && m[r][j] != 0 ==> Pixel(r, j) in ps) &&
      (forall k :: 0 <= k < |ps| - 1 ==> ps[k].col < ps[k + 1].col)
  {
    if c < |m[r]| {
      RowPixelsSpec(m, r, c + 1);
    }
  }

  lemma {:induction false} PixelsFromSpec(m: Mask, r: nat)
    requires r <= |m|
    decreases |m| - r
    ensures var ps := PixelsFrom(m, r);
      (forall k :: 0 <= k < |ps| ==>
         r <= ps[k].row < |m| && ps[k].col < |m[ps[k].row]| && m[ps[k].row][ps[k].col] != 0) &&
      (forall i, j :: r <= i < |m| && 0 <= j < |m[i]| && m[i][j] != 0 ==> Pixel(i, j) in ps) &&
      (forall k :: 0 <= k < |ps| - 1 ==> RowMajorBefore(ps[k], ps[k + 1]))
  {
    if r < |m| {
      RowPixelsSpec(m, r, 0);
      PixelsFromSpec(m, r + 1);
    }
  }

  /** `nonzero()` lists exactly the nonzero pixels, each once, in row-major
      order; it is empty exactly when the mask is all zeros. */
  lemma NonzeroPixelsSpec(m: Mask)
    ensures var ps := NonzeroPixels(m);
      (forall k :: 0 <= k < |ps| ==>
         ps[k].row < |m| && ps[k].col < |m[ps[k].row]| && m[ps[k].row][ps[k].col] != 0) &&
      (forall i, j :: 0 <= i < |m| && 0 <= j < |m[i]| && m[i][j] != 0 ==> Pixel(i, j) in ps) &&
      (forall k :: 0 <= k < |ps| - 1 ==> RowMajorBefore(ps[k], ps[k + 1])) &&
      (|ps| > 0 <==> AnyNonzero(m))
  {
    var ps := NonzeroPixels(m);
    PixelsFromSpec(m, 0);
    if AnyNonzero(m) {
      var i, j :| 0 <= i < |m| && 0 <= j < |m[i]| && m[i][j] != 0;
      assert Pixel(i, j) in ps;
    }
    if |ps| > 0 {
      var p := ps[0];
      assert 0 <= p.row < |m| && 0 <= p.col < |m[p.row]| && m[p.row][p.col] != 0;
    }
  }

  /** A position relative to the rover: `x` forward, `y` to the left. */
  datatype Point = Point(x: real, y: real)

  /** One rover-centric point per nonzero pixel, in the order of `nonzero()`,
      with the origin at the bottom centre of the image. */
  function RoverCoords(m: Mask): (pts: seq<Point>)
    requires Rectangular(m)
    ensures |pts| == |NonzeroPixels(m)|
    ensures |pts| > 0 <==> AnyNonzero(m)
  {
    NonzeroPixelsSpec(m);
    var ps := NonzeroPixels(m);
    seq(|ps|, k requires 0 <= k < |ps| =>
      Point((|m| - ps[k].row) as real, Width(m) as real / 2.0 - ps[k].col as real))
  }

  /** Every nonzero pixel (row, col) yields the point (H - row, W/2 - col),
      the points follow the pixels' row-major order, and every point lies in
      1 <= x <= H, -W/2 < y <= W/2. */
  lemma RoverCoordsSpec(m: Mask)
    requires Rectangular(m)
    ensures var pts, ps := RoverCoords(m), NonzeroPixels(m);
      (forall k :: 0 <= k < |pts| ==>
         pts[k] == Point((|m| - ps[k].row) as real, Width(m) as real / 2.0 - ps[k].col as real)) &&
      (forall i, j :: 0 <= i < |m| && 0 <= j < |m[i]| && m[i][j] != 0 ==>
         Point((|m| - i) as real, Width(m) as real / 2.0 - j as real) in pts) &&
      (forall k :: 0 <= k < |pts| ==>
         1.0 <= pts[k].x <= |m| as real &&
         -(Width(m) as real / 2.0) < pts[k].y <= Width(m) as real / 2.0)
  {
    var pts, ps := RoverCoords(m), NonzeroPixels(m);
    forall i, j | 0 <= i < |m| && 0 <= j < |m[i]| && m[i][j] != 0
      ensures Point((|m| - i) as real, Width(m) as real / 2.0 - j as real) in pts
    {
      NonzeroPixelsSpec(m);
      var k :| 0 <= k < |ps| && ps[k] == Pixel(i, j);
      assert pts[k] == Point((|m| - i) as real, Width(m) as real / 2.0 - j as real);
    }
    forall k | 0 <= k < |pts|
      ensures 1.0 <= pts[k].x <= |m| as real
      ensures -(Width(m) as real / 2.0) < pts[k].y <= Width(m) as real / 2.0
    {
      NonzeroPixelsSpec(m);
      var p := ps[k];
      assert p.row < |m| && p.col < |m[p.row]| == Width(m);
    }
  }

  /** `sqrt` returns the non-negative square root of a non-negative value. */
  ghost predicate SqrtLaw(math: MathLib)
  {
    forall v :: v >= 0.0 ==> math.sqrt(v) >= 0.0 && math.sqrt(v) * math.sqrt(v) == v
  }

  /** `atan2(y, x)` is the direction of (x, y): scaling its cosine and sine by
      the length of (x, y) gives back x and y. */
  ghost predicate Atan2Law(math: MathLib)
  {
    forall x, y :: math.sqrt(x * x + y * y) * math.cos(math.atan2(y, x)) == x &&
                   math.sqrt(x * x + y * y) * math.sin(math.atan2(y, x)) == y
  }

  /** Euclidean distance to each point (`sqrt(x*x + y*y)`), in the points'
      order; with a true square root, each is the non-negative length. */
  function Distances(pts: seq<Point>, math: MathLib): (d: seq<real>)
    ensures |d| == |pts|
    ensures SqrtLaw(math) ==> forall k :: 0 <= k < |d| ==> d[k] >= 0.0 && d[k] * d[k] == DistSq(pts[k])
  {
    var d := seq(|pts|, k requires 0 <= k < |pts| => math.sqrt(DistSq(pts[k])));
    assert SqrtLaw(math) ==> forall k :: 0 <= k < |d| ==> d[k] >= 0.0 && d[k] * d[k] == DistSq(pts[k]) by {
      if SqrtLaw(math) {
        forall k | 0 <= k < |d|
          ensures d[k] >= 0.0 && d[k] * d[k] == DistSq(pts[k])
        {
          var p := pts[k];
          assert p.x * p.x >= 0.0 && p.y * p.y >= 0.0;
          assert DistSq(p) >= 0.0;
        }
      }
    }
    d
  }

  /** Bearing of each point from the forward axis (`atan2(y, x)`), in the
      points' order. Together with the distance it is the point's polar form:
      distance times cosine and sine of the bearing give the point back. As
      `atan2` is an input of the model, this follows from its law alone and is
      all that can be said of the bearings. */
  function Bearings(pts: seq<Point>, math: MathLib): (a: seq<real>)
    ensures |a| == |pts|
    ensures Atan2Law(math) ==> forall k :: 0 <= k < |a| ==>
      Distances(pts, math)[k] * math.cos(a[k]) == pts[k].x &&
      Distances(pts, math)[k] * math.sin(a[k]) == pts[k].y
  {
    var a := seq(|pts|, k requires 0 <= k < |pts| => math.atan2(pts[k].y, pts[k].x));
    assert Atan2Law(math) ==> forall k :: 0 <= k < |a| ==>
      Distances(pts, math)[k] * math.cos(a[k]) == pts[k].x &&
      Distances(pts, math)[k] * math.sin(a[k]) == pts[k].y by {
      if Atan2Law(math) {
        forall k | 0 <= k < |a|
          ensures Distances(pts, math)[k] * math.cos(a[k]) == pts[k].x
          ensures Distances(pts, math)[k] * math.sin(a[k]) == pts[k].y
        {
          var p := pts[k];
          assert Distances(pts, math)[k] == math.sqrt(DistSq(p));
          assert DistSq(p) == p.x * p.x + p.y * p.y;
          assert a[k] == math.atan2(p.y, p.x);
        }
      }
    }
    a
  }

  function DistSq(p: Point): real
  {
    p.x * p.x + p.y * p.y
  }

  function SquaredDistances(pts: seq<Point>): (d: seq<real>)
    ensures |d| == |pts|
  {
    seq(|pts|, k requires 0 <= k < |pts| => DistSq(pts[k]))
  }

  // ---------------------------------------------------------------------------
  // Rover-centric to world coordinates
  // ---------------------------------------------------------------------------

  /** A world-map cell: column `x`, row `y`. */
  datatype Cell = Cell(x: int, y: int)

  /** Rotation by `yaw` degrees, with cosine and sine from the library. When
      the cosine and sine satisfy cos^2 + sin^2 = 1 the rotation keeps the
      distance to the rover, and at cos = 1, sin = 0 it is the identity. */
  function RotatePix(p: Point, yaw: real, math: MathLib): (r: Point)
    ensures var c, s := math.cos(yaw * Pi / 180.0), math.sin(yaw * Pi / 180.0);
      c * c + s * s == 1.0 ==> DistSq(r) == DistSq(p)
    ensures var c, s := math.cos(yaw * Pi / 180.0), math.sin(yaw * Pi / 180.0);
      c == 1.0 && s == 0.0 ==> r == p
  {
    var yawRad := yaw * Pi / 180.0;
    var c, s := math.cos(yawRad), math.sin(yawRad);
    var r := Point(p.x * c - p.y * s, p.x * s + p.y * c);
    assert DistSq(r) == (p.x * p.x + p.y * p.y) * (c * c + s * s);
    r
  }

  /** Scale down by `scale` and move to the rover's world position; scaling
      back up the offset from that position recovers the point. */
  function TranslatePix(p: Point, xpos: real, ypos: real, scale: real): (r: Point)
    requires scale != 0.0
    ensures (r.x - xpos) * scale == p.x && (r.y - ypos) * scale == p.y
  {
    Point(p.x / scale + xpos, p.y / scale + ypos)
  }

  /** Conversion to an integer by truncation toward zero. */
  function Trunc(v: real): (r: int)
    ensures v >= 0.0 ==> r as real <= v < r as real + 1.0
    ensures v < 0.0 ==> r as real - 1.0 < v <= r as real
  {
    if v >= 0.0 then v.Floor else -((-v).Floor)
  }

  /** Clamp into `[lo, hi]`. */
  function Clip(v: int, lo: int, hi: int): (r: int)
    requires lo <= hi
    ensures lo <= r <= hi
    ensures lo <= v <= hi ==> r == v
    ensures v < lo ==> r == lo
    ensures v > hi ==> r == hi
  {
    if v < lo then lo else if v > hi then hi else v
  }

  /** The world cell of a rover-centric point; always inside the map. */
  function PixToWorld(p: Point, xpos: real, ypos: real, yaw: real,
                      worldSize: int, scale: real, math: MathLib): (c: Cell)
    requires worldSize >= 1 && scale != 0.0
    ensures 0 <= c.x < worldSize && 0 <= c.y < worldSize
  {
    var t := TranslatePix(RotatePix(p, yaw, math), xpos, ypos, scale);
    Cell(Clip(Trunc(t.x), 0, worldSize - 1), Clip(Trunc(t.y), 0, worldSize - 1))
  }

  /** Once clamped below at zero, truncation and flooring agree. */
  lemma ClipTruncIsClipFloor(v: real, hi: int)
    requires hi >= 0
    ensures Clip(Trunc(v), 0, hi) == Clip(v.Floor, 0, hi)
  {
  }

  /** With yaw 0 and a library whose cos(0) is 1 and sin(0) is 0, a point maps
      to the clamped floor of its scaled and translated coordinates. */
  lemma PixToWorldAtZeroYaw(p: Point, xpos: real, ypos: real, worldSize: int,
                            scale: real, math: MathLib)
    requires worldSize >= 1 && scale != 0.0
    requires math.cos(0.0) == 1.0 && math.sin(0.0) == 0.0
    ensures PixToWorld(p, xpos, ypos, 0.0, worldSize, scale, math)
         == Cell(Clip((p.x / scale + xpos).Floor, 0, worldSize - 1),
                 Clip((p.y / scale + ypos).Floor, 0, worldSize - 1))
  {
    assert RotatePix(p, 0.0, math) == p;
    ClipTruncIsClipFloor(p.x / scale + xpos, worldSize - 1);
    ClipTruncIsClipFloor(p.y / scale + ypos, worldSize - 1);
  }

  /** `pix_to_world` over a whole sequence of points. */
  function WorldCells(pts: seq<Point>, xpos: real, ypos: real, yaw: real,
                      worldSize: int, scale: real, math: MathLib): (cs: seq<Cell>)
    requires worldSize >= 1 && scale != 0.0
    ensures |cs| == |pts|
    ensures forall k :: 0 <= k < |cs| ==> 0 <= cs[k].x < worldSize && 0 <= cs[k].y < worldSize
  {
    seq(|pts|, k requires 0 <= k < |pts| =>
      PixToWorld(pts[k], xpos, ypos, yaw, worldSize, scale, math))
  }

  // ---------------------------------------------------------------------------
  // Nearest rock pixel
  // ---------------------------------------------------------------------------

  /** The index of the first minimum (`argmin`). */
  function FirstMin(vals: seq<real>): (k: nat)
    requires |vals| > 0
    ensures k < |vals|
    ensures forall j :: 0 <= j < |vals| ==> vals[k] <= vals[j]
    ensures forall j :: 0 <= j < k ==> vals[k] < vals[j]
  {
    if |vals| == 1 then 0
    else
      var k := FirstMin(vals[..|vals| - 1]);
      if vals[|vals| - 1] < vals[k] then |vals| - 1 else k
  }

  /** For a strictly increasing square root, the nearest rock pixel by
      distance is the nearest by squared distance. */
  lemma NearestBySquaredDistance(pts: seq<Point>, math: MathLib)
    requires |pts| > 0
    requires forall a, b :: 0.0 <= a < b ==> math.sqrt(a) < math.sqrt(b)
    ensures FirstMin(Distances(pts, math)) == FirstMin(SquaredDistances(pts))
  {
    var d, s := Distances(pts, math), SquaredDistances(pts);
    var k1, k2 := FirstMin(d), FirstMin(s);
    forall j | 0 <= j < |pts|
      ensures s[k1] <= s[j] && (j < k1 ==> s[k1] < s[j])
    {
      assert d[j] == math.sqrt(s[j]) && d[k1] == math.sqrt(s[k1]);
      assert 0.0 <= s[j] && 0.0 <= s[k1];
    }
    // Both indices are now the first minimum of `s`, which is unique.
  }

  // ---------------------------------------------------------------------------
  // The perception step
  // ---------------------------------------------------------------------------

  /** The diagnostic overlay: obstacles red, rocks green, ground blue. */
  function VisionOverlay(obstacle: Mask, rock: Mask, ground: Mask): (v: Image)
    requires |rock| == |obstacle| && |ground| == |obstacle|
    requires forall i :: 0 <= i < |obstacle| ==>
      |rock[i]| == |obstacle[i]| && |ground[i]| == |obstacle[i]|
    ensures |v| == |obstacle| && forall i :: 0 <= i < |v| ==> |v[i]| == |obstacle[i]|
  {
    seq(|obstacle|, i requires 0 <= i < |obstacle| =>
      seq(|obstacle[i]|, j requires 0 <= j < |obstacle[i]| =>
        Rgb(255 * obstacle[i][j], 255 * rock[i][j], 255 * ground[i][j])))
  }

  /** A mask of zeros with the shape of `m`. */
  function ZerosLike<T>(m: seq<seq<T>>): (z: Mask)
    ensures |z| == |m| && forall i :: 0 <= i < |z| ==> |z[i]| == |m[i]|
    ensures !AnyNonzero(z)
  {
    seq(|m|, i requires 0 <= i < |m| => seq(|m[i]|, j => 0))
  }

  /** The overlay after `v[:,:,0] = red*255` and `v[:,:,2] = blue*255`: the
      red and blue channels come from the masks, green is kept. */
  function PaintRedBlue(v: Image, red: Mask, blue: Mask): (w: Image)
    requires SameShape(red, v) && SameShape(blue, v)
    ensures SameShape(w, v)
    ensures forall i, j :: 0 <= i < |v| && 0 <= j < |v[i]| ==>
      w[i][j].r == 255 * red[i][j] && w[i][j].g == v[i][j].g && w[i][j].b == 255 * blue[i][j]
  {
    seq(|v|, i requires 0 <= i < |v| =>
      seq(|v[i]|, j requires 0 <= j < |v[i]| => Rgb(255 * red[i][j], v[i][j].g, 255 * blue[i][j])))
  }

  /** The overlay after `v[:,:,1] = green*255`: red and blue are kept. */
  function PaintGreen(v: Image, green: Mask): (w: Image)
    requires SameShape(green, v)
    ensures SameShape(w, v)
    ensures forall i, j :: 0 <= i < |v| && 0 <= j < |v[i]| ==>
      w[i][j].r == v[i][j].r && w[i][j].g == 255 * green[i][j] && w[i][j].b == v[i][j].b
  {
    seq(|v|, i requires 0 <= i < |v| =>
      seq(|v[i]|, j requires 0 <= j < |v[i]| => Rgb(v[i][j].r, 255 * green[i][j], v[i][j].b)))
  }

  /** Once all three channels are assigned, the overlay no longer depends on
      what it held before: it is the overlay of the three masks. */
  lemma OverlayAfterTick(v: Image, red: Mask, green: Mask, blue: Mask)
    requires SameShape(red, v) && SameShape(green, v) && SameShape(blue, v)
    ensures PaintGreen(PaintRedBlue(v, red, blue), green) == VisionOverlay(red, green, blue)
  {
    var w, o := PaintGreen(PaintRedBlue(v, red, blue), green), VisionOverlay(red, green, blue);
    forall i | 0 <= i < |w|
      ensures w[i] == o[i]
    {
      assert |w[i]| == |o[i]|;
      forall j | 0 <= j < |w[i]|
        ensures w[i][j] == o[i][j]
      {
      }
    }
  }

  /** The classifiers keep a rectangular frame rectangular. */
  lemma MasksRectangular(img: Image)
    requires Rectangular(img)
    ensures Rectangular(ColorThresh(img, NavigableThreshold))
    ensures Rectangular(Obstacles(img, NavigableThreshold))
    ensures Rectangular(Rocks(img, RockThreshold))
  {
  }

  /** Rover-centric points of the three terrain classes of a warped frame. */
  function GroundPoints(img: Image): seq<Point>
    requires Rectangular(img)
  {
    RoverCoords(ColorThresh(img, NavigableThreshold))
  }

  function ObstaclePoints(img: Image): seq<Point>
    requires Rectangular(img)
  {
    RoverCoords(Obstacles(img, NavigableThreshold))
  }

  function RockPoints(img: Image): seq<Point>
    requires Rectangular(img)
  {
    RoverCoords(Rocks(img, RockThreshold))
  }

  /** The rover's world position and heading (degrees). */
  datatype Pose = Pose(xpos: real, ypos: real, yaw: real)

  function ObstacleCells(img: Image, pose: Pose, worldSize: int, math: MathLib): seq<Cell>
    requires worldSize >= 1 && Rectangular(img)
  {
    CellsFor(ObstaclePoints(img), pose, worldSize, math)
  }

  function GroundCells(img: Image, pose: Pose, worldSize: int, math: MathLib): seq<Cell>
    requires worldSize >= 1 && Rectangular(img)
  {
    CellsFor(GroundPoints(img), pose, worldSize, math)
  }

  /** The world cells of a class's points for a pose and map size. */
  function CellsFor(pts: seq<Point>, pose: Pose, worldSize: int, math: MathLib): (cs: seq<Cell>)
    requires worldSize >= 1
    ensures |cs| == |pts|
    ensures forall k :: 0 <= k < |cs| ==> 0 <= cs[k].x < worldSize && 0 <= cs[k].y < worldSize
  {
    WorldCells(pts, pose.xpos, pose.ypos, pose.yaw, worldSize, Scale, math)
  }

  /** The cell that receives the rock marker this tick: the world cell of the
      first rock pixel nearest to the rover, if a rock is seen. */
  function RockTarget(img: Image, pose: Pose, worldSize: int, math: MathLib): (t: Option<Cell>)
    requires worldSize >= 1 && Rectangular(img)
    ensures t.Some? <==> |RockPoints(img)| > 0
    ensures t.Some? ==> 0 <= t.value.x < worldSize && 0 <= t.value.y < worldSize
  {
    var pts := RockPoints(img);
    if |pts| > 0 then Some(CellsFor(pts, pose, worldSize, math)[FirstMin(Distances(pts, math))])
    else None
  }

  predicate InMap(m: array3<int>, i: int, j: int, l: int)
  {
    0 <= i < m.Length0 && 0 <= j < m.Length1 && 0 <= l < m.Length2
  }

  /** `m[cells.y, cells.x, ch] += inc` with NumPy's index semantics: all
      increments read the old values, so each distinct cell gains `inc` once,
      however often it is listed. The loop skips a cell already listed
      earlier, which gives the same result. Nothing else changes. */
  method AddEvidence(m: array3<int>, cells: seq<Cell>, ch: int, inc: int)
    requires 0 <= ch < m.Length2
    requires forall k :: 0 <= k < |cells| ==> 0 <= cells[k].y < m.Length0 && 0 <= cells[k].x < m.Length1
    modifies m
    ensures forall i, j, l :: InMap(m, i, j, l) ==>
      m[i, j, l] == old(m[i, j, l]) + (if l == ch && Cell(j, i) in cells then inc else 0)
  {
    var k := 0;
    while k < |cells|
      invariant 0 <= k <= |cells|
      invariant forall i, j, l :: InMap(m, i, j, l) ==>
        m[i, j, l] == old(m[i, j, l]) + (if l == ch && Cell(j, i) in cells[..k] then inc else 0)
    {
      var c := cells[k];
      if c !in cells[..k] {
        m[c.y, c.x, ch] := m[c.y, c.x, ch] + inc;
      }
      assert cells[..k + 1] == cells[..k] + [c];
      k := k + 1;
    }
    assert cells[..k] == cells;
  }

  /** `m[i, j, l] = v`; nothing else changes. */
  method SetCell(m: array3<int>, i: int, j: int, l: int, v: int)
    requires InMap(m, i, j, l)
    modifies m
    ensures forall a, b, c :: InMap(m, a, b, c) ==>
      m[a, b, c] == if a == i && b == j && c == l then v else old(m[a, b, c])
  {
    m[i, j, l] := v;
  }

  /** The terrain half of a perception tick: classify the frame, paint the
      overlay's red and blue channels (green is left as it was), add obstacle
      and navigable evidence to the world map and point the navigation lists
      at navigable ground. */
  method RecordTerrain(rover: Rover, warped: Image, math: MathLib)
    requires rover.Valid() && Rectangular(warped) && SameShape(rover.visionImage, warped)
    modifies rover`visionImage, rover`navAngles, rover`navDists, rover.worldmap
    ensures forall i, j, l :: InMap(rover.worldmap, i, j, l) ==>
      rover.worldmap[i, j, l] == old(rover.worldmap[i, j, l]) +
        (if l == ObstacleChannel && Cell(j, i) in ObstacleCells(warped, Pose(rover.xpos, rover.ypos, rover.yaw), rover.worldmap.Length0, math)
         then ObstacleIncrement
         else if l == NavigableChannel && Cell(j, i) in GroundCells(warped, Pose(rover.xpos, rover.ypos, rover.yaw), rover.worldmap.Length0, math)
         then NavigableIncrement
         else 0)
    ensures rover.navAngles == Some(Bearings(GroundPoints(warped), math))
    ensures rover.navDists == Some(Distances(GroundPoints(warped), math))
    ensures rover.visionImage ==
      PaintRedBlue(old(rover.visionImage), Obstacles(warped, NavigableThreshold), ColorThresh(warped, NavigableThreshold))
  {
    MasksRectangular(warped);
    var ground := ColorThresh(warped, NavigableThreshold);
    var obstacle := Obstacles(warped, NavigableThreshold);
    rover.visionImage := PaintRedBlue(rover.visionImage, obstacle, ground);

    var groundPts := RoverCoords(ground);
    var pose, worldSize := Pose(rover.xpos, rover.ypos, rover.yaw), rover.worldmap.Length0;
    var obstacleCells := ObstacleCells(warped, pose, worldSize, math);
    var groundCells := GroundCells(warped, pose, worldSize, math);
    AddEvidence(rover.worldmap, obstacleCells, ObstacleChannel, ObstacleIncrement);
    AddEvidence(rover.worldmap, groundCells, NavigableChannel, NavigableIncrement);
    assert forall i, j, l :: InMap(rover.worldmap, i, j, l) ==>
      rover.worldmap[i, j, l] == old(rover.worldmap[i, j, l]) +
        (if l == ObstacleChannel && Cell(j, i) in obstacleCells then ObstacleIncrement
         else if l == NavigableChannel && Cell(j, i) in groundCells then NavigableIncrement
         else 0);

    rover.navAngles, rover.navDists := Some(Bearings(groundPts, math)), Some(Distances(groundPts, math));
  }

  /** The rock half of a perception tick: when a rock pixel is visible, mark
      the nearest one on the map, paint the rock mask into the overlay's green
      channel, steer towards the rock and switch to `pickup`; otherwise clear
      the green channel and leave `pickup` for `forward`. */
  method RecordRock(rover: Rover, warped: Image, math: MathLib)
    requires rover.Valid() && Rectangular(warped) && SameShape(rover.visionImage, warped)
    modifies rover`visionImage, rover`navAngles, rover`navDists, rover`mode, rover.worldmap
    ensures forall i, j, l :: InMap(rover.worldmap, i, j, l) ==>
      rover.worldmap[i, j, l] ==
        if l == RockChannel && RockTarget(warped, Pose(rover.xpos, rover.ypos, rover.yaw), rover.worldmap.Length0, math) == Some(Cell(j, i))
        then RockMarker else old(rover.worldmap[i, j, l])
    ensures |RockPoints(warped)| > 0 ==>
      rover.navAngles == Some(Bearings(RockPoints(warped), math)) &&
      rover.navDists == Some(Distances(RockPoints(warped), math)) &&
      rover.mode == Pickup &&
      rover.visionImage == PaintGreen(old(rover.visionImage), Rocks(warped, RockThreshold))
    ensures |RockPoints(warped)| == 0 ==>
      rover.navAngles == old(rover.navAngles) && rover.navDists == old(rover.navDists) &&
      rover.mode == (if old(rover.mode) == Pickup then Forward else old(rover.mode)) &&
      rover.visionImage == PaintGreen(old(rover.visionImage), ZerosLike(warped))
  {
    MasksRectangular(warped);
    var pose, worldSize := Pose(rover.xpos, rover.ypos, rover.yaw), rover.worldmap.Length0;
    var rock := Rocks(warped, RockThreshold);
    // The green channel shows the rock mask when a rock is seen and is
    // cleared otherwise; it is independent of the map and the bearings.
    rover.visionImage := PaintGreen(rover.visionImage, if AnyNonzero(rock) then rock else ZerosLike(warped));
    if AnyNonzero(rock) {
      var rockPts := RoverCoords(rock);
      var rockCells := CellsFor(rockPts, pose, worldSize, math);
      var rockDists := Distances(rockPts, math);
      var c := rockCells[FirstMin(rockDists)];
      assert RockTarget(warped, pose, worldSize, math) == Some(c);
      SetCell(rover.worldmap, c.y, c.x, RockChannel, RockMarker);
      if |rockCells| > 0 {
        rover.navDists, rover.navAngles := Some(rockDists), Some(Bearings(rockPts, math));
        rover.mode := Pickup;
      }
    } else {
      assert RockTarget(warped, pose, worldSize, math) == None;
      if rover.mode == Pickup {
        rover.mode := Forward;
      }
    }
  }

  /** One perception tick on the already perspective-warped camera frame. */
  method PerceptionStep(rover: Rover, warped: Image, math: MathLib)
    requires rover.Valid() && Rectangular(warped) && SameShape(rover.visionImage, warped)
    modifies rover`visionImage, rover`navAngles, rover`navDists, rover`mode, rover.worldmap
    ensures rover.Valid() && SameShape(rover.visionImage, warped)
    // Obstacle and navigable evidence: each distinct hit cell gains exactly
    // 1 (resp. 10). Rock channel: the marker is set at the nearest rock cell,
    // if any, and earlier markers remain. All other cells are unchanged.
    ensures var pose, n := Pose(rover.xpos, rover.ypos, rover.yaw), rover.worldmap.Length0;
      forall i, j, l :: InMap(rover.worldmap, i, j, l) ==>
        rover.worldmap[i, j, l] ==
          if l == ObstacleChannel && Cell(j, i) in ObstacleCells(warped, pose, n, math)
          then old(rover.worldmap[i, j, l]) + ObstacleIncrement
          else if l == NavigableChannel && Cell(j, i) in GroundCells(warped, pose, n, math)
          then old(rover.worldmap[i, j, l]) + NavigableIncrement
          else if l == RockChannel && RockTarget(warped, pose, n, math) == Some(Cell(j, i))
          then RockMarker
          else old(rover.worldmap[i, j, l])
    // Bearings and distances: towards the rock when one is seen, else
    // towards navigable ground.
    ensures var pts := if |RockPoints(warped)| > 0 then RockPoints(warped) else GroundPoints(warped);
      rover.navAngles == Some(Bearings(pts, math)) && rover.navDists == Some(Distances(pts, math))
    // Mode: pickup when a rock is seen; a pickup without a rock falls back to
    // forward; otherwise unchanged.
    ensures rover.mode ==
      if |RockPoints(warped)| > 0 then Pickup
      else if old(rover.mode) == Pickup then Forward else old(rover.mode)
    // Hence the controller always finds bearings to average in pickup mode.
    ensures rover.navAngles.Some? && (rover.mode == Pickup ==> |rover.navAngles.value| > 0)
    // Overlay: obstacles red, ground blue, rocks green (all zero without a
    // rock), whatever the overlay held before.
    ensures var obstacle, ground := Obstacles(warped, NavigableThreshold), ColorThresh(warped, NavigableThreshold);
      rover.visionImage ==
        if |RockPoints(warped)| > 0 then VisionOverlay(obstacle, Rocks(warped, RockThreshold), ground)
        else VisionOverlay(obstacle, ZerosLike(warped), ground)
  {
    var obstacle, ground := Obstacles(warped, NavigableThreshold), ColorThresh(warped, NavigableThreshold);
    if |RockPoints(warped)| > 0 {
      OverlayAfterTick(rover.visionImage, obstacle, Rocks(warped, RockThreshold), ground);
    } else {
      OverlayAfterTick(rover.visionImage, obstacle, ZerosLike(warped), ground);
    }
    RecordTerrain(rover, warped, math);
    RecordRock(rover, warped, math);
  }
}
