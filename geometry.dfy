/**
 * Coordinate mapping of the iOS face-detector plugin (ios/VisionCameraFaceDetector.swift).
 *
 * Vision reports a face box normalised to the unit square of the image with the
 * origin at the bottom-left (y grows upwards), and every landmark point normalised
 * to that face box. The plugin reports pixels with the origin at the top-left
 * (y grows downwards). `CGFloat` is modelled as `real`.
 */
module Geometry {
  import opened Wrappers

  /** A `CGPoint`, and also the `["x": .., "y": ..]` dictionary a landmark point becomes. */
  datatype Point = Point(x: real, y: real)

  /** A `CGRect`: origin and size. */
  datatype Rect = Rect(x: real, y: real, width: real, height: real)

  const Origin: Point := Point(0.0, 0.0)

  function Abs(v: real): (r: real)
    ensures r >= 0.0 && (r == v || r == -v)
  {
    if v < 0.0 then -v else v
  }

  // ---------------------------------------------------------------------------
  // Distance. The source uses `hypot(dx, dy)`; the model keeps only the facts the
  // estimators rely on, as a property every admissible distance function has.
  // ---------------------------------------------------------------------------

  ghost predicate IsMetric(d: (Point, Point) -> real) {
    forall p, q :: d(p, q) >= 0.0 && (d(p, q) == 0.0 <==> p == q) && d(p, q) == d(q, p)
  }

  /** Sum of the coordinate differences: one function with the required facts. */
  function Taxicab(p: Point, q: Point): real {
    Abs(p.x - q.x) + Abs(p.y - q.y)
  }

  /** A stand-in for the Euclidean distance `hypot(p.x - q.x, p.y - q.y)`. */
  type Metric = d: (Point, Point) -> real | IsMetric(d) witness Taxicab

  // ---------------------------------------------------------------------------
  // Angles
  // ---------------------------------------------------------------------------

  /** `Double.pi`, as a decimal; only its positivity is used. */
  const Pi: real := 3.141592653589793

  /** `degrees(from:)`: radians to degrees, `nil` stays `nil`. */
  function Degrees(radians: Option<real>): (d: Option<real>)
    ensures d.None? <==> radians.None?
    ensures d.Some? ==> d.value * Pi == radians.value * 180.0
  {
    match radians
    case None => None
    case Some(r) => Some(r * 180.0 / Pi)
  }

  /** The inverse conversion, degrees to radians. */
  function Radians(degrees: real): real {
    degrees * Pi / 180.0
  }

  /** Converting to degrees loses nothing: converting back gives the input angle. */
  lemma DegreesRoundTrip(radians: real)
    ensures Degrees(Some(radians)).Some?
    ensures Radians(Degrees(Some(radians)).value) == radians
  {
    // Degrees(..) * Pi == radians * 180.0, by the contract of `Degrees`.
  }

  // ---------------------------------------------------------------------------
  // Face box
  // ---------------------------------------------------------------------------

  /**
   * `denormalizeRect`: normalised, y-up face box to a pixel, y-down rectangle.
   * The pixel left/right edges are the normalised ones scaled by the image width;
   * the pixel top edge is the flipped normalised top edge `y + height`, and the
   * pixel bottom edge is the flipped normalised bottom edge `y`.
   */
  function DenormalizeRect(rect: Rect, imgW: nat, imgH: nat): (r: Rect)
    ensures r.x == rect.x * imgW as real
    ensures r.x + r.width == (rect.x + rect.width) * imgW as real
    ensures r.y == (1.0 - (rect.y + rect.height)) * imgH as real
    ensures r.y + r.height == (1.0 - rect.y) * imgH as real
    ensures rect.width == 0.0 || imgW == 0 ==> r.width == 0.0
    ensures rect.height == 0.0 || imgH == 0 ==> r.height == 0.0
  {
    Rect(rect.x * imgW as real,
         (1.0 - rect.y - rect.height) * imgH as real,
         rect.width * imgW as real,
         rect.height * imgH as real)
  }

  /** The inverse mapping: a pixel rectangle back to a normalised, y-up box. */
  function NormalizeRect(r: Rect, imgW: nat, imgH: nat): Rect
    requires imgW > 0 && imgH > 0
  {
    Rect(r.x / imgW as real,
         1.0 - (r.y + r.height) / imgH as real,
         r.width / imgW as real,
         r.height / imgH as real)
  }

  /** For a non-empty image, denormalising a face box loses no information. */
  lemma DenormalizeRoundTrip(rect: Rect, imgW: nat, imgH: nat)
    requires imgW > 0 && imgH > 0
    ensures NormalizeRect(DenormalizeRect(rect, imgW, imgH), imgW, imgH) == rect
  {
    var w, h := imgW as real, imgH as real;
    var r := DenormalizeRect(rect, imgW, imgH);
    assert r.x / w == rect.x by { assert r.x == rect.x * w; }
    assert r.width / w == rect.width by { assert r.width == rect.width * w; }
    assert r.height / h == rect.height by { assert r.height == rect.height * h; }
    DivideScaled(r.y + r.height, 1.0 - rect.y, h);
  }

  /** Dividing `v * k` by a non-zero `k` gives `v` back. */
  lemma DivideScaled(b: real, v: real, k: real)
    requires k != 0.0 && b == v * k
    ensures b / k == v
  {
  }

  /** A non-negative quantity over a positive one is non-negative, and zero only for zero. */
  lemma QuotientSign(d: real, h: real)
    requires d >= 0.0 && h > 0.0
    ensures d / h >= 0.0
    ensures d / h == 0.0 <==> d == 0.0
  {
  }

  // ---------------------------------------------------------------------------
  // Landmark points
  // ---------------------------------------------------------------------------

  /**
   * One point of `landmarkPoints`: a point normalised to the face box is first placed
   * in the image's normalised space (`origin + p * size`), then scaled to pixels with
   * the y axis flipped.
   */
  function ProjectPoint(p: Point, faceBox: Rect, imgW: nat, imgH: nat): Point {
    var nx := faceBox.x + p.x * faceBox.width;
    var ny := faceBox.y + p.y * faceBox.height;
    Point(nx * imgW as real, (1.0 - ny) * imgH as real)
  }

  /** The inverse of `ProjectPoint`, for a non-degenerate box and image. */
  function UnprojectPoint(q: Point, faceBox: Rect, imgW: nat, imgH: nat): Point
    requires imgW > 0 && imgH > 0 && faceBox.width != 0.0 && faceBox.height != 0.0
  {
    Point((q.x / imgW as real - faceBox.x) / faceBox.width,
          (1.0 - q.y / imgH as real - faceBox.y) / faceBox.height)
  }

  /**
   * `landmarkPoints`: a missing region gives no points; otherwise one pixel point per
   * normalised point, in the same order.
   */
  function LandmarkPoints(region: Option<seq<Point>>, faceBox: Rect, imgW: nat, imgH: nat)
    : (r: seq<Point>)
    ensures region.None? ==> r == []
    ensures region.Some? ==> |r| == |region.value|
    ensures region.Some? ==>
      forall i :: 0 <= i < |r| ==> r[i] == ProjectPoint(region.value[i], faceBox, imgW, imgH)
  {
    match region
    case None => []
    case Some(pts) =>
      seq(|pts|, i requires 0 <= i < |pts| => ProjectPoint(pts[i], faceBox, imgW, imgH))
  }

  /** Projecting a landmark point loses no information when box and image are non-degenerate. */
  lemma ProjectRoundTrip(p: Point, faceBox: Rect, imgW: nat, imgH: nat)
    requires imgW > 0 && imgH > 0 && faceBox.width != 0.0 && faceBox.height != 0.0
    ensures UnprojectPoint(ProjectPoint(p, faceBox, imgW, imgH), faceBox, imgW, imgH) == p
  {
    var w, h := imgW as real, imgH as real;
    var nx := faceBox.x + p.x * faceBox.width;
    var ny := faceBox.y + p.y * faceBox.height;
    var q := ProjectPoint(p, faceBox, imgW, imgH);
    assert q.x / w == nx;
    assert q.y / h == 1.0 - ny;
    assert (nx - faceBox.x) / faceBox.width == p.x;
    assert (ny - faceBox.y) / faceBox.height == p.y;
  }

  /** Every point of a present region can be mapped back to the point it came from. */
  lemma LandmarkPointsRoundTrip(pts: seq<Point>, faceBox: Rect, imgW: nat, imgH: nat)
    requires imgW > 0 && imgH > 0 && faceBox.width != 0.0 && faceBox.height != 0.0
    ensures var r := LandmarkPoints(Some(pts), faceBox, imgW, imgH);
      |r| == |pts| &&
      forall i :: 0 <= i < |pts| ==> UnprojectPoint(r[i], faceBox, imgW, imgH) == pts[i]
  {
    forall i | 0 <= i < |pts|
      ensures UnprojectPoint(LandmarkPoints(Some(pts), faceBox, imgW, imgH)[i], faceBox, imgW, imgH) == pts[i]
    {
      ProjectRoundTrip(pts[i], faceBox, imgW, imgH);
    }
  }

  /**
   * The y axis is flipped: a point on the image's bottom edge in normalised space
   * lands on pixel row `imgH`, one on the top edge on pixel row 0.
   */
  lemma ProjectFlipsY(p: Point, faceBox: Rect, imgW: nat, imgH: nat)
    ensures faceBox.y + p.y * faceBox.height == 0.0 ==> ProjectPoint(p, faceBox, imgW, imgH).y == imgH as real
    ensures faceBox.y + p.y * faceBox.height == 1.0 ==> ProjectPoint(p, faceBox, imgW, imgH).y == 0.0
  {
  }

  /**
   * The face-local corners land on the corners of the pixel face box: the local origin
   * (bottom-left, y-up) on the pixel bottom-left, the local (1, 1) on the pixel top-right.
   */
  lemma ProjectCorners(faceBox: Rect, imgW: nat, imgH: nat)
    ensures var r := DenormalizeRect(faceBox, imgW, imgH);
      ProjectPoint(Origin, faceBox, imgW, imgH) == Point(r.x, r.y + r.height) &&
      ProjectPoint(Point(1.0, 1.0), faceBox, imgW, imgH) == Point(r.x + r.width, r.y)
  {
    assert 0.0 * faceBox.width == 0.0 && 0.0 * faceBox.height == 0.0;
    assert 1.0 * faceBox.width == faceBox.width && 1.0 * faceBox.height == faceBox.height;
  }

  /** A point inside the unit square of a face maps inside that face's pixel rectangle. */
  lemma ProjectInsideBox(p: Point, faceBox: Rect, imgW: nat, imgH: nat)
    requires 0.0 <= p.x <= 1.0 && 0.0 <= p.y <= 1.0
    requires faceBox.width >= 0.0 && faceBox.height >= 0.0
    ensures var r := DenormalizeRect(faceBox, imgW, imgH);
      var q := ProjectPoint(p, faceBox, imgW, imgH);
      r.x <= q.x <= r.x + r.width && r.y <= q.y <= r.y + r.height
  {
    var w, h := imgW as real, imgH as real;
    var r, q := DenormalizeRect(faceBox, imgW, imgH), ProjectPoint(p, faceBox, imgW, imgH);
    // Horizontally, the point sits a fraction p.x across the box.
    assert q.x == (faceBox.x + p.x * faceBox.width) * w;
    assert r.x == faceBox.x * w && r.x + r.width == (faceBox.x + faceBox.width) * w;
    ScaleBetween(faceBox.x, p.x, faceBox.width, w);
    // Flipped, it sits a fraction 1 - p.y down from the box's top edge.
    var top, t := 1.0 - (faceBox.y + faceBox.height), 1.0 - p.y;
    assert t * faceBox.height == faceBox.height - p.y * faceBox.height;
    assert top + t * faceBox.height == 1.0 - (faceBox.y + p.y * faceBox.height);
    assert top + faceBox.height == 1.0 - faceBox.y;
    assert r.y == top * h && q.y == (top + t * faceBox.height) * h;
    assert r.y + r.height == (top + faceBox.height) * h;
    ScaleBetween(top, t, faceBox.height, h);
  }

  /** `(o + t * s) * k` lies between `o * k` and `(o + s) * k` for `t` in [0, 1] and `s, k >= 0`. */
  lemma ScaleBetween(o: real, t: real, s: real, k: real)
    requires 0.0 <= t <= 1.0 && s >= 0.0 && k >= 0.0
    ensures o * k <= (o + t * s) * k <= (o + s) * k
  {
    assert 0.0 <= t * s <= s;
    assert (o + t * s) * k == o * k + (t * s) * k;
    assert (o + s) * k == o * k + s * k;
    assert 0.0 <= (t * s) * k <= s * k;
  }

  // ---------------------------------------------------------------------------
  // Bounds dictionary
  // ---------------------------------------------------------------------------

  /** The `bounds` dictionary: the rectangle and its centre (`midX`, `midY`). */
  datatype Bounds = Bounds(x: real, y: real, width: real, height: real,
                           boundingCenterX: real, boundingCenterY: real)

  /** `boundingBoxDict`: copies the rectangle and adds its centre, halfway between opposite edges. */
  function BoundingBoxDict(rect: Rect): (b: Bounds)
    ensures b.x == rect.x && b.y == rect.y && b.width == rect.width && b.height == rect.height
    ensures b.boundingCenterX - rect.x == rect.x + rect.width - b.boundingCenterX
    ensures b.boundingCenterY - rect.y == rect.y + rect.height - b.boundingCenterY
  {
    Bounds(rect.x, rect.y, rect.width, rect.height,
           rect.x + rect.width / 2.0, rect.y + rect.height / 2.0)
  }

  /** The centre reported in `bounds` is where the face-local centre (0.5, 0.5) projects. */
  lemma BoundsCentreIsProjectedCentre(faceBox: Rect, imgW: nat, imgH: nat)
    ensures var b := BoundingBoxDict(DenormalizeRect(faceBox, imgW, imgH));
      Point(b.boundingCenterX, b.boundingCenterY) == ProjectPoint(Point(0.5, 0.5), faceBox, imgW, imgH)
  {
  }

  /** The centre of the pixel face box is the face box centre, flipped to y-down and scaled. */
  lemma DenormalizedCentre(faceBox: Rect, imgW: nat, imgH: nat)
    ensures var b := BoundingBoxDict(DenormalizeRect(faceBox, imgW, imgH));
      b.boundingCenterX == (faceBox.x + faceBox.width / 2.0) * imgW as real &&
      b.boundingCenterY == (1.0 - (faceBox.y + faceBox.height / 2.0)) * imgH as real
  {
    BoundsCentreIsProjectedCentre(faceBox, imgW, imgH);
    assert 0.5 * faceBox.width == faceBox.width / 2.0 && 0.5 * faceBox.height == faceBox.height / 2.0;
  }

  // ---------------------------------------------------------------------------
  // Average point
  // ---------------------------------------------------------------------------

  /** `points.reduce(.zero) { $0 + $1 }`: a left fold of coordinate-wise addition. */
  function SumPoints(points: seq<Point>): Point
  {
    if points == [] then Origin
    else
      var s := SumPoints(points[..|points| - 1]);
      Point(s.x + points[|points| - 1].x, s.y + points[|points| - 1].y)
  }

  /** `averagePoint`: the centroid of the points; the origin for an empty list. */
  function AveragePoint(points: seq<Point>): (c: Point)
    ensures points == [] ==> c == Origin
    ensures points != [] ==>
      c.x * |points| as real == SumPoints(points).x && c.y * |points| as real == SumPoints(points).y
  {
    if points == [] then Origin
    else
      var s := SumPoints(points);
      Point(s.x / |points| as real, s.y / |points| as real)
  }

  /** The same points moved vertically by `dy`. */
  function ShiftY(points: seq<Point>, dy: real): (r: seq<Point>)
    ensures |r| == |points|
    ensures forall i :: 0 <= i < |r| ==> r[i] == Point(points[i].x, points[i].y + dy)
  {
    seq(|points|, i requires 0 <= i < |points| => Point(points[i].x, points[i].y + dy))
  }

  lemma {:induction false} SumShiftY(points: seq<Point>, dy: real)
    ensures SumPoints(ShiftY(points, dy)) ==
      Point(SumPoints(points).x, SumPoints(points).y + |points| as real * dy)
  {
    if points != [] {
      var n := |points|;
      assert ShiftY(points, dy)[..n - 1] == ShiftY(points[..n - 1], dy);
      SumShiftY(points[..n - 1], dy);
    }
  }

  /** Moving every point of a non-empty list by `dy` moves its average by `dy`. */
  lemma AverageShiftY(points: seq<Point>, dy: real)
    requires points != []
    ensures AveragePoint(ShiftY(points, dy)) ==
      Point(AveragePoint(points).x, AveragePoint(points).y + dy)
  {
    var n := |points| as real;
    SumShiftY(points, dy);
    var s := SumPoints(points);
    assert (s.y + n * dy) / n == s.y / n + dy;
  }

  lemma {:induction false} SumWithinBounds(points: seq<Point>, lo: real, hi: real)
    requires forall i :: 0 <= i < |points| ==> lo <= points[i].y <= hi
    ensures |points| as real * lo <= SumPoints(points).y <= |points| as real * hi
  {
    if points != [] {
      SumWithinBounds(points[..|points| - 1], lo, hi);
    }
  }

  /** The average height of a non-empty list lies between its lowest and highest point. */
  lemma AverageWithinBounds(points: seq<Point>, lo: real, hi: real)
    requires points != []
    requires forall i :: 0 <= i < |points| ==> lo <= points[i].y <= hi
    ensures lo <= AveragePoint(points).y <= hi
  {
    SumWithinBounds(points, lo, hi);
    var n := |points| as real;
    var c := AveragePoint(points);
    var s := SumPoints(points).y;
    assert c.y == s / n;
    assert c.y - lo == (s - n * lo) / n;
    assert hi - c.y == (n * hi - s) / n;
  }

  lemma {:induction false} SumOfCopies(points: seq<Point>, p: Point)
    requires forall i :: 0 <= i < |points| ==> points[i] == p
    ensures SumPoints(points) == Point(|points| as real * p.x, |points| as real * p.y)
  {
    if points != [] {
      SumOfCopies(points[..|points| - 1], p);
    }
  }

  /** The average of copies of one point is that point. */
  lemma AverageOfCopies(points: seq<Point>, p: Point)
    requires points != []
    requires forall i :: 0 <= i < |points| ==> points[i] == p
    ensures AveragePoint(points) == p
  {
    SumOfCopies(points, p);
  }
}
