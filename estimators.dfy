/**
 * The per-face estimators of the iOS plugin (ios/VisionCameraFaceDetector.swift):
 * eye openness and eye state, smile, the pitch proxy and frame brightness. Each is
 * a pure function of the landmark points; none keeps state between calls.
 */
module Estimators {
  import opened Wrappers
  import opened Geometry
  import opened Observation

  /** `min(max(v, 0), 1)`. */
  function Clamp01(v: real): (r: real)
    ensures 0.0 <= r <= 1.0
    ensures 0.0 <= v <= 1.0 ==> r == v
    ensures v <= 0.0 ==> r == 0.0
    ensures v >= 1.0 ==> r == 1.0
  {
    var atLeastZero := if v < 0.0 then 0.0 else v;
    if atLeastZero < 1.0 then atLeastZero else 1.0
  }

  lemma ClampMonotone(a: real, b: real)
    requires a <= b
    ensures Clamp01(a) <= Clamp01(b)
  {
  }

  // ---------------------------------------------------------------------------
  // Eye openness
  // ---------------------------------------------------------------------------

  /** The lid-gap to eye-width ratio at and below which an eye counts as fully closed. */
  const ClosedEyeRatio: real := 0.15
  /** The ratio span over which openness rises from 0 to 1. */
  const EyeRatioSpan: real := 0.2

  /** Openness of an eye as a function of its height/width ratio: a clamped linear ramp. */
  function EyeOpenness(ratio: real): (p: real)
    ensures 0.0 <= p <= 1.0
    ensures ratio <= ClosedEyeRatio ==> p == 0.0
    ensures ratio >= ClosedEyeRatio + EyeRatioSpan ==> p == 1.0
    ensures ClosedEyeRatio < ratio < ClosedEyeRatio + EyeRatioSpan ==> 0.0 < p < 1.0
  {
    Clamp01((ratio - ClosedEyeRatio) / EyeRatioSpan)
  }

  /** A more open eye (a larger ratio) never reads as less open. */
  lemma EyeOpennessMonotone(a: real, b: real)
    requires a <= b
    ensures EyeOpenness(a) <= EyeOpenness(b)
  {
    ClampMonotone((a - ClosedEyeRatio) / EyeRatioSpan, (b - ClosedEyeRatio) / EyeRatioSpan);
  }

  /** True when `estimateEyeOpen` has enough distinct points to measure `points`. */
  predicate Measurable(points: seq<Point>, minCount: nat)
  {
    |points| > minCount && points[0] != points[|points| / 2]
  }

  /**
   * `estimateEyeOpen`. Absent for a missing region, for 4 or fewer points and when the
   * two corners (points 0 and n/2) coincide. Otherwise the lid gap (points 1 and n-2)
   * over the corner width, mapped by `EyeOpenness`; so an eye whose gap is at most 0.15
   * of its width reads 0 and one whose gap is at least 0.35 of its width reads 1.
   */
  function EstimateEyeOpen(eye: Option<seq<Point>>, dist: Metric): (r: Option<real>)
    ensures r.None? <==> eye.None? || !Measurable(eye.value, 4)
    ensures r.Some? ==> 0.0 <= r.value <= 1.0
    ensures r.Some? ==>
      var pts := eye.value;
      var width := dist(pts[0], pts[|pts| / 2]);
      var height := dist(pts[1], pts[|pts| - 2]);
      width > 0.0 &&
      r.value == EyeOpenness(height / width) &&
      (height <= ClosedEyeRatio * width ==> r.value == 0.0) &&
      (height >= (ClosedEyeRatio + EyeRatioSpan) * width ==> r.value == 1.0)
  {
    if eye.None? || |eye.value| <= 4 then None
    else
      var points := eye.value;
      var leftCorner := points[0];
      var rightCorner := points[|points| / 2];
      var upper := points[1];
      var lower := points[|points| - 2];
      var width := dist(leftCorner, rightCorner);
      var height := dist(upper, lower);
      if !(width > 0.0) then None
      else
        RatioThresholds(height, width, ClosedEyeRatio);
        RatioThresholds(height, width, ClosedEyeRatio + EyeRatioSpan);
        Some(EyeOpenness(height / width))
  }

  /** For a positive width, `height / width` is on the same side of `t` as `height` is of `t * width`. */
  lemma RatioThresholds(height: real, width: real, t: real)
    requires width > 0.0
    ensures height <= t * width <==> height / width <= t
    ensures height >= t * width <==> height / width >= t
  {
    DivideScaled(height, height / width, width);
  }

  /**
   * Of two eyes with the same number of points and the same corners, the one whose
   * lids are further apart never reads as less open.
   */
  lemma EyeOpenMonotoneInLidGap(a: seq<Point>, b: seq<Point>, dist: Metric)
    requires Measurable(a, 4) && |b| == |a|
    requires b[0] == a[0] && b[|b| / 2] == a[|a| / 2]
    requires dist(a[1], a[|a| - 2]) <= dist(b[1], b[|b| - 2])
    ensures EstimateEyeOpen(Some(a), dist).Some? && EstimateEyeOpen(Some(b), dist).Some?
    ensures EstimateEyeOpen(Some(a), dist).value <= EstimateEyeOpen(Some(b), dist).value
  {
    var width := dist(a[0], a[|a| / 2]);
    var ha, hb := dist(a[1], a[|a| - 2]), dist(b[1], b[|b| - 2]);
    RatioMonotone(ha, hb, width);
    EyeOpennessMonotone(ha / width, hb / width);
  }

  /** The lid-gap to corner-width ratio `estimateEyeOpen` ramps; defined for measurable eyes. */
  function EyeRatio(pts: seq<Point>, dist: Metric): real
    requires Measurable(pts, 4)
  {
    dist(pts[1], pts[|pts| - 2]) / dist(pts[0], pts[|pts| / 2])
  }

  /** Of any two measurable eyes, the one with the larger ratio never reads as less open. */
  lemma EyeOpenMonotoneInRatio(a: seq<Point>, b: seq<Point>, dist: Metric)
    requires Measurable(a, 4) && Measurable(b, 4)
    requires EyeRatio(a, dist) <= EyeRatio(b, dist)
    ensures EstimateEyeOpen(Some(a), dist).Some? && EstimateEyeOpen(Some(b), dist).Some?
    ensures EstimateEyeOpen(Some(a), dist).value <= EstimateEyeOpen(Some(b), dist).value
  {
    EyeOpennessMonotone(EyeRatio(a, dist), EyeRatio(b, dist));
  }

  lemma RatioMonotone(h1: real, h2: real, width: real)
    requires width > 0.0 && h1 <= h2
    ensures h1 / width <= h2 / width
  {
    DivideScaled(h1, h1 / width, width);
    DivideScaled(h2, h2 / width, width);
  }

  // ---------------------------------------------------------------------------
  // Eye state
  // ---------------------------------------------------------------------------

  /** An eye-open probability below this reads as a closed eye. */
  const ClosedThreshold: real := 0.2

  datatype EyeState = Open | Closed | Unknown {
    /** The string the plugin reports. */
    function Label(): string {
      match this
      case Open => "OPEN"
      case Closed => "CLOSED"
      case Unknown => "UNKNOWN"
    }
  }

  /**
   * `eyeState(from:)`: no probability gives UNKNOWN; a probability below 0.2 gives
   * CLOSED; any other probability gives OPEN. A present probability is never UNKNOWN.
   */
  function EyeStateOf(prob: Option<real>): (s: EyeState)
    ensures s == Unknown <==> prob.None?
    ensures s == Closed <==> prob.Some? && prob.value < ClosedThreshold
    ensures s == Open <==> prob.Some? && prob.value >= ClosedThreshold
  {
    match prob
    case None => Unknown
    case Some(p) => if p < ClosedThreshold then Closed else Open
  }

  // ---------------------------------------------------------------------------
  // Smile
  // ---------------------------------------------------------------------------

  /** The mouth-opening to mouth-width ratio at and below which the smile reads 0. */
  const NeutralMouthRatio: real := 0.2
  /** The ratio span over which the smile rises from 0 to 1. */
  const SmileRatioSpan: real := 0.3

  /** Smile as a function of the mouth's height/width ratio: a clamped linear ramp. */
  function SmileScore(ratio: real): (p: real)
    ensures 0.0 <= p <= 1.0
    ensures ratio <= NeutralMouthRatio ==> p == 0.0
    ensures ratio >= NeutralMouthRatio + SmileRatioSpan ==> p == 1.0
    ensures NeutralMouthRatio < ratio < NeutralMouthRatio + SmileRatioSpan ==> 0.0 < p < 1.0
  {
    Clamp01((ratio - NeutralMouthRatio) / SmileRatioSpan)
  }

  lemma SmileScoreMonotone(a: real, b: real)
    requires a <= b
    ensures SmileScore(a) <= SmileScore(b)
  {
    ClampMonotone((a - NeutralMouthRatio) / SmileRatioSpan, (b - NeutralMouthRatio) / SmileRatioSpan);
  }

  /**
   * `estimateSmile`. Absent for a missing lip region, for 5 or fewer points and when
   * the two corners (points 0 and n/2) coincide. Otherwise the opening (points n/4 and
   * 3n/4) over the corner width, mapped by `SmileScore`; so a mouth opened at most 0.2
   * of its width reads 0 and one opened at least 0.5 of its width reads 1.
   */
  function EstimateSmile(lips: Option<seq<Point>>, dist: Metric): (r: Option<real>)
    ensures r.None? <==> lips.None? || !Measurable(lips.value, 5)
    ensures r.Some? ==> 0.0 <= r.value <= 1.0
    ensures r.Some? ==>
      var pts := lips.value;
      var n := |pts|;
      var width := dist(pts[0], pts[n / 2]);
      var height := dist(pts[n / 4], pts[3 * n / 4]);
      width > 0.0 &&
      r.value == SmileScore(height / width) &&
      (height <= NeutralMouthRatio * width ==> r.value == 0.0) &&
      (height >= (NeutralMouthRatio + SmileRatioSpan) * width ==> r.value == 1.0)
  {
    if lips.None? || |lips.value| <= 5 then None
    else
      var points := lips.value;
      var n := |points|;
      var leftCorner := points[0];
      var rightCorner := points[n / 2];
      var topMid := points[n / 4];
      var bottomMid := points[3 * n / 4];
      var width := dist(leftCorner, rightCorner);
      var height := dist(topMid, bottomMid);
      if !(width > 0.0) then None
      else
        RatioThresholds(height, width, NeutralMouthRatio);
        RatioThresholds(height, width, NeutralMouthRatio + SmileRatioSpan);
        Some(SmileScore(height / width))
  }

  /**
   * Of two lip contours with the same number of points and the same corners, the one
   * opened wider never reads as smiling less.
   */
  lemma SmileMonotoneInOpening(a: seq<Point>, b: seq<Point>, dist: Metric)
    requires Measurable(a, 5) && |b| == |a|
    requires b[0] == a[0] && b[|b| / 2] == a[|a| / 2]
    requires dist(a[|a| / 4], a[3 * |a| / 4]) <= dist(b[|b| / 4], b[3 * |b| / 4])
    ensures EstimateSmile(Some(a), dist).Some? && EstimateSmile(Some(b), dist).Some?
    ensures EstimateSmile(Some(a), dist).value <= EstimateSmile(Some(b), dist).value
  {
    var n := |a|;
    var width := dist(a[0], a[n / 2]);
    var ha, hb := dist(a[n / 4], a[3 * n / 4]), dist(b[n / 4], b[3 * n / 4]);
    RatioMonotone(ha, hb, width);
    SmileScoreMonotone(ha / width, hb / width);
  }

  /** The mouth-opening to mouth-width ratio `estimateSmile` ramps; defined for measurable lips. */
  function MouthRatio(pts: seq<Point>, dist: Metric): real
    requires Measurable(pts, 5)
  {
    var n := |pts|;
    dist(pts[n / 4], pts[3 * n / 4]) / dist(pts[0], pts[n / 2])
  }

  /** Of any two measurable lip contours, the one with the larger ratio never reads as smiling less. */
  lemma SmileMonotoneInRatio(a: seq<Point>, b: seq<Point>, dist: Metric)
    requires Measurable(a, 5) && Measurable(b, 5)
    requires MouthRatio(a, dist) <= MouthRatio(b, dist)
    ensures EstimateSmile(Some(a), dist).Some? && EstimateSmile(Some(b), dist).Some?
    ensures EstimateSmile(Some(a), dist).value <= EstimateSmile(Some(b), dist).value
  {
    SmileScoreMonotone(MouthRatio(a, dist), MouthRatio(b, dist));
  }

  // ---------------------------------------------------------------------------
  // Pitch
  // ---------------------------------------------------------------------------

  /** The landmarks `estimatePitch` needs: both eyes and the outer lips. */
  predicate HasPitchLandmarks(face: FaceObservation)
  {
    Region(face, LeftEye).Some? && Region(face, RightEye).Some? && Region(face, OuterLips).Some?
  }

  /** The face box height the pitch is divided by is positive whenever it is used. */
  predicate PitchDefined(face: FaceObservation)
  {
    HasPitchLandmarks(face) ==> face.boundingBox.height > 0.0
  }

  /** Mean of the two eyes' average heights. */
  function EyeCenterY(face: FaceObservation): real
    requires HasPitchLandmarks(face)
  {
    (AveragePoint(Region(face, LeftEye).value).y + AveragePoint(Region(face, RightEye).value).y) / 2.0
  }

  /** Average height of the outer lips. */
  function MouthCenterY(face: FaceObservation): real
    requires HasPitchLandmarks(face)
  {
    AveragePoint(Region(face, OuterLips).value).y
  }

  /** Pitch, in degrees, of a face whose eyes and mouth are level. */
  const MaxPitch: real := 30.0

  /**
   * `estimatePitch`: 0 when either eye or the outer lips are missing; otherwise
   * `(0.5 - |mouthY - eyeY| / boxHeight) * 60`, which never exceeds 30 and reaches 30
   * exactly when the eye centre and the mouth centre are level.
   */
  function EstimatePitch(face: FaceObservation): (p: real)
    requires PitchDefined(face)
    ensures !HasPitchLandmarks(face) ==> p == 0.0
    ensures p <= MaxPitch
    ensures HasPitchLandmarks(face) ==> (p == MaxPitch <==> EyeCenterY(face) == MouthCenterY(face))
  {
    if !HasPitchLandmarks(face) then 0.0
    else
      var eyeMouthDist := Abs(MouthCenterY(face) - EyeCenterY(face));
      var h := face.boundingBox.height;
      var ratio := eyeMouthDist / h;
      QuotientSign(eyeMouthDist, h);
      (0.5 - ratio) * 60.0
  }

  /** The vertical distance between the mouth centre and the eye centre. */
  function EyeMouthDistance(face: FaceObservation): real
    requires HasPitchLandmarks(face)
  {
    Abs(MouthCenterY(face) - EyeCenterY(face))
  }

  /**
   * For faces of the same box height, the one whose mouth is further from its eyes
   * never has the larger pitch: the pitch falls linearly with that distance.
   */
  lemma PitchMonotoneInDistance(a: FaceObservation, b: FaceObservation)
    requires HasPitchLandmarks(a) && HasPitchLandmarks(b)
    requires a.boundingBox.height == b.boundingBox.height > 0.0
    requires EyeMouthDistance(a) <= EyeMouthDistance(b)
    ensures EstimatePitch(b) <= EstimatePitch(a)
  {
    RatioMonotone(EyeMouthDistance(a), EyeMouthDistance(b), a.boundingBox.height);
  }

  /** A face whose mouth is half the box height from its eyes has pitch 0. */
  lemma PitchZeroAtHalfHeight(face: FaceObservation)
    requires HasPitchLandmarks(face) && face.boundingBox.height > 0.0
    requires EyeMouthDistance(face) == face.boundingBox.height / 2.0
    ensures EstimatePitch(face) == 0.0
  {
    var h := face.boundingBox.height;
    DivideScaled(EyeMouthDistance(face), 0.5, h);
  }

  /** A region moved vertically by `dy`. */
  function ShiftRegion(region: RegionPoints, dy: real): RegionPoints {
    match region
    case None => None
    case Some(pts) => Some(ShiftY(pts, dy))
  }

  /** The face with every landmark point moved vertically by `dy` (the box stays). */
  function ShiftLandmarks(face: FaceObservation, dy: real): (r: FaceObservation)
    ensures forall f :: Region(r, f) == ShiftRegion(Region(face, f), dy)
  {
    match face.landmarks
    case None => face
    case Some(m) =>
      face.(landmarks := Some(Landmarks(
        ShiftRegion(m.faceContour, dy), ShiftRegion(m.leftEyebrow, dy),
        ShiftRegion(m.rightEyebrow, dy), ShiftRegion(m.leftEye, dy),
        ShiftRegion(m.rightEye, dy), ShiftRegion(m.noseCrest, dy),
        ShiftRegion(m.nose, dy), ShiftRegion(m.outerLips, dy),
        ShiftRegion(m.innerLips, dy))))
  }

  /**
   * The pitch depends only on the vertical distance between eyes and mouth: moving
   * every landmark by the same amount leaves it unchanged, provided the regions it
   * averages are non-empty (an empty region averages to the origin wherever the
   * others are).
   */
  lemma PitchTranslationInvariant(face: FaceObservation, dy: real)
    requires PitchDefined(face)
    requires HasPitchLandmarks(face) ==>
      Region(face, LeftEye).value != [] && Region(face, RightEye).value != [] &&
      Region(face, OuterLips).value != []
    ensures PitchDefined(ShiftLandmarks(face, dy))
    ensures EstimatePitch(ShiftLandmarks(face, dy)) == EstimatePitch(face)
  {
    var moved := ShiftLandmarks(face, dy);
    if HasPitchLandmarks(face) {
      AverageShiftY(Region(face, LeftEye).value, dy);
      AverageShiftY(Region(face, RightEye).value, dy);
      AverageShiftY(Region(face, OuterLips).value, dy);
      assert EyeCenterY(moved) == EyeCenterY(face) + dy;
      assert MouthCenterY(moved) == MouthCenterY(face) + dy;
    }
  }

  // ---------------------------------------------------------------------------
  // Brightness
  // ---------------------------------------------------------------------------

  /**
   * The colour-averaging step of `estimateBrightness`: the mean of the red, green and
   * blue bytes as a fraction of 255; 0 when there is no averaged colour. It is 0
   * exactly for black and 1 exactly for white.
   */
  function BrightnessFraction(average: Option<Rgb>): (f: real)
    ensures 0.0 <= f <= 1.0
    ensures average.None? ==> f == 0.0
    ensures average.Some? ==>
      var c := average.value;
      (f == 0.0 <==> c.r == 0 && c.g == 0 && c.b == 0) &&
      (f == 1.0 <==> c.r == 255 && c.g == 255 && c.b == 255)
  {
    match average
    case None => 0.0
    case Some(c) => (c.r as real + c.g as real + c.b as real) / (3.0 * 255.0)
  }

  /** A colour at least as bright in every channel is at least as bright overall. */
  lemma BrightnessMonotone(c: Rgb, d: Rgb)
    requires c.r <= d.r && c.g <= d.g && c.b <= d.b
    ensures BrightnessFraction(Some(c)) <= BrightnessFraction(Some(d))
  {
  }
}
