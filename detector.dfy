/**
 * The frame-processor callback of the iOS plugin (ios/VisionCameraFaceDetector.swift):
 * for every face the detector reports, the contour map and the attribute record.
 * The plugin object has no fields and its initialiser only calls its superclass, so
 * one callback is a method from the frame and the detector's outcome to the records.
 */
module FaceDetector {
  import opened Wrappers
  import opened Geometry
  import opened Observation
  import opened Estimators

  // ---------------------------------------------------------------------------
  // Contours
  // ---------------------------------------------------------------------------

  /** The contour names of the `contours` dictionary. */
  datatype ContourKey =
    | Face
    | LeftEyebrowTop | LeftEyebrowBottom | RightEyebrowTop | RightEyebrowBottom
    | LeftEyeContour | RightEyeContour | NoseBridge | NoseBottom
    | UpperLipTop | UpperLipBottom | LowerLipTop | LowerLipBottom
  {
    /** The dictionary key the plugin uses. */
    function Name(): string {
      match this
      case Face => "FACE"
      case LeftEyebrowTop => "LEFT_EYEBROW_TOP"
      case LeftEyebrowBottom => "LEFT_EYEBROW_BOTTOM"
      case RightEyebrowTop => "RIGHT_EYEBROW_TOP"
      case RightEyebrowBottom => "RIGHT_EYEBROW_BOTTOM"
      case LeftEyeContour => "LEFT_EYE"
      case RightEyeContour => "RIGHT_EYE"
      case NoseBridge => "NOSE_BRIDGE"
      case NoseBottom => "NOSE_BOTTOM"
      case UpperLipTop => "UPPER_LIP_TOP"
      case UpperLipBottom => "UPPER_LIP_BOTTOM"
      case LowerLipTop => "LOWER_LIP_TOP"
      case LowerLipBottom => "LOWER_LIP_BOTTOM"
    }

    /**
     * The landmark region reported under this name. The eyebrow "_BOTTOM" names repeat
     * the "_TOP" ones, and the lips are crossed: the lower lip's top is the inner lips
     * and its bottom the outer lips, the regions of the upper lip's bottom and top.
     */
    function Source(): Feature {
      match this
      case Face => FaceContour
      case LeftEyebrowTop | LeftEyebrowBottom => LeftEyebrow
      case RightEyebrowTop | RightEyebrowBottom => RightEyebrow
      case LeftEyeContour => LeftEye
      case RightEyeContour => RightEye
      case NoseBridge => NoseCrest
      case NoseBottom => Nose
      case UpperLipTop | LowerLipBottom => OuterLips
      case UpperLipBottom | LowerLipTop => InnerLips
    }
  }

  /** Distinct contour names are distinct dictionary keys. */
  lemma NamesDistinct(a: ContourKey, b: ContourKey)
    requires a != b
    ensures a.Name() != b.Name()
  {
  }

  /**
   * The contour dictionary for the region points `points`: every one of the thirteen
   * names, each holding the points of the region it reports; so each aliased name
   * carries exactly the points of the name it repeats.
   */
  function ContoursOf(points: Feature -> seq<Point>): (m: map<ContourKey, seq<Point>>)
    ensures forall k: ContourKey :: k in m
    ensures m[LeftEyebrowBottom] == m[LeftEyebrowTop]
    ensures m[RightEyebrowBottom] == m[RightEyebrowTop]
    ensures m[LowerLipTop] == m[UpperLipBottom]
    ensures m[LowerLipBottom] == m[UpperLipTop]
  {
    map k: ContourKey | true :: points(k.Source())
  }

  /**
   * What the nested `addContour` computes for a region of `face`: `landmarkPoints`
   * of that region, placed in the face box and scaled to the image.
   */
  function RegionPixels(face: FaceObservation, imgW: nat, imgH: nat): Feature -> seq<Point>
  {
    f => LandmarkPoints(Region(face, f), face.boundingBox, imgW, imgH)
  }

  /**
   * The contour dictionary of one face: all thirteen names, each holding the pixel
   * points of the region it reports; so a name whose region is missing holds no
   * points, one whose region is present holds one pixel point per landmark point,
   * and aliased names are equal.
   */
  function ContourMap(face: FaceObservation, imgW: nat, imgH: nat): (m: map<ContourKey, seq<Point>>)
    ensures forall k: ContourKey :: k in m
    ensures forall k: ContourKey ::
      m[k] == LandmarkPoints(Region(face, k.Source()), face.boundingBox, imgW, imgH)
    ensures forall k: ContourKey :: Region(face, k.Source()).None? ==> m[k] == []
    ensures forall k: ContourKey :: Region(face, k.Source()).Some? ==>
      |m[k]| == |Region(face, k.Source()).value|
    ensures m[LeftEyebrowBottom] == m[LeftEyebrowTop]
    ensures m[RightEyebrowBottom] == m[RightEyebrowTop]
    ensures m[LowerLipTop] == m[UpperLipBottom]
    ensures m[LowerLipBottom] == m[UpperLipTop]
  {
    ContoursOf(RegionPixels(face, imgW, imgH))
  }

  /**
   * The contour-building steps of `callback`, one dictionary assignment at a time:
   * `addContour` stores `points` of a region under a name, and each aliased name is
   * then assigned the entry of the name it repeats.
   */
  method BuildContours(points: Feature -> seq<Point>) returns (contours: map<ContourKey, seq<Point>>)
    ensures contours == ContoursOf(points)
  {
    contours := map[];
    contours := contours[Face := points(FaceContour)];
    contours := contours[LeftEyebrowTop := points(LeftEyebrow)];
    contours := contours[LeftEyebrowBottom := contours[LeftEyebrowTop]];
    contours := contours[RightEyebrowTop := points(RightEyebrow)];
    contours := contours[RightEyebrowBottom := contours[RightEyebrowTop]];
    contours := contours[LeftEyeContour := points(LeftEye)];
    contours := contours[RightEyeContour := points(RightEye)];
    contours := contours[NoseBridge := points(NoseCrest)];
    contours := contours[NoseBottom := points(Nose)];
    contours := contours[UpperLipTop := points(OuterLips)];
    contours := contours[UpperLipBottom := points(InnerLips)];
    contours := contours[LowerLipTop := contours[UpperLipBottom]];
    contours := contours[LowerLipBottom := contours[UpperLipTop]];
    forall k: ContourKey
      ensures k in contours && contours[k] == points(k.Source())
    {
      match k
      case Face =>
      case LeftEyebrowTop =>
      case LeftEyebrowBottom =>
      case RightEyebrowTop =>
      case RightEyebrowBottom =>
      case LeftEyeContour =>
      case RightEyeContour =>
      case NoseBridge =>
      case NoseBottom =>
      case UpperLipTop =>
      case UpperLipBottom =>
      case LowerLipTop =>
      case LowerLipBottom =>
    }
  }

  // ---------------------------------------------------------------------------
  // Attribute records
  // ---------------------------------------------------------------------------

  /**
   * The dictionary built for one face. Angles are in degrees; an absent `Option`
   * is the `NSNull` the plugin stores; `brightness` is on a 0-100 scale.
   */
  datatype FaceAttributes = FaceAttributes(
    rollAngle: Option<real>,
    pitchAngle: real,
    yawAngle: Option<real>,
    bounds: Bounds,
    contours: map<ContourKey, seq<Point>>,
    brightness: real,
    leftEyeOpenProbability: Option<real>,
    rightEyeOpenProbability: Option<real>,
    leftEyeState: EyeState,
    rightEyeState: EyeState,
    smilingProbability: Option<real>)

  /** A probability field: absent, or within [0, 1]. */
  predicate IsProbability(p: Option<real>)
  {
    p.Some? ==> 0.0 <= p.value <= 1.0
  }

  /** The record `callback` appends for `face`, field by field as the plugin computes it. */
  function FaceRecord(face: FaceObservation, buffer: PixelBuffer, dist: Metric): FaceAttributes
    requires PitchDefined(face)
  {
    var leftProb := EstimateEyeOpen(Region(face, LeftEye), dist);
    var rightProb := EstimateEyeOpen(Region(face, RightEye), dist);
    FaceAttributes(
      Degrees(face.roll),
      EstimatePitch(face),
      Degrees(face.yaw),
      BoundingBoxDict(DenormalizeRect(face.boundingBox, buffer.width, buffer.height)),
      ContourMap(face, buffer.width, buffer.height),
      BrightnessFraction(buffer.areaAverage) * 100.0,
      leftProb,
      rightProb,
      EyeStateOf(leftProb),
      EyeStateOf(rightProb),
      EstimateSmile(Region(face, OuterLips), dist))
  }

  /**
   * Angles and brightness of a record: roll and yaw are absent exactly when the
   * detector gave no angle, the pitch never exceeds 30 degrees, and brightness lies
   * in [0, 100].
   */
  lemma FaceRecordAngles(face: FaceObservation, buffer: PixelBuffer, dist: Metric)
    requires PitchDefined(face)
    ensures var a := FaceRecord(face, buffer, dist);
      (a.rollAngle.None? <==> face.roll.None?) &&
      (a.yawAngle.None? <==> face.yaw.None?) &&
      a.pitchAngle <= MaxPitch &&
      0.0 <= a.brightness <= 100.0
  {
  }

  /**
   * Probabilities of a record: each is absent or in [0, 1], and each eye state is
   * UNKNOWN exactly when that eye's probability is absent.
   */
  lemma FaceRecordProbabilities(face: FaceObservation, buffer: PixelBuffer, dist: Metric)
    requires PitchDefined(face)
    ensures var a := FaceRecord(face, buffer, dist);
      IsProbability(a.leftEyeOpenProbability) &&
      IsProbability(a.rightEyeOpenProbability) &&
      IsProbability(a.smilingProbability) &&
      (a.leftEyeState == Unknown <==> a.leftEyeOpenProbability.None?) &&
      (a.rightEyeState == Unknown <==> a.rightEyeOpenProbability.None?)
  {
  }

  /** Every record holds all thirteen contour names. */
  lemma FaceRecordContours(face: FaceObservation, buffer: PixelBuffer, dist: Metric)
    requires PitchDefined(face)
    ensures forall k: ContourKey :: k in FaceRecord(face, buffer, dist).contours
  {
  }

  /**
   * The bounds centre of a record is the centre of the face box, flipped to y-down
   * and scaled to the image.
   */
  lemma FaceRecordBounds(face: FaceObservation, buffer: PixelBuffer, dist: Metric)
    requires PitchDefined(face)
    ensures var b, box := FaceRecord(face, buffer, dist).bounds, face.boundingBox;
      b.boundingCenterX == (box.x + box.width / 2.0) * buffer.width as real &&
      b.boundingCenterY == (1.0 - (box.y + box.height / 2.0)) * buffer.height as real
  {
    RecordBounds(face, buffer, dist);
    DenormalizedCentre(face.boundingBox, buffer.width, buffer.height);
  }

  /** The `bounds` entry of a record is the dictionary of the denormalised face box. */
  lemma RecordBounds(face: FaceObservation, buffer: PixelBuffer, dist: Metric)
    requires PitchDefined(face)
    ensures FaceRecord(face, buffer, dist).bounds ==
      BoundingBoxDict(DenormalizeRect(face.boundingBox, buffer.width, buffer.height))
  {
  }

  /** The body of `callback`'s loop for one face: the same record as `FaceRecord`. */
  method AssembleFace(face: FaceObservation, buffer: PixelBuffer, dist: Metric)
    returns (record: FaceAttributes)
    requires PitchDefined(face)
    ensures record == FaceRecord(face, buffer, dist)
  {
    var imgW, imgH := buffer.width, buffer.height;
    var bbox := DenormalizeRect(face.boundingBox, imgW, imgH);
    var contours := BuildContours(RegionPixels(face, imgW, imgH));
    var brightness := BrightnessFraction(buffer.areaAverage);
    var leftProb := EstimateEyeOpen(Region(face, LeftEye), dist);
    var rightProb := EstimateEyeOpen(Region(face, RightEye), dist);
    record := FaceAttributes(
      Degrees(face.roll),
      EstimatePitch(face),
      Degrees(face.yaw),
      BoundingBoxDict(bbox),
      contours,
      brightness * 100.0,
      leftProb,
      rightProb,
      EyeStateOf(leftProb),
      EyeStateOf(rightProb),
      EstimateSmile(Region(face, OuterLips), dist));
  }

  /**
   * The faces the completion handler walks: none after a throw, an error or results
   * that are not face observations; otherwise exactly the reported observations.
   */
  function DetectedFaces(detection: Detection): (faces: seq<FaceObservation>)
    ensures detection.Threw? || detection.failed || detection.results.None? ==> faces == []
    ensures detection.Completed? && !detection.failed && detection.results.Some? ==>
      faces == detection.results.value
  {
    match detection
    case Threw => []
    case Completed(failed, results) =>
      if failed || results.None? then [] else results.value
  }

  /** The records for `faces`, one per face and in the same order. */
  function FaceRecords(faces: seq<FaceObservation>, buffer: PixelBuffer, dist: Metric): seq<FaceAttributes>
    requires forall face :: face in faces ==> PitchDefined(face)
  {
    seq(|faces|, i requires 0 <= i < |faces| => FaceRecord(faces[i], buffer, dist))
  }

  /** One more face extends the records of a prefix by that face's record. */
  lemma FaceRecordsPrefix(faces: seq<FaceObservation>, buffer: PixelBuffer, dist: Metric, i: nat)
    requires forall face :: face in faces ==> PitchDefined(face)
    requires i < |faces|
    ensures FaceRecords(faces, buffer, dist)[..i + 1] ==
      FaceRecords(faces, buffer, dist)[..i] + [FaceRecord(faces[i], buffer, dist)]
  {
    var records := FaceRecords(faces, buffer, dist);
    assert records[..i + 1] == records[..i] + [records[i]];
  }

  /**
   * The loop of the completion handler: one record assembled per face, appended to
   * the array in the detector's order.
   */
  method AssembleFaces(faces: seq<FaceObservation>, buffer: PixelBuffer, dist: Metric)
    returns (faceAttributes: seq<FaceAttributes>)
    requires forall face :: face in faces ==> PitchDefined(face)
    ensures faceAttributes == FaceRecords(faces, buffer, dist)
  {
    ghost var expected := FaceRecords(faces, buffer, dist);
    faceAttributes := [];
    for i := 0 to |faces|
      invariant faceAttributes == expected[..i]
    {
      var record := AssembleFace(faces[i], buffer, dist);
      FaceRecordsPrefix(faces, buffer, dist, i);
      faceAttributes := faceAttributes + [record];
    }
    assert expected[..|faces|] == expected;
  }

  /**
   * `callback`. No result when the frame has no image buffer or the request handler
   * throws. Otherwise the records of the detected faces, in the detector's order;
   * none when the detector reported an error or no faces.
   */
  method Callback(frame: Frame, detection: Detection, dist: Metric)
    returns (result: Option<seq<FaceAttributes>>)
    requires forall face :: face in DetectedFaces(detection) ==> PitchDefined(face)
    ensures result.Some? <==> frame.buffer.Some? && detection.Completed?
    ensures result.Some? ==> result.value == FaceRecords(DetectedFaces(detection), frame.buffer.value, dist)
  {
    if frame.buffer.None? {
      return None;
    }
    var buffer := frame.buffer.value;
    var faceAttributes: seq<FaceAttributes> := [];

    // The request's completion handler.
    if detection.Completed? && !detection.failed && detection.results.Some?
      && detection.results.value != []
    {
      faceAttributes := AssembleFaces(detection.results.value, buffer, dist);
    }

    if detection.Threw? {
      return None;
    }
    return Some(faceAttributes);
  }
}
