/**
 * What the face detector hands to the plugin, as plain values: the frame's pixel
 * buffer and one `VNFaceObservation` per detected face. The detector itself, the
 * sample buffer and the Core Image area-average filter are not modelled; their
 * outcomes are inputs here.
 */
module Observation {
  import opened Wrappers
  import opened Geometry

  /** The landmark regions of `VNFaceLandmarks2D` that the plugin reads. */
  datatype Feature =
    | FaceContour | LeftEyebrow | RightEyebrow | LeftEye | RightEye
    | NoseCrest | Nose | OuterLips | InnerLips

  /** An optional landmark region: its `normalizedPoints` (relative to the face box), if present. */
  type RegionPoints = Option<seq<Point>>

  /** `VNFaceLandmarks2D`: one optional region per feature the plugin reads. */
  datatype Landmarks = Landmarks(
    faceContour: RegionPoints,
    leftEyebrow: RegionPoints,
    rightEyebrow: RegionPoints,
    leftEye: RegionPoints,
    rightEye: RegionPoints,
    noseCrest: RegionPoints,
    nose: RegionPoints,
    outerLips: RegionPoints,
    innerLips: RegionPoints)
  {
    /** The region of feature `f`. */
    function Get(f: Feature): RegionPoints {
      match f
      case FaceContour => faceContour
      case LeftEyebrow => leftEyebrow
      case RightEyebrow => rightEyebrow
      case LeftEye => leftEye
      case RightEye => rightEye
      case NoseCrest => noseCrest
      case Nose => nose
      case OuterLips => outerLips
      case InnerLips => innerLips
    }
  }

  /**
   * One `VNFaceObservation`: the normalised, y-up face box; the landmarks object, if
   * any (a region's `pointCount` is the number of its points); roll and yaw in
   * radians, if reported.
   */
  datatype FaceObservation = FaceObservation(
    boundingBox: Rect,
    landmarks: Option<Landmarks>,
    roll: Option<real>,
    yaw: Option<real>)

  /** `face.landmarks?.<feature>`: absent when the landmarks object or the region is. */
  function Region(face: FaceObservation, f: Feature): RegionPoints
  {
    match face.landmarks
    case None => None
    case Some(m) => m.Get(f)
  }

  /** `UInt8`. */
  newtype byte = v: int | 0 <= v < 256

  /** The red, green and blue bytes of the 1x1 RGBA8 bitmap the area average is rendered to. */
  datatype Rgb = Rgb(r: byte, g: byte, b: byte)

  /**
   * The frame's pixel buffer: its size in pixels, and the average colour of the whole
   * image, absent when the `CIAreaAverage` filter produces no output image.
   */
  datatype PixelBuffer = PixelBuffer(width: nat, height: nat, areaAverage: Option<Rgb>)

  /** A camera frame; `buffer` is absent when the sample buffer holds no image buffer. */
  datatype Frame = Frame(buffer: Option<PixelBuffer>)

  /**
   * What running the landmark request on the frame produced. `Threw`: the request
   * handler's `perform` threw. `Completed`: the request's completion handler ran,
   * with `failed` when it was given an error, and `results` absent when they were
   * not face observations.
   */
  datatype Detection =
    | Threw
    | Completed(failed: bool, results: Option<seq<FaceObservation>>)
}
