# Face landmark geometry of the iOS face-detector frame processor

This project models the per-face geometry of the iOS frame-processor plugin
`VisionCameraFaceDetector` (`ios/VisionCameraFaceDetector.swift`).

The plugin takes one camera frame and the face observations that Vision reports for
it. For every face it builds a dictionary with these entries:

- the face box in pixels, with its centre (`bounds`);
- thirteen named contours of landmark points in pixels (`contours`);
- roll and yaw in degrees, and a pitch proxy;
- the frame's brightness on a 0-100 scale;
- an openness probability and an OPEN/CLOSED/UNKNOWN state for each eye;
- a smiling probability.

Vision works in normalised coordinates: the image is the unit square, the origin is at
the bottom-left, and landmark points are relative to the face box. The plugin reports
pixels, with the origin at the top-left.

The model has four modules:

- `Geometry` (`geometry.dfy`): angle conversion, the face box and landmark-point
  mapping from normalised y-up space to pixel y-down space, the `bounds` dictionary
  and the average of a point list. Also the inverse mappings used to state the
  round trips.
- `Observation` (`observation.dfy`): what the detector hands to the plugin, as values:
  the face observation with its optional landmark regions, the pixel buffer, and how
  the Vision request ended.
- `Estimators` (`estimators.dfy`): eye openness, eye state, smile, the pitch proxy and
  the colour-to-brightness step. All are pure functions.
- `FaceDetector` (`detector.dfy`): `callback`.
  - The contour dictionary is built one assignment at a time, as the source does.
  - The loop over faces appends one record per face.
  - Each method is proved equal to a specification function. The lemmas beside them
    state what every record satisfies.

Points of the plugin's behaviour that the model keeps exactly:

- The plugin keeps no state between frames and does not smooth the eye probabilities; each record is computed from the current frame alone.
- UNKNOWN means only that an eye's probability is absent; every present probability is either CLOSED (below 0.2) or OPEN.
- Eye openness is the lid gap (points 1 and n-2) over the corner width (points 0 and n/2), ramped over [0.15, 0.35], for more than 4 points.
- The contours are exactly the thirteen names built from nine of Vision's landmark regions, and points are mapped to the frame's own pixel size.

The plugin object has no fields, so `callback` is a method from the frame and the
detection outcome to an optional list of records; an absent list is the `nil` it
returns. `Option` models Swift optionals; once serialised, an absent value is `NSNull`.

## Model

| member | source | states |
|---|---|---|
| Geometry.Degrees | ios/VisionCameraFaceDetector.swift:20-23 | absent exactly when the radians are absent; otherwise degrees times pi equals radians times 180 |
| Geometry.DegreesRoundTrip | ios/VisionCameraFaceDetector.swift:20-23 | converting the degrees back to radians gives the original angle |
| Geometry.DenormalizeRect | ios/VisionCameraFaceDetector.swift:25-32 | the pixel left and right edges are the normalised ones times the image width; the pixel top edge is the flipped normalised top (1 - (y + height)) and the pixel bottom edge the flipped normalised bottom (1 - y), times the image height; a zero-size box or zero image dimension gives zero width or height |
| Geometry.DenormalizeRoundTrip | ios/VisionCameraFaceDetector.swift:25-32 | for a non-empty image, normalising the pixel rectangle gives back the face box |
| Geometry.LandmarkPoints | ios/VisionCameraFaceDetector.swift:34-49 | a missing region gives no points; otherwise one point per landmark point, in order, each the landmark placed in the face box and flipped and scaled to pixels |
| Geometry.ProjectRoundTrip | ios/VisionCameraFaceDetector.swift:41-48 | for a non-degenerate box and image, the pixel point maps back to the landmark point |
| Geometry.LandmarkPointsRoundTrip | ios/VisionCameraFaceDetector.swift:34-49 | every pixel point of a present region maps back to the landmark point it came from |
| Geometry.ProjectFlipsY | ios/VisionCameraFaceDetector.swift:43-46 | a point at normalised height 0 lands on pixel row imgH; one at normalised height 1 lands on row 0 |
| Geometry.ProjectCorners | ios/VisionCameraFaceDetector.swift:25-48 | the face-local origin lands on the bottom-left corner of the pixel face box; the local (1, 1) lands on its top-right corner |
| Geometry.ProjectInsideBox | ios/VisionCameraFaceDetector.swift:25-48 | a landmark point inside the unit square of its face lands inside the pixel face box |
| Geometry.BoundingBoxDict | ios/VisionCameraFaceDetector.swift:51-60 | the dictionary copies the rectangle; its centre is equidistant from the left and right edges and from the top and bottom edges |
| Geometry.BoundsCentreIsProjectedCentre | ios/VisionCameraFaceDetector.swift:51-60 | the centre of the pixel face box is where the face-local point (0.5, 0.5) is mapped |
| Geometry.DenormalizedCentre | ios/VisionCameraFaceDetector.swift:51-60 | the centre of the pixel face box is the centre of the normalised face box, flipped to y-down and scaled to the image |
| Geometry.AveragePoint | ios/VisionCameraFaceDetector.swift:66-70 | the origin for no points; otherwise each coordinate times the count equals the sum of that coordinate |
| Geometry.AverageShiftY | ios/VisionCameraFaceDetector.swift:66-70 | moving every point of a non-empty list vertically by dy moves the average by dy |
| Geometry.AverageWithinBounds | ios/VisionCameraFaceDetector.swift:66-70 | the average height of a non-empty list lies between any lower and upper bound of its points |
| Geometry.AverageOfCopies | ios/VisionCameraFaceDetector.swift:66-70 | the average of copies of one point is that point |
| Estimators.EyeOpenness | ios/VisionCameraFaceDetector.swift:88-91 | the openness is in [0, 1]; it is 0 for a ratio at or below 0.15, 1 at or above 0.35, and strictly between in between |
| Estimators.EyeOpennessMonotone | ios/VisionCameraFaceDetector.swift:88-91 | a larger lid-gap ratio never gives a lower openness |
| Estimators.EstimateEyeOpen | ios/VisionCameraFaceDetector.swift:75-94 | absent exactly when the region is missing, has 4 or fewer points, or its corners (points 0 and n/2) coincide; otherwise the corner width is positive and the value is `EyeOpenness` of the lid gap (points 1 and n-2) over that width, so it is in [0, 1], 0 for a gap at most 0.15 of the width and 1 for a gap at least 0.35 of it |
| Estimators.EyeOpenMonotoneInLidGap | ios/VisionCameraFaceDetector.swift:75-94 | for two eyes with the same point count and corners, the one with the wider lid gap never reads as less open |
| Estimators.EyeOpenMonotoneInRatio | ios/VisionCameraFaceDetector.swift:84-91 | of any two measurable eyes, the one with the larger lid-gap to width ratio never reads as less open |
| Estimators.EyeStateOf | ios/VisionCameraFaceDetector.swift:97-100 | UNKNOWN exactly when there is no probability; CLOSED exactly when the probability is below 0.2; OPEN exactly when it is 0.2 or more |
| Estimators.SmileScore | ios/VisionCameraFaceDetector.swift:115-117 | the score is in [0, 1]; it is 0 for a ratio at or below 0.2, 1 at or above 0.5, and strictly between in between |
| Estimators.SmileScoreMonotone | ios/VisionCameraFaceDetector.swift:115-117 | a larger mouth ratio never gives a lower score |
| Estimators.EstimateSmile | ios/VisionCameraFaceDetector.swift:102-118 | absent exactly when the lips are missing, have 5 or fewer points, or their corners (points 0 and n/2) coincide; otherwise the width is positive and the value is `SmileScore` of the opening (points n/4 and 3n/4) over that width, so it is in [0, 1], 0 for an opening at most 0.2 of the width and 1 for one at least 0.5 of it |
| Estimators.SmileMonotoneInOpening | ios/VisionCameraFaceDetector.swift:102-118 | for two lip contours with the same point count and corners, the one opened wider never reads as smiling less |
| Estimators.SmileMonotoneInRatio | ios/VisionCameraFaceDetector.swift:111-117 | of any two measurable lip contours, the one with the larger opening to width ratio never reads as smiling less |
| Estimators.EstimatePitch | ios/VisionCameraFaceDetector.swift:120-134 | 0 when either eye or the outer lips are missing; never above 30; with those landmarks present, exactly 30 when the eye centre and the mouth centre are level |
| Estimators.PitchMonotoneInDistance | ios/VisionCameraFaceDetector.swift:128-133 | for faces of the same positive box height, a larger eye-to-mouth distance never gives a larger pitch |
| Estimators.PitchZeroAtHalfHeight | ios/VisionCameraFaceDetector.swift:128-133 | a face whose mouth centre is half the box height from its eye centre has pitch 0 |
| Estimators.PitchTranslationInvariant | ios/VisionCameraFaceDetector.swift:120-134 | moving every landmark point vertically by the same amount leaves the pitch unchanged, when the averaged regions are non-empty |
| Estimators.BrightnessFraction | ios/VisionCameraFaceDetector.swift:160-161 | in [0, 1]; 0 when there is no averaged colour; 0 exactly for black and 1 exactly for white |
| Estimators.BrightnessMonotone | ios/VisionCameraFaceDetector.swift:160-161 | a colour at least as bright in every channel is at least as bright overall |
| FaceDetector.NamesDistinct | ios/VisionCameraFaceDetector.swift:186-198 | distinct contour names are distinct dictionary key strings, so the thirteen entries never overwrite one another |
| FaceDetector.ContoursOf | ios/VisionCameraFaceDetector.swift:182-198 | all thirteen contour names are present; each "_BOTTOM" eyebrow name equals its "_TOP" name; LOWER_LIP_TOP equals UPPER_LIP_BOTTOM and LOWER_LIP_BOTTOM equals UPPER_LIP_TOP |
| FaceDetector.ContourMap | ios/VisionCameraFaceDetector.swift:180-198 | all thirteen names are present, and each holds `LandmarkPoints` of the region it reports, placed in the face box and scaled to the image; so a name whose region is missing holds no points, one whose region is present holds one point per landmark point, and the aliased names are equal |
| FaceDetector.BuildContours | ios/VisionCameraFaceDetector.swift:180-198 | the thirteen dictionary assignments, aliases copied from the entries already stored, yield exactly the contour dictionary of `ContoursOf` |
| FaceDetector.FaceRecordAngles | ios/VisionCameraFaceDetector.swift:206-218 | roll and yaw are absent exactly when the detector gave none; the pitch is at most 30; the brightness is in [0, 100] |
| FaceDetector.FaceRecordProbabilities | ios/VisionCameraFaceDetector.swift:203-217 | both eye probabilities and the smiling probability are absent or in [0, 1]; each eye state is UNKNOWN exactly when that eye's probability is absent |
| FaceDetector.FaceRecordContours | ios/VisionCameraFaceDetector.swift:180-211 | every record holds all thirteen contour names |
| FaceDetector.FaceRecordBounds | ios/VisionCameraFaceDetector.swift:178-210 | the bounds centre is the centre of the normalised face box, flipped to y-down and scaled to the image |
| FaceDetector.AssembleFace | ios/VisionCameraFaceDetector.swift:177-220 | the loop body for one face builds exactly the record `FaceRecord` describes |
| FaceDetector.DetectedFaces | ios/VisionCameraFaceDetector.swift:175 | no faces are walked after a thrown request, a reported error or results that are not face observations; otherwise exactly the reported observations, in order |
| FaceDetector.AssembleFaces | ios/VisionCameraFaceDetector.swift:177-221 | the loop appends one record per face, in the detector's order |
| FaceDetector.Callback | ios/VisionCameraFaceDetector.swift:167-228 | no result exactly when the frame has no image buffer or the request handler throws; otherwise the records of the detected faces in order, which is none after a reported error or when no faces were found |

## Left out

- The Android plugin (`android/`) is not part of this model.
- The plugin's initialiser only forwards to its superclass, so the plugin holds no state and is not modelled as a class.
- Vision's face-landmarks request, `VNImageRequestHandler`, `CMSampleBuffer` and `CVPixelBuffer` are not modelled. What they produce becomes an input:
  - the image size and the averaged colour in `PixelBuffer`;
  - how the request ended in `Detection`.
- The request's completion handler runs inside `perform`. A throw from `perform` discards the records, modelled as `Threw`.
- `estimateBrightness` is not modelled beyond its final step. The `CIAreaAverage` filter and the render to a 1x1 RGBA8 bitmap are replaced by their outcome, the averaged colour, which is absent when the filter has no output image. The alpha byte is ignored, as in the source.
- The source computes brightness once per face from the same frame; the model computes it from the frame's one averaged colour.
- `hypot` is not modelled numerically. The distance is a parameter of type `Metric`, constrained to be non-negative, zero exactly for equal points and symmetric. So the "width > 0" guards of the estimators become "the two corner points differ".
- Floating point is modelled as exact reals: `CGFloat`, `Double` and the `Float` conversions in pitch and brightness. Rounding, infinities and NaN are not modelled.
- `Double.pi` is a decimal constant; only its positivity is used.
- A region's `pointCount` is taken to be the length of its `normalizedPoints`.
- EstimatePitch: requires a positive face box height whenever both eyes and the outer lips are present. The source divides by that height, and in floating point a zero height yields an infinity or NaN, which the model does not represent. `FaceDetector.Callback`, `AssembleFaces`, `AssembleFace` and the `FaceRecord` lemmas carry the same precondition for every detected face.
- Serialisation into `[String: Any]` is represented by records:
  - a contour name is `ContourKey.Name()`;
  - an eye state string is `EyeState.Label()`;
  - a point dictionary `["x": .., "y": ..]` is a `Point`;
  - `NSNull` is `None`.
- Face boxes with a negative width or height are outside the model. `CGRect.width` and `CGRect.height` are standardised (never negative), while the model reads the stored width and height as they are; Vision reports face boxes with non-negative sizes, where the two agree.
