/** Eye openness and coarse gaze from face landmarks: the eye aspect
    ratio (EAR) of six eye points, an open/closed decision against a
    threshold, and a quantised gaze direction. */
module EyeAnalysis {
  import opened Util

  datatype Point = Point(x: real, y: real)

  /** The landmark array as the code sees it: its number of dimensions,
      its number of columns, and the first two coordinates of each row. */
  datatype Landmarks = Landmarks(ndim: nat, cols: nat, points: seq<Point>)

  /** The Euclidean distance is a parameter; the model assumes only that
      it is never negative and that a point is at distance 0 from itself. */
  ghost predicate IsDistance(dist: (Point, Point) -> real)
  {
    forall p, q :: dist(p, q) >= 0.0 && (p == q ==> dist(p, q) == 0.0)
  }

  const DefaultEarThreshold := 0.20

  const MediaPipeLeftEye: seq<nat> := [33, 160, 158, 133, 153, 144]
  const MediaPipeRightEye: seq<nat> := [362, 385, 387, 263, 373, 380]
  const InsightFaceLeftEye: seq<nat> := [60, 61, 62, 63, 64, 65]
  const InsightFaceRightEye: seq<nat> := [66, 67, 68, 69, 70, 71]

  const ZeroEye: seq<Point> := [Point(0.0, 0.0), Point(0.0, 0.0), Point(0.0, 0.0),
                                Point(0.0, 0.0), Point(0.0, 0.0), Point(0.0, 0.0)]

  /** The left and right index lists for a landmark count: MediaPipe's
      from 468 points, InsightFace's from 106, none below. */
  function EyeIndices(n: nat): (r: Option<(seq<nat>, seq<nat>)>)
    ensures r.None? <==> n < 106
    ensures r.Some? ==> |r.value.0| == 6 && |r.value.1| == 6
    ensures r.Some? ==> forall i :: 0 <= i < 6 ==> r.value.0[i] < n && r.value.1[i] < n
  {
    if n >= 468 then Some((MediaPipeLeftEye, MediaPipeRightEye))
    else if n >= 106 then Some((InsightFaceLeftEye, InsightFaceRightEye))
    else None
  }

  /** The largest index (`max(idx)`). Indices are naturals and the
      coordinate extremes below are reals, hence two maxima. */
  function MaxIndex(idx: seq<nat>): (m: nat)
    requires |idx| > 0
    ensures forall i :: 0 <= i < |idx| ==> idx[i] <= m
    ensures exists i :: 0 <= i < |idx| && idx[i] == m
  {
    if |idx| == 1 then idx[0]
    else
      var m := MaxIndex(idx[1..]);
      assert forall i :: 1 <= i < |idx| ==> idx[i] == idx[1..][i - 1];
      if idx[0] >= m then idx[0] else m
  }

  /** The rows at the given indices (`lm2[idx, :]`). */
  function Select(points: seq<Point>, idx: seq<nat>): (r: seq<Point>)
    requires forall i :: 0 <= i < |idx| ==> idx[i] < |points|
    ensures |r| == |idx| && forall i :: 0 <= i < |idx| ==> r[i] == points[idx[i]]
  {
    seq(|idx|, i requires 0 <= i < |idx| => points[idx[i]])
  }

  predicate WellShaped(lm: Landmarks)
  {
    lm.ndim == 2 && lm.cols >= 2
  }

  const ShapeError := "landmarks must be an Nx2 or Nx3 array"

  /** `get_eye_landmarks_from_face`: an error for an array that is not
      N×2 or wider; all-zero eyes when the count matches no layout;
      otherwise the six points of each eye. */
  function EyeLandmarksFromFace(lm: Landmarks): (r: Result<(seq<Point>, seq<Point>)>)
    ensures r.Err? <==> !WellShaped(lm)
    ensures r.Ok? ==> |r.value.0| == 6 && |r.value.1| == 6
    ensures r.Ok? && |lm.points| < 106 ==> r.value == (ZeroEye, ZeroEye)
    ensures r.Ok? && |lm.points| >= 106 ==>
      var idx := EyeIndices(|lm.points|).value;
      r.value == (Select(lm.points, idx.0), Select(lm.points, idx.1))
  {
    if !WellShaped(lm) then Err(ShapeError)
    else
      var n := |lm.points|;
      match EyeIndices(n)
      case None => Ok((ZeroEye, ZeroEye))
      case Some((left, right)) =>
        if MaxIndex(left + right) >= n then Ok((ZeroEye, ZeroEye))
        else
          assert forall i :: 0 <= i < 6 ==> left[i] == (left + right)[i] && right[i] == (left + right)[6 + i];
          Ok((Select(lm.points, left), Select(lm.points, right)))
  }

  /** (A + B) / (2·C), or 0 when C is 0. */
  function EarOf(a: real, b: real, c: real): (ear: real)
    requires a >= 0.0 && b >= 0.0 && c >= 0.0
    ensures ear >= 0.0
    ensures c == 0.0 ==> ear == 0.0
    ensures c > 0.0 ==> ear * (2.0 * c) == a + b
  {
    if c == 0.0 then 0.0 else (a + b) / (2.0 * c)
  }

  const EarShapeError := "eye_landmarks must have shape (6, 2)"

  /** `eye_aspect_ratio`: an error unless there are exactly six points
      p1..p6; otherwise (|p2 p6| + |p3 p5|) / (2·|p1 p4|), 0 for a
      collapsed eye. */
  function EyeAspectRatio(eye: seq<Point>, dist: (Point, Point) -> real): (r: Result<real>)
    requires IsDistance(dist)
    ensures r.Err? <==> |eye| != 6
    ensures r.Ok? ==> r.value == EarOf(dist(eye[1], eye[5]), dist(eye[2], eye[4]), dist(eye[0], eye[3]))
    ensures r.Ok? ==> r.value >= 0.0 && (eye[0] == eye[3] ==> r.value == 0.0)
  {
    if |eye| != 6 then Err(EarShapeError)
    else Ok(EarOf(dist(eye[1], eye[5]), dist(eye[2], eye[4]), dist(eye[0], eye[3])))
  }

  /** The test's open eye (vertical gaps 2 and 2 over a width of 4) has
      EAR 0.5 and its closed eye (gaps 0.2 and 0.2) has EAR 0.05; with the
      default threshold the first is open and the second closed. */
  lemma TestEyesOpenAndClosed()
    ensures EarOf(2.0, 2.0, 4.0) == 0.5 && EarOf(0.2, 0.2, 4.0) == 0.05
    ensures EyeOpen(EarOf(2.0, 2.0, 4.0), DefaultEarThreshold)
    ensures !EyeOpen(EarOf(0.2, 0.2, 4.0), DefaultEarThreshold)
  {
  }

  /** The threshold is inclusive. */
  predicate EyeOpen(ear: real, threshold: real)
  {
    ear >= threshold
  }

  // ---------------------------------------------------------------
  // Coarse gaze
  // ---------------------------------------------------------------

  datatype Gaze = Left | Right | Up | Down | Center

  function GazeName(g: Gaze): string
  {
    match g
    case Left => "left"
    case Right => "right"
    case Up => "up"
    case Down => "down"
    case Center => "center"
  }

  function MinOf(xs: seq<real>): (m: real)
    requires |xs| > 0
    ensures forall i :: 0 <= i < |xs| ==> m <= xs[i]
    ensures exists i :: 0 <= i < |xs| && xs[i] == m
  {
    if |xs| == 1 then xs[0]
    else
      var m := MinOf(xs[1..]);
      assert forall i :: 1 <= i < |xs| ==> xs[i] == xs[1..][i - 1];
      if xs[0] <= m then xs[0] else m
  }

  function MaxOf(xs: seq<real>): (m: real)
    requires |xs| > 0
    ensures forall i :: 0 <= i < |xs| ==> xs[i] <= m
    ensures exists i :: 0 <= i < |xs| && xs[i] == m
  {
    if |xs| == 1 then xs[0]
    else
      var m := MaxOf(xs[1..]);
      assert forall i :: 1 <= i < |xs| ==> xs[i] == xs[1..][i - 1];
      if xs[0] >= m then xs[0] else m
  }

  function Xs(eye: seq<Point>): (r: seq<real>)
    ensures |r| == |eye| && forall i :: 0 <= i < |eye| ==> r[i] == eye[i].x
  {
    seq(|eye|, i requires 0 <= i < |eye| => eye[i].x)
  }

  function Ys(eye: seq<Point>): (r: seq<real>)
    ensures |r| == |eye| && forall i :: 0 <= i < |eye| ==> r[i] == eye[i].y
  {
    seq(|eye|, i requires 0 <= i < |eye| => eye[i].y)
  }

  /** Where the mean of the coordinates sits in their range, from 0 at
      the minimum to 1 at the maximum. */
  function RangeRatio(xs: seq<real>): (r: real)
    requires |xs| > 0 && MaxOf(xs) - MinOf(xs) > 0.0
    ensures 0.0 <= r <= 1.0
  {
    var lo, hi := MinOf(xs), MaxOf(xs);
    MeanBounds(xs, lo, hi);
    RatioBounds(Mean(xs) - lo, hi - lo);
    (Mean(xs) - lo) / (hi - lo)
  }

  /** Below 0.35 is the low side, above 0.65 the high side. */
  function Quantise(ratio: real, low: Gaze, high: Gaze): (g: Gaze)
    ensures g == low <==> ratio < 0.35 || (low == high && ratio > 0.65)
    ensures g == high <==> ratio > 0.65 || (low == high && ratio < 0.35)
    ensures g == Center <==> 0.35 <= ratio <= 0.65
    requires low != Center && high != Center
  {
    if ratio < 0.35 then low else if ratio > 0.65 then high else Center
  }

  /** `_coarse_gaze`: "center" for an eye whose box has no width or no
      height; otherwise the horizontal reading when it is off-centre,
      else the vertical one. */
  function CoarseGaze(eye: seq<Point>): (g: Gaze)
    requires |eye| > 0
    ensures var xs, ys := Xs(eye), Ys(eye);
      MaxOf(xs) - MinOf(xs) <= 0.0 || MaxOf(ys) - MinOf(ys) <= 0.0 ==> g == Center
    ensures var xs, ys := Xs(eye), Ys(eye);
      MaxOf(xs) - MinOf(xs) > 0.0 && MaxOf(ys) - MinOf(ys) > 0.0 ==>
        var h := Quantise(RangeRatio(xs), Left, Right);
        (h != Center ==> g == h) && (h == Center ==> g == Quantise(RangeRatio(ys), Up, Down))
  {
    var xs, ys := Xs(eye), Ys(eye);
    if MaxOf(xs) - MinOf(xs) <= 0.0 || MaxOf(ys) - MinOf(ys) <= 0.0 then Center
    else
      var horiz := Quantise(RangeRatio(xs), Left, Right);
      var vert := Quantise(RangeRatio(ys), Up, Down);
      if horiz != Center then horiz else vert
  }

  /** An all-zero eye looks straight ahead. */
  lemma ZeroEyeGazesCenter()
    ensures CoarseGaze(ZeroEye) == Center
  {
    var xs := Xs(ZeroEye);
    assert xs[0] == 0.0;
    assert MaxOf(xs) - MinOf(xs) <= 0.0;
  }
  /** The test's eye shifted left: the mean x sits at 0.25 of the box
      width, so the gaze is "left". */
  lemma TestGazeLeft()
    ensures CoarseGaze([Point(0.0, 0.0), Point(0.2, 1.0), Point(0.4, 1.0),
                        Point(2.5, 0.0), Point(0.4, -1.0), Point(0.2, -1.0)]) == Left
  {
    var eye := [Point(0.0, 0.0), Point(0.2, 1.0), Point(0.4, 1.0),
                Point(2.5, 0.0), Point(0.4, -1.0), Point(0.2, -1.0)];
    XsOfSix(eye);
    LeftRatio(Xs(eye));
    TallEye(eye);
    LowRatioGazes(eye);
  }

  lemma LeftRatio(xs: seq<real>)
    requires |xs| == 6
    requires xs[0] == 0.0 && xs[1] == 0.2 && xs[2] == 0.4 && xs[3] == 2.5 && xs[4] == 0.4 && xs[5] == 0.2
    ensures MaxOf(xs) - MinOf(xs) > 0.0 && RangeRatio(xs) < 0.35
  {
    MinIs(xs, 0);
    MaxIs(xs, 3);
    SumOfSix(xs);
    LeftRatioOf(xs);
  }

  lemma LeftRatioOf(xs: seq<real>)
    requires |xs| == 6 && MinOf(xs) == 0.0 && MaxOf(xs) == 2.5 && Sum(xs) == 3.7
    ensures RangeRatio(xs) < 0.35
  {
    assert Mean(xs) == 3.7 / 6.0;
  }

  lemma RightRatioOf(xs: seq<real>)
    requires |xs| == 6 && MinOf(xs) == 0.0 && MaxOf(xs) == 4.0 && Sum(xs) == 17.2
    ensures RangeRatio(xs) > 0.65
  {
    assert Mean(xs) == 17.2 / 6.0;
  }

  lemma XsOfSix(eye: seq<Point>)
    requires |eye| == 6
    ensures Xs(eye) == [eye[0].x, eye[1].x, eye[2].x, eye[3].x, eye[4].x, eye[5].x]
  {
  }

  /** A box with width and height whose horizontal ratio is low looks left. */
  lemma LowRatioGazes(eye: seq<Point>)
    requires |eye| > 0
    requires MaxOf(Xs(eye)) - MinOf(Xs(eye)) > 0.0 && MaxOf(Ys(eye)) - MinOf(Ys(eye)) > 0.0
    requires RangeRatio(Xs(eye)) < 0.35
    ensures CoarseGaze(eye) == Left
  {
  }

  /** A box with width and height whose horizontal ratio is high looks right. */
  lemma HighRatioGazes(eye: seq<Point>)
    requires |eye| > 0
    requires MaxOf(Xs(eye)) - MinOf(Xs(eye)) > 0.0 && MaxOf(Ys(eye)) - MinOf(Ys(eye)) > 0.0
    requires RangeRatio(Xs(eye)) > 0.65
    ensures CoarseGaze(eye) == Right
  {
  }

  /** The vertical box of the test eyes has height 2. */
  lemma TallEye(eye: seq<Point>)
    requires |eye| == 6 && eye[1].y == 1.0 && eye[4].y == -1.0
    ensures MaxOf(Ys(eye)) - MinOf(Ys(eye)) > 0.0
  {
    var ys := Ys(eye);
    assert ys[1] <= MaxOf(ys) && MinOf(ys) <= ys[4];
  }

  lemma SumOfSix(xs: seq<real>)
    requires |xs| == 6
    ensures Sum(xs) == xs[0] + xs[1] + xs[2] + xs[3] + xs[4] + xs[5]
  {
    assert xs[..1][..0] == [];
    assert Sum(xs[..1]) == xs[0];
    assert xs[..2][..1] == xs[..1];
    assert Sum(xs[..2]) == xs[0] + xs[1];
    assert xs[..3][..2] == xs[..2];
    assert Sum(xs[..3]) == xs[0] + xs[1] + xs[2];
    assert xs[..4][..3] == xs[..3];
    assert Sum(xs[..4]) == xs[0] + xs[1] + xs[2] + xs[3];
    assert xs[..5][..4] == xs[..4];
    assert Sum(xs[..5]) == xs[0] + xs[1] + xs[2] + xs[3] + xs[4];
    assert xs[..5] == xs[..|xs| - 1];
  }

  /** A value of the list that no other undercuts is its minimum. */
  lemma MinIs(xs: seq<real>, j: nat)
    requires j < |xs| && forall i :: 0 <= i < |xs| ==> xs[j] <= xs[i]
    ensures MinOf(xs) == xs[j]
  {
  }

  /** A value of the list that no other exceeds is its maximum. */
  lemma MaxIs(xs: seq<real>, j: nat)
    requires j < |xs| && forall i :: 0 <= i < |xs| ==> xs[i] <= xs[j]
    ensures MaxOf(xs) == xs[j]
  {
  }

  /** The test's eye shifted right: the mean x sits at about 0.72 of the
      box width, so the gaze is "right". */
  lemma TestGazeRight()
    ensures CoarseGaze([Point(0.0, 0.0), Point(3.2, 1.0), Point(3.4, 1.0),
                        Point(4.0, 0.0), Point(3.4, -1.0), Point(3.2, -1.0)]) == Right
  {
    var eye := [Point(0.0, 0.0), Point(3.2, 1.0), Point(3.4, 1.0),
                Point(4.0, 0.0), Point(3.4, -1.0), Point(3.2, -1.0)];
    XsOfSix(eye);
    RightRatio(Xs(eye));
    TallEye(eye);
    HighRatioGazes(eye);
  }

  lemma RightRatio(xs: seq<real>)
    requires |xs| == 6
    requires xs[0] == 0.0 && xs[1] == 3.2 && xs[2] == 3.4 && xs[3] == 4.0 && xs[4] == 3.4 && xs[5] == 3.2
    ensures MaxOf(xs) - MinOf(xs) > 0.0 && RangeRatio(xs) > 0.65
  {
    MinIs(xs, 0);
    MaxIs(xs, 3);
    SumOfSix(xs);
    RightRatioOf(xs);
  }

  // ---------------------------------------------------------------
  // analyze
  // ---------------------------------------------------------------

  datatype EyeReading = EyeReading(ear: real, open: bool, gaze: Gaze)

  datatype EyesReading = EyesReading(left: EyeReading, right: EyeReading)

  /** The EAR, the open flag and the gaze of one six-point eye. */
  function ReadEye(eye: seq<Point>, threshold: real, dist: (Point, Point) -> real): (r: EyeReading)
    requires IsDistance(dist) && |eye| == 6
    ensures r.ear == EyeAspectRatio(eye, dist).value && r.ear >= 0.0
    ensures r.open <==> EyeOpen(r.ear, threshold)
    ensures r.gaze == CoarseGaze(eye)
  {
    var ear := EyeAspectRatio(eye, dist).value;
    EyeReading(ear, ear >= threshold, CoarseGaze(eye))
  }

  /** The nested `get_eye`: all zeros when an index is out of range. */
  function GetEye(points: seq<Point>, idx: seq<nat>): (eye: seq<Point>)
    requires |idx| == 6
    ensures |eye| == 6
    ensures MaxIndex(idx) >= |points| ==> eye == ZeroEye
    ensures MaxIndex(idx) < |points| ==> eye == Select(points, idx)
  {
    if MaxIndex(idx) >= |points| then ZeroEye
    else Select(points, idx)
  }

  /** `analyze`: an error for an array that is not N×2 or wider;
      otherwise the reading of each eye, the eyes chosen by the landmark
      count. */
  function Analyze(lm: Landmarks, threshold: real, dist: (Point, Point) -> real): (r: Result<EyesReading>)
    requires IsDistance(dist)
    ensures r.Err? <==> !WellShaped(lm)
    ensures r.Ok? ==> (r.value.left.open <==> r.value.left.ear >= threshold)
    ensures r.Ok? ==> (r.value.right.open <==> r.value.right.ear >= threshold)
  {
    if !WellShaped(lm) then Err(ShapeError)
    else
      var n := |lm.points|;
      match EyeIndices(n)
      case None => Ok(EyesReading(ReadEye(ZeroEye, threshold, dist), ReadEye(ZeroEye, threshold, dist)))
      case Some((left, right)) =>
        Ok(EyesReading(ReadEye(GetEye(lm.points, left), threshold, dist),
                       ReadEye(GetEye(lm.points, right), threshold, dist)))
  }

  /** `analyze` reads exactly the eyes `get_eye_landmarks_from_face`
      extracts. */
  lemma AnalyzeReadsFaceEyes(lm: Landmarks, threshold: real, dist: (Point, Point) -> real)
    requires IsDistance(dist) && WellShaped(lm)
    ensures var eyes := EyeLandmarksFromFace(lm).value;
      Analyze(lm, threshold, dist).value ==
        EyesReading(ReadEye(eyes.0, threshold, dist), ReadEye(eyes.1, threshold, dist))
  {
    if |lm.points| >= 106 {
      GetEyeIsFaceEye(lm);
    }
  }

  /** With a known layout, `get_eye` picks the same six points as
      `get_eye_landmarks_from_face`. */
  lemma GetEyeIsFaceEye(lm: Landmarks)
    requires WellShaped(lm) && |lm.points| >= 106
    ensures var idx := EyeIndices(|lm.points|).value;
      (GetEye(lm.points, idx.0), GetEye(lm.points, idx.1)) == EyeLandmarksFromFace(lm).value
  {
    var n := |lm.points|;
    var idx := EyeIndices(n).value;
    IndicesFit(idx.0, n);
    IndicesFit(idx.1, n);
  }

  /** Indices that are all below `n` have their maximum below `n`. */
  lemma IndicesFit(idx: seq<nat>, n: nat)
    requires |idx| > 0 && forall i :: 0 <= i < |idx| ==> idx[i] < n
    ensures MaxIndex(idx) < n
  {
  }

  /** With too few landmarks both eyes read as closed (EAR 0 under a
      positive threshold) and looking straight ahead. */
  lemma FewLandmarksReadClosed(lm: Landmarks, threshold: real, dist: (Point, Point) -> real)
    requires IsDistance(dist) && WellShaped(lm) && |lm.points| < 106 && threshold > 0.0
    ensures var r := Analyze(lm, threshold, dist).value;
      r.left == r.right && r.left.ear == 0.0 && !r.left.open && r.left.gaze == Center
  {
    ZeroEyeGazesCenter();
  }
}
