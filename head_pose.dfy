/** The guard logic of the head-pose estimator: box validation by
    integer truncation, the neutral pose returned whenever no estimate
    can be made, the clamping of normalised landmarks into the image, and
    the vertical-eye-line guard of the roll angle. The landmark and
    pose backends themselves are foreign calls and enter as parameters. */
module HeadPose {
  import opened Util

  /** A face box as given, in (possibly fractional) pixels. */
  datatype Box = Box(x1: real, y1: real, x2: real, y2: real)

  /** A box after `int()` of each corner. */
  datatype PixelBox = PixelBox(x1: int, y1: int, x2: int, y2: int)

  datatype Pixel = Pixel(x: int, y: int)

  /** A normalised landmark: coordinates as fractions of the image. */
  datatype Normalised = Normalised(x: real, y: real)

  /** The returned pose; rotation and translation vectors are not
      modelled (the guard paths return None for both). */
  datatype Pose = Pose(yaw: real, pitch: real, roll: real, landmarks: seq<Pixel>, faceBox: Option<Box>)

  /** Python's `int()` on a float: truncation toward zero. */
  function Trunc(x: real): (n: int)
    ensures x >= 0.0 ==> n as real <= x < n as real + 1.0
    ensures x < 0.0 ==> n as real - 1.0 < x <= n as real
  {
    if x >= 0.0 then x.Floor else -((-x).Floor)
  }

  /** `_safe_bbox_from_box`: the truncated corners, or None when the
      truncated box has no width or no height. */
  function SafeBox(b: Box): (r: Option<PixelBox>)
    ensures r.None? <==> Trunc(b.x2) <= Trunc(b.x1) || Trunc(b.y2) <= Trunc(b.y1)
    ensures r.Some? ==> r.value == PixelBox(Trunc(b.x1), Trunc(b.y1), Trunc(b.x2), Trunc(b.y2))
    ensures r.Some? ==> r.value.x1 < r.value.x2 && r.value.y1 < r.value.y2
  {
    var x1, y1, x2, y2 := Trunc(b.x1), Trunc(b.y1), Trunc(b.x2), Trunc(b.y2);
    if x2 <= x1 || y2 <= y1 then None else Some(PixelBox(x1, y1, x2, y2))
  }

  /** A box whose corners already are whole numbers passes unchanged
      when it has width and height. */
  lemma WholeBoxKept(x1: int, y1: int, x2: int, y2: int)
    requires x1 < x2 && y1 < y2
    ensures SafeBox(Box(x1 as real, y1 as real, x2 as real, y2 as real)) == Some(PixelBox(x1, y1, x2, y2))
  {
    TruncWhole(x1);
    TruncWhole(y1);
    TruncWhole(x2);
    TruncWhole(y2);
  }

  lemma TruncWhole(n: int)
    ensures Trunc(n as real) == n
  {
  }

  /** Truncation can collapse a thin box: corners 10.2 and 10.9 both
      become 10, so the box is rejected. */
  lemma ThinBoxRejected()
    ensures SafeBox(Box(10.2, 0.0, 10.9, 50.0)).None?
  {
    assert Trunc(10.2) == 10 && Trunc(10.9) == 10;
  }

  /** The pose reported when nothing can be estimated. */
  function Neutral(faceBox: Option<Box>): Pose
  {
    Pose(0.0, 0.0, 0.0, [], faceBox)
  }

  const MinFaceSide := 40

  /** `estimate`: without a box the neutral pose with no box; with a box
      that truncates to nothing, or to less than 40 pixels on a side, the
      neutral pose carrying the box; otherwise what the backends report
      (`backend`, the MediaPipe/InsightFace path, which is not part of
      this model). */
  function Estimate(faceBox: Option<Box>, backend: Pose): (p: Pose)
    ensures faceBox.None? ==> p == Neutral(None)
    ensures faceBox.Some? && SafeBox(faceBox.value).None? ==> p == Neutral(faceBox)
    ensures faceBox.Some? && SafeBox(faceBox.value).Some? ==>
      var s := SafeBox(faceBox.value).value;
      (s.x2 - s.x1 < MinFaceSide || s.y2 - s.y1 < MinFaceSide ==> p == Neutral(faceBox)) &&
      (s.x2 - s.x1 >= MinFaceSide && s.y2 - s.y1 >= MinFaceSide ==> p == backend)
  {
    match faceBox
    case None => Neutral(None)
    case Some(b) =>
      match SafeBox(b)
      case None => Neutral(faceBox)
      case Some(s) =>
        if s.x2 - s.x1 < MinFaceSide || s.y2 - s.y1 < MinFaceSide then Neutral(faceBox)
        else backend
  }

  /** Every guard path reports yaw, pitch and roll of 0, inside the
      [-90, 90] range the estimator promises, and no landmarks. */
  lemma GuardPathsAreNeutral(faceBox: Option<Box>, backend: Pose)
    requires faceBox.None? || SafeBox(faceBox.value).None? ||
      var s := SafeBox(faceBox.value).value; s.x2 - s.x1 < MinFaceSide || s.y2 - s.y1 < MinFaceSide
    ensures var p := Estimate(faceBox, backend);
      p.yaw == 0.0 && p.pitch == 0.0 && p.roll == 0.0 && p.landmarks == [] &&
      -90.0 <= p.yaw <= 90.0 && -90.0 <= p.pitch <= 90.0 && -90.0 <= p.roll <= 90.0
  {
  }

  /** A box that is valid and at least 40 pixels on each side is handed
      to the backends. */
  lemma LargeBoxUsesBackend(b: Box, backend: Pose)
    requires SafeBox(b).Some?
    requires var s := SafeBox(b).value; s.x2 - s.x1 >= MinFaceSide && s.y2 - s.y1 >= MinFaceSide
    ensures Estimate(Some(b), backend) == backend
  {
  }

  /** `min(max(v, 0), hi)` */
  function ClampPixel(v: int, hi: int): (r: int)
    ensures hi >= 0 ==> 0 <= r <= hi
    ensures 0 <= v <= hi ==> r == v
    ensures v < 0 && hi >= 0 ==> r == 0
    ensures v > hi ==> r == hi
    ensures hi < 0 ==> r == hi
  {
    if v < 0 then (if 0 <= hi then 0 else hi)
    else if v <= hi then v else hi
  }

  /** The pixel of one normalised landmark in a w×h image. */
  function ToPixel(lm: Normalised, w: int, h: int): (p: Pixel)
    ensures w >= 1 ==> 0 <= p.x <= w - 1
    ensures h >= 1 ==> 0 <= p.y <= h - 1
  {
    Pixel(PixelCoordinate(lm.x, w), PixelCoordinate(lm.y, h))
  }

  /** `min(max(int(c * n), 0), n - 1)` */
  function PixelCoordinate(c: real, n: int): (r: int)
    ensures n >= 1 ==> 0 <= r <= n - 1
  {
    ClampPixel(Trunc(c * n as real), n - 1)
  }

  /** `_np_from_mp_results`: one pixel per landmark, in order, each
      clamped into [0, w-1] × [0, h-1]. */
  method PixelsFromLandmarks(landmarks: seq<Normalised>, w: int, h: int) returns (pts: seq<Pixel>)
    ensures |pts| == |landmarks|
    ensures forall i :: 0 <= i < |pts| ==> pts[i] == ToPixel(landmarks[i], w, h)
    ensures w >= 1 && h >= 1 ==> forall i :: 0 <= i < |pts| ==> 0 <= pts[i].x < w && 0 <= pts[i].y < h
  {
    pts := [];
    for k := 0 to |landmarks|
      invariant |pts| == k
      invariant forall i :: 0 <= i < k ==> pts[i] == ToPixel(landmarks[i], w, h)
    {
      pts := pts + [ToPixel(landmarks[k], w, h)];
    }
  }

  /** A landmark inside the image lands on the pixel its coordinates
      truncate to; clamping changes nothing for it. */
  lemma InsideLandmarkNotClamped(lm: Normalised, w: int, h: int)
    requires w >= 1 && h >= 1
    requires 0.0 <= lm.x && lm.x * w as real < w as real && 0.0 <= lm.y && lm.y * h as real < h as real
    ensures ToPixel(lm, w, h) == Pixel((lm.x * w as real).Floor, (lm.y * h as real).Floor)
  {
    InsideCoordinateNotClamped(lm.x, w);
    InsideCoordinateNotClamped(lm.y, h);
  }

  /** One coordinate of `InsideLandmarkNotClamped`. */
  lemma InsideCoordinateNotClamped(c: real, n: int)
    requires n >= 1 && 0.0 <= c && c * n as real < n as real
    ensures PixelCoordinate(c, n) == (c * n as real).Floor
  {
    var x := c * n as real;
    MulNonNeg(c, n as real);
    assert Trunc(x) == x.Floor;
    assert 0 <= x.Floor <= n - 1;
  }

  /** What the model assumes of `degrees(atan2(dy, dx))`: a level line
      pointing right has angle 0 and every angle is within ±180. */
  ghost predicate IsAtan2Degrees(atan2: (real, real) -> real)
  {
    (forall dx :: dx > 0.0 ==> atan2(0.0, dx) == 0.0) &&
    (forall dy, dx :: -180.0 <= atan2(dy, dx) <= 180.0)
  }

  /** `_compute_roll_from_eyes`: the eye-line angle, or 0 when the two
      eye centres are vertically aligned (dx == 0). */
  function RollFromEyes(left: (real, real), right: (real, real), atan2: (real, real) -> real): (roll: real)
    requires IsAtan2Degrees(atan2)
    ensures right.0 - left.0 == 0.0 ==> roll == 0.0
    ensures right.0 - left.0 != 0.0 ==> roll == atan2(right.1 - left.1, right.0 - left.0)
    ensures -180.0 <= roll <= 180.0
  {
    var dx := right.0 - left.0;
    var dy := right.1 - left.1;
    if dx == 0.0 then 0.0 else atan2(dy, dx)
  }

  /** Eyes on one horizontal line, the right one to the right, give no
      roll; so do vertically aligned eyes, whatever their height. */
  lemma LevelEyesNoRoll(left: (real, real), right: (real, real), atan2: (real, real) -> real)
    requires IsAtan2Degrees(atan2)
    requires (left.1 == right.1 && right.0 > left.0) || left.0 == right.0
    ensures RollFromEyes(left, right, atan2) == 0.0
  {
    if right.0 - left.0 != 0.0 {
      assert right.1 - left.1 == 0.0;
    }
  }
}
