/** One persistent face track of the focus analyzer and everything that
    happens to it in one frame: box overlap (IoU), the smoothed head pose,
    the attention label and its bounded history, and the two copies of
    the timed event machine that count blinks (over closed eyes) and
    yawns (over an open mouth). */
module FocusTrack {
  import opened Util
  import opened EyeAnalysis
  import opened HeadPose

  // ---------------------------------------------------------------
  // Box overlap
  // ---------------------------------------------------------------

  /** Length of the overlap of [a1, a2] and [b1, b2], floored at 0. */
  function Overlap(a1: real, a2: real, b1: real, b2: real): (r: real)
    ensures 0.0 <= r <= MaxR(0.0, a2 - a1) && r <= MaxR(0.0, b2 - b1)
  {
    MaxR(0.0, MinR(a2, b2) - MaxR(a1, b1))
  }

  /** Area of a box, with width and height floored at 0. */
  function Area(b: Box): (r: real)
    ensures r >= 0.0
  {
    MulNonNeg(MaxR(0.0, b.x2 - b.x1), MaxR(0.0, b.y2 - b.y1));
    MaxR(0.0, b.x2 - b.x1) * MaxR(0.0, b.y2 - b.y1)
  }

  /** Area of the intersection of two boxes; never more than either box. */
  function Intersection(a: Box, b: Box): (r: real)
    ensures 0.0 <= r <= Area(a) && r <= Area(b)
  {
    var w := Overlap(a.x1, a.x2, b.x1, b.x2);
    var h := Overlap(a.y1, a.y2, b.y1, b.y2);
    MulNonNeg(w, h);
    ProductBound(w, h, MaxR(0.0, a.x2 - a.x1), MaxR(0.0, a.y2 - a.y1));
    ProductBound(w, h, MaxR(0.0, b.x2 - b.x1), MaxR(0.0, b.y2 - b.y1));
    w * h
  }

  lemma ProductBound(w: real, h: real, wMax: real, hMax: real)
    requires 0.0 <= w <= wMax && 0.0 <= h <= hMax
    ensures w * h <= wMax * hMax
  {
    MulMono(w, wMax, h);
    MulMono(h, hMax, wMax);
    assert h * wMax == wMax * h;
  }

  /** The nested `_iou`: intersection over union, 0 when the union has
      no area. */
  function IoU(a: Box, b: Box): (r: real)
    ensures 0.0 <= r <= 1.0
    ensures Area(a) + Area(b) - Intersection(a, b) <= 0.0 ==> r == 0.0
  {
    var inter := Intersection(a, b);
    var union := Area(a) + Area(b) - inter;
    if union <= 0.0 then 0.0
    else
      RatioBounds(inter, union);
      inter / union
  }

  /** The overlap does not depend on the order of the boxes. */
  lemma IoUSymmetric(a: Box, b: Box)
    ensures IoU(a, b) == IoU(b, a)
  {
    IntersectionSymmetric(a, b);
    assert Area(a) + Area(b) == Area(b) + Area(a);
  }

  lemma IntersectionSymmetric(a: Box, b: Box)
    ensures Intersection(a, b) == Intersection(b, a)
  {
    var w := Overlap(a.x1, a.x2, b.x1, b.x2);
    var h := Overlap(a.y1, a.y2, b.y1, b.y2);
    assert Overlap(b.x1, b.x2, a.x1, a.x2) == w;
    assert Overlap(b.y1, b.y2, a.y1, a.y2) == h;
  }

  /** A box with width and height overlaps itself completely. */
  lemma IoUSelf(a: Box)
    requires a.x1 < a.x2 && a.y1 < a.y2
    ensures IoU(a, a) == 1.0
  {
    var area := Area(a);
    assert Intersection(a, a) == area;
    assert area > 0.0 by {
      MulPos(a.x2 - a.x1, a.y2 - a.y1);
    }
  }

  lemma MulPos(x: real, y: real)
    requires x > 0.0 && y > 0.0
    ensures x * y > 0.0
  {
  }

  /** Boxes separated along either axis do not overlap at all. */
  lemma IoUDisjoint(a: Box, b: Box)
    requires a.x2 <= b.x1 || b.x2 <= a.x1 || a.y2 <= b.y1 || b.y2 <= a.y1
    ensures IoU(a, b) == 0.0
  {
    NoIntersection(a, b);
    var union := Area(a) + Area(b) - Intersection(a, b);
    if union > 0.0 {
      assert IoU(a, b) == 0.0 / union;
    }
  }

  lemma NoIntersection(a: Box, b: Box)
    requires a.x2 <= b.x1 || b.x2 <= a.x1 || a.y2 <= b.y1 || b.y2 <= a.y1
    ensures Intersection(a, b) == 0.0
  {
    var w := Overlap(a.x1, a.x2, b.x1, b.x2);
    var h := Overlap(a.y1, a.y2, b.y1, b.y2);
    assert w == 0.0 || h == 0.0;
    assert Intersection(a, b) == w * h;
  }

  // ---------------------------------------------------------------
  // Pose smoothing and attention
  // ---------------------------------------------------------------

  datatype Angles = Angles(yaw: real, pitch: real, roll: real)

  const Level := Angles(0.0, 0.0, 0.0)

  /** Weight of the new reading in the moving average. */
  const EmaAlpha := 0.4

  function Blend(previous: real, raw: real): real
  {
    EmaAlpha * raw + (1.0 - EmaAlpha) * previous
  }

  /** The EMA update: a state whose three angles are all exactly 0 counts
      as unset and takes the raw pose; otherwise each angle moves 0.4 of
      the way to the raw one. */
  function Smooth(ema: Angles, raw: Angles): (r: Angles)
    ensures ema == Level ==> r == raw
    ensures ema != Level ==>
      r.yaw - ema.yaw == EmaAlpha * (raw.yaw - ema.yaw) &&
      r.pitch - ema.pitch == EmaAlpha * (raw.pitch - ema.pitch) &&
      r.roll - ema.roll == EmaAlpha * (raw.roll - ema.roll)
  {
    if ema == Level then raw
    else Angles(Blend(ema.yaw, raw.yaw), Blend(ema.pitch, raw.pitch), Blend(ema.roll, raw.roll))
  }

  predicate Between(x: real, a: real, b: real)
  {
    MinR(a, b) <= x <= MaxR(a, b)
  }

  /** Each smoothed angle lies between the previous average and the new
      reading, so the average never overshoots. */
  lemma SmoothBetween(ema: Angles, raw: Angles)
    ensures var r := Smooth(ema, raw);
      Between(r.yaw, ema.yaw, raw.yaw) && Between(r.pitch, ema.pitch, raw.pitch) &&
      Between(r.roll, ema.roll, raw.roll)
  {
  }

  /** A steady pose is a fixed point of the average. */
  lemma SmoothSteady(p: Angles)
    ensures Smooth(p, p) == p
  {
  }

  datatype Attention = Attentive | LookingAway | EyesClosed

  function AttentionName(a: Attention): string
  {
    match a
    case Attentive => "attentive"
    case LookingAway => "looking_away"
    case EyesClosed => "eyes_closed"
  }

  /** The head faces the screen when both smoothed angles are strictly
      inside their thresholds. */
  predicate LookingForward(ema: Angles, yawThreshold: real, pitchThreshold: real)
  {
    AbsR(ema.yaw) < yawThreshold && AbsR(ema.pitch) < pitchThreshold
  }

  /** The attention label: looking away unless facing forward; then eyes
      closed when both eyes are closed, else attentive. */
  function Classify(ema: Angles, leftOpen: bool, rightOpen: bool, yawThreshold: real, pitchThreshold: real): (a: Attention)
    ensures a == LookingAway <==> !LookingForward(ema, yawThreshold, pitchThreshold)
    ensures a == EyesClosed <==> LookingForward(ema, yawThreshold, pitchThreshold) && !leftOpen && !rightOpen
    ensures a == Attentive <==> LookingForward(ema, yawThreshold, pitchThreshold) && (leftOpen || rightOpen)
  {
    if !LookingForward(ema, yawThreshold, pitchThreshold) then LookingAway
    else if !leftOpen && !rightOpen then EyesClosed
    else Attentive
  }

  /** A turned head is looking away whatever the eyes do; the thresholds
      are strict, so a yaw of exactly 15 degrees already counts. */
  lemma TurnedHeadLooksAway(ema: Angles, leftOpen: bool, rightOpen: bool)
    requires AbsR(ema.yaw) >= 15.0 || AbsR(ema.pitch) >= 15.0
    ensures Classify(ema, leftOpen, rightOpen, 15.0, 15.0) == LookingAway
  {
  }

  const HistoryLimit := 150

  /** Appending to the bounded attention history (`deque(maxlen=150)`):
      the oldest label falls out once the history is full. */
  function PushHistory(h: seq<Attention>, a: Attention): (r: seq<Attention>)
    requires |h| <= HistoryLimit
    ensures |r| == if |h| < HistoryLimit then |h| + 1 else HistoryLimit
    ensures r == (h + [a])[|h| + 1 - |r|..]
  {
    if |h| < HistoryLimit then h + [a] else h[1..] + [a]
  }

  // ---------------------------------------------------------------
  // Timed events
  // ---------------------------------------------------------------

  /** Duration window and refractory gap of one kind of event, in seconds. */
  datatype EventRule = EventRule(minDuration: real, maxDuration: real, refractory: real)

  const BlinkRule := EventRule(0.03, 0.7, 0.2)
  const YawnRule := EventRule(0.2, 3.0, 0.5)

  /** The per-track state of one event machine: whether the signal (eyes
      closed, mouth open) was on in the previous frame, the pending flag,
      the frames the signal has been on, when and in which attention the
      episode started, when the last event was counted, and the count. */
  datatype EventTrack = EventTrack(
    wasOn: bool, pending: bool, frames: nat,
    startTs: Option<real>, startedAttention: Option<Attention>,
    lastTs: real, count: nat)

  const Idle := EventTrack(false, false, 0, None, None, 0.0, 0)

  /** Python truthiness of an optional timestamp: a start time of exactly
      0.0 counts as missing. */
  predicate Truthy(t: Option<real>)
  {
    t.Some? && t.value != 0.0
  }

  /** An episode that ends now is counted: it had a start time, lasted
      between the minimum and maximum (inclusive), started or ended
      attentive, and the last counted event is more than the refractory
      gap ago. */
  predicate Qualifies(e: EventTrack, on: bool, attention: Attention, now: real, rule: EventRule)
  {
    e.wasOn && !on && Truthy(e.startTs) &&
    rule.minDuration <= now - e.startTs.value <= rule.maxDuration &&
    (e.startedAttention == Some(Attentive) || attention == Attentive) &&
    now - e.lastTs > rule.refractory
  }

  /** One frame of the event machine with the signal `on`. */
  function EventStep(e: EventTrack, on: bool, attention: Attention, now: real, rule: EventRule): (r: EventTrack)
    ensures r.wasOn == on
    ensures r.count == if Qualifies(e, on, attention, now, rule) then e.count + 1 else e.count
    ensures r.lastTs == if Qualifies(e, on, attention, now, rule) then now else e.lastTs
    ensures e.wasOn && !on ==>
      r.frames == 0 && !r.pending && r.startTs == None && r.startedAttention == None
    ensures !e.wasOn && on ==>
      r.frames == 1 && r.startTs == Some(now) && r.startedAttention == Some(attention) &&
      (r.pending <==> attention == Attentive)
  {
    if !e.wasOn && on then
      e.(wasOn := true, frames := 1, startTs := Some(now), startedAttention := Some(attention),
         pending := attention == Attentive)
    else if e.wasOn && on then
      var tooLong := Truthy(e.startTs) && now - e.startTs.value > rule.maxDuration;
      e.(frames := e.frames + 1, pending := e.pending && attention == Attentive && !tooLong)
    else if e.wasOn && !on then
      var counted := Qualifies(e, on, attention, now, rule);
      e.(wasOn := false, frames := 0, pending := false, startTs := None, startedAttention := None,
         count := if counted then e.count + 1 else e.count,
         lastTs := if counted then now else e.lastTs)
    else
      e.(frames := 0, pending := e.pending && attention == Attentive)
  }

  /** The count never falls and rises by at most one per frame, and only
      when the signal switches off. */
  lemma EventCountStep(e: EventTrack, on: bool, attention: Attention, now: real, rule: EventRule)
    ensures var r := EventStep(e, on, attention, now, rule);
      e.count <= r.count <= e.count + 1 && (r.count > e.count ==> e.wasOn && !on)
  {
  }

  /** The pending flag never decides whether an event is counted: two
      tracks that differ only in it count alike. */
  lemma PendingNeverDecides(e: EventTrack, p: bool, on: bool, attention: Attention, now: real, rule: EventRule)
    ensures EventStep(e.(pending := p), on, attention, now, rule).count ==
            EventStep(e, on, attention, now, rule).count
  {
  }

  /** Two consecutive frames never both count: a counted event ends the
      episode, and the next needs the signal on again first. */
  lemma NoTwoCountsInARow(e: EventTrack, on1: bool, a1: Attention, t1: real,
                          on2: bool, a2: Attention, t2: real, rule: EventRule)
    ensures var e1 := EventStep(e, on1, a1, t1, rule);
      !(e1.count > e.count && EventStep(e1, on2, a2, t2, rule).count > e1.count)
  {
  }

  /** A counted event is more than the refractory gap after the one
      before it, and its time becomes the new reference. */
  lemma CountedAfterGap(e: EventTrack, on: bool, attention: Attention, now: real, rule: EventRule)
    requires EventStep(e, on, attention, now, rule).count > e.count
    ensures now - e.lastTs > rule.refractory
    ensures EventStep(e, on, attention, now, rule).lastTs == now
  {
  }

  /** A blink closed at 1.0 s and reopened at 1.1 s by an attentive face
      with no blink in the previous 0.2 s is counted. */
  lemma QuickBlinkCounted(lastTs: real)
    requires lastTs < 0.9
    ensures var closed := EventStep(Idle.(lastTs := lastTs), true, Attentive, 1.0, BlinkRule);
      EventStep(closed, false, Attentive, 1.1, BlinkRule).count == 1
  {
  }

  /** Eyes closed for a whole second are not a blink. */
  lemma LongClosureNotCounted(a1: Attention, a2: Attention)
    ensures var closed := EventStep(Idle, true, a1, 1.0, BlinkRule);
      EventStep(closed, false, a2, 2.0, BlinkRule).count == 0
  {
  }

  // ---------------------------------------------------------------
  // The track record
  // ---------------------------------------------------------------

  /** What the pose estimator gives for one detection: the three angles
      and the 2-D landmarks (possibly none), or failure (an exception). */
  datatype PoseOutcome = Estimated(angles: Angles, landmarks: seq<Point>) | Failed

  /** `FaceState`: the record kept per persistent track. */
  datatype FaceState = FaceState(
    id: nat, bbox: Box, lastSeen: real, ema: Angles,
    blink: EventTrack, yawn: EventTrack, history: seq<Attention>,
    lastLandmarks: Option<seq<Point>>, lastPose: Option<Angles>)

  /** A fresh track for a detection that matched none. */
  function NewTrack(id: nat, bbox: Box, timestamp: real): (s: FaceState)
    ensures s.id == id && s.bbox == bbox && s.lastSeen == timestamp
    ensures s.blink.count == 0 && s.yawn.count == 0 && s.history == [] && s.ema == Level
  {
    FaceState(id, bbox, timestamp, Level, Idle, Idle, [], None, None)
  }

  /** The thresholds the analyzer is built with. */
  datatype Config = Config(earThreshold: real, yawThreshold: real, pitchThreshold: real)

  const DefaultConfig := Config(0.20, 15.0, 15.0)

  /** The readings reported for one detection. */
  datatype FaceResult = FaceResult(
    bbox: Box, confidence: real, rawPose: Angles, pose: Angles,
    eyes: EyesReading, mar: real, mouthOpen: bool,
    yawnCount: nat, blinkCount: nat, attention: Attention,
    landmarks: seq<Point>, frameId: nat, timestamp: real)

  /** The eye reading used when the analyser cannot run: both eyes open
      with EAR 0.3 and centred. */
  const FallbackEyes := EyesReading(EyeReading(0.3, true, Center), EyeReading(0.3, true, Center))

  /** The landmarks in use this frame, the raw pose, and the updated
      caches: a successful estimate supplies the pose and its landmarks
      (none when it has no points, though the landmark cache is then
      kept); a failed one falls back to both caches. */
  function PoseInputs(s: FaceState, pose: PoseOutcome): (r: (Option<seq<Point>>, Angles, Option<seq<Point>>, Option<Angles>))
    ensures pose.Estimated? ==> r.1 == pose.angles && r.3 == Some(pose.angles)
    ensures pose.Estimated? && pose.landmarks != [] ==> r.0 == Some(pose.landmarks) && r.2 == r.0
    ensures pose.Estimated? && pose.landmarks == [] ==> r.0 == None && r.2 == s.lastLandmarks
    ensures pose.Failed? ==>
      r.0 == s.lastLandmarks && r.2 == s.lastLandmarks && r.3 == s.lastPose &&
      r.1 == (if s.lastPose.Some? then s.lastPose.value else Level)
  {
    match pose
    case Estimated(angles, lm) =>
      if lm == [] then (None, angles, s.lastLandmarks, Some(angles))
      else (Some(lm), angles, Some(lm), Some(angles))
    case Failed =>
      (s.lastLandmarks, if s.lastPose.Some? then s.lastPose.value else Level, s.lastLandmarks, s.lastPose)
  }

  /** The eye analyser on the landmarks in use, or the fallback when there
      are none (the analyser rejects a missing array). */
  function EyesOf(landmarks: Option<seq<Point>>, threshold: real, dist: (Point, Point) -> real): (r: EyesReading)
    requires IsDistance(dist)
    ensures landmarks.None? ==> r == FallbackEyes
    ensures landmarks.Some? ==> r == Analyze(Landmarks(2, 2, landmarks.value), threshold, dist).value
  {
    match landmarks
    case None => FallbackEyes
    case Some(lm) => Analyze(Landmarks(2, 2, lm), threshold, dist).value
  }

  // ---------------------------------------------------------------
  // Mouth aspect ratio
  // ---------------------------------------------------------------

  /** The part of the face box a landmark layout searches for the mouth,
      as fractions of the box's height (`top`..`bottom`) and width
      (`left`..`right`), all bounds exclusive, and how many landmarks must
      fall inside for the ratio to be taken. */
  datatype MouthWindow = MouthWindow(top: real, bottom: real, left: real, right: real, minPoints: nat)

  /** The 478-point face mesh: the inner mouth only. */
  const MeshWindow := MouthWindow(0.55, 0.75, 0.35, 0.65, 4)

  /** Any layout other than 106 or 478 points: the lower face. */
  const GenericWindow := MouthWindow(0.35, 1.0, 0.15, 0.85, 6)

  /** The window searched for a layout of `n` landmarks (not 106). */
  function WindowFor(n: nat): MouthWindow
  {
    if n == 478 then MeshWindow else GenericWindow
  }

  /** The landmark lies inside the window once its coordinates are taken
      relative to the box corner and divided by the box sides, each side
      floored at 1. */
  predicate InWindow(p: Point, bbox: Box, w: MouthWindow)
  {
    var fw := MaxR(1.0, bbox.x2 - bbox.x1);
    var fh := MaxR(1.0, bbox.y2 - bbox.y1);
    w.top < (p.y - bbox.y1) / fh < w.bottom && w.left < (p.x - bbox.x1) / fw < w.right
  }

  /** The landmarks inside the window, in order (the masked rows). */
  function MouthRegion(points: seq<Point>, bbox: Box, w: MouthWindow): (r: seq<Point>)
    ensures |r| <= |points|
  {
    if points == [] then []
    else
      var rest := MouthRegion(points[1..], bbox, w);
      if InWindow(points[0], bbox, w) then [points[0]] + rest else rest
  }

  /** The region holds exactly the landmarks inside the window. */
  lemma {:induction false} MouthRegionMembers(points: seq<Point>, bbox: Box, w: MouthWindow)
    ensures forall p :: p in MouthRegion(points, bbox, w) <==> p in points && InWindow(p, bbox, w)
  {
    if points != [] {
      MouthRegionMembers(points[1..], bbox, w);
      assert points == [points[0]] + points[1..];
    }
  }

  /** How far the values reach, from the smallest to the largest. */
  function Extent(xs: seq<real>): (r: real)
    requires xs != []
    ensures r >= 0.0
  {
    assert MinOf(xs) <= xs[0] <= MaxOf(xs);
    MaxOf(xs) - MinOf(xs)
  }

  /** Height over width of the landmarks' bounding box, or 0 when the
      width is at most 1e-6. */
  function SpreadRatio(region: seq<Point>): (r: real)
    requires region != []
    ensures r >= 0.0
    ensures r > 0.0 ==> Extent(Xs(region)) > 0.000001
  {
    var vert, horiz := Extent(Ys(region)), Extent(Xs(region));
    if horiz > 0.000001 then vert / horiz else 0.0
  }

  /** The mouth aspect ratio over the landmarks in use. The 106-point
      layout divides the lip gap (rows 51 and 57) by the mouth width
      (rows 48 and 54), or gives 0 when the width is at most 1e-6; every
      other layout takes the spread of the landmarks inside its mouth
      window, or 0 when too few fall inside. */
  function MouthRatio(points: seq<Point>, bbox: Box, dist: (Point, Point) -> real): (r: real)
    requires IsDistance(dist)
    ensures r >= 0.0
    ensures |points| == 106 ==>
      var horiz := dist(points[48], points[54]);
      (horiz <= 0.000001 ==> r == 0.0) &&
      (horiz > 0.000001 ==> r * horiz == dist(points[51], points[57]))
    ensures |points| != 106 ==>
      var w := WindowFor(|points|);
      (|MouthRegion(points, bbox, w)| < w.minPoints ==> r == 0.0) &&
      (r > 0.0 ==> |MouthRegion(points, bbox, w)| >= w.minPoints)
  {
    if |points| == 106 then
      var vert := dist(points[51], points[57]);
      var horiz := dist(points[48], points[54]);
      if horiz > 0.000001 then vert / horiz else 0.0
    else
      var w := WindowFor(|points|);
      var region := MouthRegion(points, bbox, w);
      if |region| >= w.minPoints then SpreadRatio(region) else 0.0
  }

  /** A mouth aspect ratio above 1.2 means the mouth is open. */
  const YawnMar := 1.2

  /** A point, every landmark of a sequence, or a box moved by (dx, dy). */
  function Shift(p: Point, dx: real, dy: real): Point
  {
    Point(p.x + dx, p.y + dy)
  }

  function ShiftAll(points: seq<Point>, dx: real, dy: real): (r: seq<Point>)
    ensures |r| == |points| && forall i :: 0 <= i < |points| ==> r[i] == Shift(points[i], dx, dy)
  {
    seq(|points|, i requires 0 <= i < |points| => Shift(points[i], dx, dy))
  }

  function ShiftBox(b: Box, dx: real, dy: real): Box
  {
    Box(b.x1 + dx, b.y1 + dy, b.x2 + dx, b.y2 + dy)
  }

  /** Moving a landmark and the box together keeps it in or out of the
      window. */
  lemma InWindowShift(p: Point, bbox: Box, w: MouthWindow, dx: real, dy: real)
    ensures InWindow(Shift(p, dx, dy), ShiftBox(bbox, dx, dy), w) == InWindow(p, bbox, w)
  {
    var b := ShiftBox(bbox, dx, dy);
    assert b.x2 - b.x1 == bbox.x2 - bbox.x1 && b.y2 - b.y1 == bbox.y2 - bbox.y1;
    assert Shift(p, dx, dy).y - b.y1 == p.y - bbox.y1;
    assert Shift(p, dx, dy).x - b.x1 == p.x - bbox.x1;
  }

  /** The region of the moved landmarks is the moved region. */
  lemma {:induction false} MouthRegionShift(points: seq<Point>, bbox: Box, w: MouthWindow, dx: real, dy: real)
    ensures MouthRegion(ShiftAll(points, dx, dy), ShiftBox(bbox, dx, dy), w) ==
            ShiftAll(MouthRegion(points, bbox, w), dx, dy)
  {
    if points != [] {
      var moved := ShiftAll(points, dx, dy);
      assert moved[1..] == ShiftAll(points[1..], dx, dy);
      MouthRegionShift(points[1..], bbox, w, dx, dy);
      InWindowShift(points[0], bbox, w, dx, dy);
      var rest := MouthRegion(points[1..], bbox, w);
      if InWindow(points[0], bbox, w) {
        assert ShiftAll([points[0]] + rest, dx, dy) == [Shift(points[0], dx, dy)] + ShiftAll(rest, dx, dy);
      }
    }
  }

  /** Adding a constant to every value keeps their extent. */
  lemma ExtentShift(xs: seq<real>, ys: seq<real>, c: real)
    requires |xs| == |ys| > 0 && forall i :: 0 <= i < |xs| ==> ys[i] == xs[i] + c
    ensures Extent(ys) == Extent(xs)
  {
    var j :| 0 <= j < |ys| && ys[j] == MinOf(ys);
    var k :| 0 <= k < |xs| && xs[k] == MinOf(xs);
    assert MinOf(xs) <= xs[j] && MinOf(ys) <= ys[k];
    var j' :| 0 <= j' < |ys| && ys[j'] == MaxOf(ys);
    var k' :| 0 <= k' < |xs| && xs[k'] == MaxOf(xs);
    assert MaxOf(xs) >= xs[j'] && MaxOf(ys) >= ys[k'];
  }

  /** Moving every landmark by the same offset keeps their spread. */
  lemma SpreadRatioShift(region: seq<Point>, dx: real, dy: real)
    requires region != []
    ensures SpreadRatio(ShiftAll(region, dx, dy)) == SpreadRatio(region)
  {
    var moved := ShiftAll(region, dx, dy);
    var xs, xs' := Xs(region), Xs(moved);
    var ys, ys' := Ys(region), Ys(moved);
    forall i | 0 <= i < |region| ensures xs'[i] == xs[i] + dx && ys'[i] == ys[i] + dy {
      assert moved[i] == Shift(region[i], dx, dy);
    }
    ExtentShift(xs, xs', dx);
    ExtentShift(ys, ys', dy);
  }

  /** The mouth aspect ratio does not depend on where the face sits in
      the frame: moving every landmark and the face box by the same
      offset leaves it unchanged (for the 106-point layout, given a
      distance that ignores such a move). */
  lemma MouthRatioTranslation(points: seq<Point>, bbox: Box, dist: (Point, Point) -> real, dx: real, dy: real)
    requires IsDistance(dist)
    requires forall p, q :: dist(Shift(p, dx, dy), Shift(q, dx, dy)) == dist(p, q)
    ensures MouthRatio(ShiftAll(points, dx, dy), ShiftBox(bbox, dx, dy), dist) == MouthRatio(points, bbox, dist)
  {
    var moved := ShiftAll(points, dx, dy);
    if |points| == 106 {
      assert dist(moved[51], moved[57]) == dist(points[51], points[57]);
      assert dist(moved[48], moved[54]) == dist(points[48], points[54]);
    } else {
      var w := WindowFor(|points|);
      var region := MouthRegion(points, bbox, w);
      MouthRegionShift(points, bbox, w, dx, dy);
      if |region| >= w.minPoints {
        SpreadRatioShift(region, dx, dy);
      }
    }
  }

  /** One frame of one track: the pose and landmarks in use, the eyes and
      mouth readings, the smoothed pose, the attention label (from the
      smoothed pose and the two eyes) and the two event machines, the
      blink machine fed "both eyes closed" and the yawn machine fed "mouth
      open", each counting only on an attentive frame. */
  function Observe(s: FaceState, pose: PoseOutcome, confidence: real, now: real, cfg: Config,
                   dist: (Point, Point) -> real, frameId: nat, timestamp: real): (r: (FaceState, FaceResult))
    requires IsDistance(dist) && |s.history| <= HistoryLimit
    ensures var t, face := r.0, r.1;
      t.id == s.id && t.bbox == s.bbox && t.lastSeen == s.lastSeen &&
      1 <= |t.history| <= HistoryLimit && t.history[|t.history| - 1] == face.attention &&
      face.blinkCount == t.blink.count && face.yawnCount == t.yawn.count && face.pose == t.ema &&
      s.blink.count <= t.blink.count <= s.blink.count + 1 &&
      s.yawn.count <= t.yawn.count <= s.yawn.count + 1
    ensures var t, face := r.0, r.1;
      var landmarks := PoseInputs(s, pose).0;
      face.eyes == EyesOf(landmarks, cfg.earThreshold, dist) &&
      face.mar == (if landmarks.Some? then MouthRatio(landmarks.value, s.bbox, dist) else 0.0) &&
      (face.mouthOpen <==> landmarks.Some? && face.mar > YawnMar) &&
      t.ema == Smooth(s.ema, PoseInputs(s, pose).1) &&
      face.attention == Classify(t.ema, face.eyes.left.open, face.eyes.right.open, cfg.yawThreshold, cfg.pitchThreshold) &&
      t.blink == EventStep(s.blink, !face.eyes.left.open && !face.eyes.right.open, face.attention, now, BlinkRule) &&
      t.yawn == EventStep(s.yawn, face.mouthOpen, face.attention, now, YawnRule)
  {
    var (landmarks, raw, lastLm, lastPose) := PoseInputs(s, pose);
    var eyes := EyesOf(landmarks, cfg.earThreshold, dist);
    var mar := if landmarks.Some? then MouthRatio(landmarks.value, s.bbox, dist) else 0.0;
    var mouthOpen := landmarks.Some? && mar > YawnMar;
    var ema := Smooth(s.ema, raw);
    var attention := Classify(ema, eyes.left.open, eyes.right.open, cfg.yawThreshold, cfg.pitchThreshold);
    var blink := EventStep(s.blink, !eyes.left.open && !eyes.right.open, attention, now, BlinkRule);
    var yawn := EventStep(s.yawn, mouthOpen, attention, now, YawnRule);
    var t := s.(ema := ema, blink := blink, yawn := yawn, history := PushHistory(s.history, attention),
                lastLandmarks := lastLm, lastPose := lastPose);
    (t, FaceResult(s.bbox, confidence, raw, ema, eyes, mar, mouthOpen, yawn.count, blink.count,
                   attention, if landmarks.Some? then landmarks.value else [], frameId, timestamp))
  }

  /** Without landmarks the eyes read open, so no blink can start and the
      face is never labelled eyes-closed. */
  lemma NoLandmarksNoBlink(s: FaceState, confidence: real, now: real, cfg: Config,
                           dist: (Point, Point) -> real, frameId: nat, timestamp: real)
    requires IsDistance(dist) && |s.history| <= HistoryLimit && s.lastLandmarks.None?
    ensures var (t, face) := Observe(s, Failed, confidence, now, cfg, dist, frameId, timestamp);
      !t.blink.wasOn && !t.yawn.wasOn && face.attention != EyesClosed && !face.mouthOpen
  {
  }
}
