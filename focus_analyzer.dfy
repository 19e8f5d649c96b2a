/** The per-frame analyzer: it matches each detection to a persistent
    track by IoU, or opens a new track with the next unused id, updates
    the matched track, drops tracks not seen for more than two seconds,
    and reports either every face or the largest one. The detector, the
    pose estimator, the distance between two landmarks and both clock
    reads are inputs. */
module FocusAnalyzer {
  import opened Util
  import opened EyeAnalysis
  import opened HeadPose
  import opened FocusTrack

  /** One detector output: the face box, when the detection has one, and
      its confidence (1.0 when absent). */
  datatype Detection = Detection(bbox: Option<Box>, confidence: Option<real>)

  /** Everything the analyzer learns about one detection in one frame:
      the detection, the pose estimate for its box, and the clock read
      taken for its event machines. */
  datatype Sensed = Sensed(detection: Detection, pose: PoseOutcome, now: real)

  /** The tracks and the next unused id. */
  datatype Tracker = Tracker(states: map<nat, FaceState>, next: nat)

  /** Every track is filed under its own id, every id is below the next
      one to hand out, and every history is within its bound. */
  ghost predicate WellFormed(t: Tracker)
  {
    forall id :: id in t.states ==>
      id < t.next && t.states[id].id == id && |t.states[id].history| <= HistoryLimit
  }

  const MatchThreshold := 0.35
  const StaleAfter := 2.0

  // ---------------------------------------------------------------
  // Matching
  // ---------------------------------------------------------------

  /** The scan over the tracks with ids below k, in id order (the order
      they were inserted): the first track of strictly greatest positive
      IoU with the box, and that IoU (0 when none overlaps). */
  function BestAmong(states: map<nat, FaceState>, bbox: Box, k: nat): (r: (Option<nat>, real))
    ensures r.0.None? ==> r.1 == 0.0
    ensures r.0.Some? ==> r.0.value < k && r.0.value in states && r.1 == IoU(bbox, states[r.0.value].bbox)
    decreases k
  {
    if k == 0 then (None, 0.0)
    else
      var (id, best) := BestAmong(states, bbox, k - 1);
      var id' := k - 1;
      if id' in states && IoU(bbox, states[id'].bbox) > best then (Some(id'), IoU(bbox, states[id'].bbox))
      else (id, best)
  }

  /** The scan finds the greatest overlap, and the first track that has
      it; it finds none exactly when no track overlaps at all. */
  lemma {:induction false} BestAmongIsFirstMaximum(states: map<nat, FaceState>, bbox: Box, k: nat)
    ensures var (id, best) := BestAmong(states, bbox, k);
      (forall j :: j in states && j < k ==> IoU(bbox, states[j].bbox) <= best) &&
      (id.None? <==> forall j :: j in states && j < k ==> IoU(bbox, states[j].bbox) <= 0.0) &&
      (id.Some? ==> forall j :: j in states && j < id.value ==> IoU(bbox, states[j].bbox) < best)
    decreases k
  {
    if k > 0 {
      BestAmongIsFirstMaximum(states, bbox, k - 1);
    }
  }

  /** The track a box joins: the scan's choice when its IoU is above 0.35. */
  function Match(t: Tracker, bbox: Box): (m: Option<nat>)
    ensures m.Some? ==> m.value in t.states && IoU(bbox, t.states[m.value].bbox) > MatchThreshold
  {
    var (id, best) := BestAmong(t.states, bbox, t.next);
    if id.Some? && best > MatchThreshold then id else None
  }

  /** A box matches exactly when some track overlaps it by more than
      0.35, and then it joins the first track of greatest overlap. */
  lemma MatchIsBestTrack(t: Tracker, bbox: Box)
    requires WellFormed(t)
    ensures Match(t, bbox).Some? <==> exists j :: j in t.states && IoU(bbox, t.states[j].bbox) > MatchThreshold
    ensures Match(t, bbox).Some? ==> var m := Match(t, bbox).value;
      (forall j :: j in t.states ==> IoU(bbox, t.states[j].bbox) <= IoU(bbox, t.states[m].bbox)) &&
      (forall j :: j in t.states && j < m ==> IoU(bbox, t.states[j].bbox) < IoU(bbox, t.states[m].bbox))
  {
    BestAmongIsFirstMaximum(t.states, bbox, t.next);
    var (id, best) := BestAmong(t.states, bbox, t.next);
    if exists j :: j in t.states && IoU(bbox, t.states[j].bbox) > MatchThreshold {
      var j :| j in t.states && IoU(bbox, t.states[j].bbox) > MatchThreshold;
      assert j < t.next;
    }
  }

  /** A track whose box is seen again unchanged is matched (to it or to
      an earlier track with the same overlap). */
  lemma SameBoxMatches(t: Tracker, id: nat)
    requires WellFormed(t) && id in t.states
    requires var b := t.states[id].bbox; b.x1 < b.x2 && b.y1 < b.y2
    ensures Match(t, t.states[id].bbox).Some?
  {
    IoUSelf(t.states[id].bbox);
    MatchIsBestTrack(t, t.states[id].bbox);
  }

  /** The matching loop: the tracks are visited in id order and the best
      overlap so far is replaced only by a strictly greater one. */
  method BestMatch(states: map<nat, FaceState>, bbox: Box, next: nat) returns (best: Option<nat>, bestIou: real)
    ensures (best, bestIou) == BestAmong(states, bbox, next)
  {
    best, bestIou := None, 0.0;
    for k := 0 to next
      invariant (best, bestIou) == BestAmong(states, bbox, k)
    {
      if k in states {
        var i := IoU(bbox, states[k].bbox);
        if i > bestIou {
          best, bestIou := Some(k), i;
        }
      }
    }
  }

  // ---------------------------------------------------------------
  // One detection, one frame
  // ---------------------------------------------------------------

  /** The sensors the analyzer depends on: the distance between two
      landmarks used by the eye analyser and the mouth ratio. */
  datatype Sensors = Sensors(dist: (Point, Point) -> real)

  /** The track a box lands in before it observes the frame, and the
      next id: its matching track with the new box and the frame time as
      last seen, or a new track with the next id. */
  function Admit(t: Tracker, bbox: Box, timestamp: real): (r: (FaceState, nat))
    requires WellFormed(t)
    ensures r.0.bbox == bbox && r.0.lastSeen == timestamp && |r.0.history| <= HistoryLimit
    ensures Match(t, bbox).Some? ==>
      r.1 == t.next && r.0.id == Match(t, bbox).value && r.0 == t.states[r.0.id].(bbox := bbox, lastSeen := timestamp)
    ensures Match(t, bbox).None? ==> r.1 == t.next + 1 && r.0 == NewTrack(t.next, bbox, timestamp)
    ensures r.0.id < r.1
  {
    var m := Match(t, bbox);
    if m.Some? then (t.states[m.value].(bbox := bbox, lastSeen := timestamp), t.next)
    else (NewTrack(t.next, bbox, timestamp), t.next + 1)
  }

  /** Filing a track under its own id keeps the tracker well formed. */
  lemma FileTrack(t: Tracker, s: FaceState, next: nat)
    requires WellFormed(t) && s.id < next && t.next <= next && |s.history| <= HistoryLimit
    ensures WellFormed(Tracker(t.states[s.id := s], next))
  {
  }

  /** One detection: skipped without a box; otherwise the box joins its
      matching track (taking the new box and the frame time as last seen)
      or opens a track with the next id, and that track observes the
      frame. */
  function DetectionStep(t: Tracker, x: Sensed, cfg: Config, sensors: Sensors, frameId: nat, timestamp: real): (r: (Tracker, seq<FaceResult>))
    requires WellFormed(t) && IsDistance(sensors.dist)
    ensures WellFormed(r.0)
    ensures x.detection.bbox.None? ==> r == (t, [])
    ensures x.detection.bbox.Some? ==> |r.1| == 1
    ensures r.0.next == t.next || r.0.next == t.next + 1
    ensures t.states.Keys <= r.0.states.Keys
    ensures forall id :: id in r.0.states && id !in t.states ==> id == t.next && r.0.next == t.next + 1
  {
    match x.detection.bbox
    case None => (t, [])
    case Some(bbox) =>
      var (s, next) := Admit(t, bbox, timestamp);
      var confidence := if x.detection.confidence.Some? then x.detection.confidence.value else 1.0;
      var (s', face) := Observe(s, x.pose, confidence, x.now, cfg, sensors.dist, frameId, timestamp);
      FileTrack(t, s', next);
      (Tracker(t.states[s.id := s'], next), [face])
  }

  /** A detection with a box is the admitted track observing the frame,
      filed under its id; the tracker stays well formed. */
  lemma AdmittedStep(t: Tracker, x: Sensed, cfg: Config, sensors: Sensors, frameId: nat, timestamp: real,
                     s: FaceState, next: nat, s': FaceState, face: FaceResult)
    requires WellFormed(t) && IsDistance(sensors.dist) && x.detection.bbox.Some?
    requires (s, next) == Admit(t, x.detection.bbox.value, timestamp)
    requires var confidence := if x.detection.confidence.Some? then x.detection.confidence.value else 1.0;
      (s', face) == Observe(s, x.pose, confidence, x.now, cfg, sensors.dist, frameId, timestamp)
    ensures DetectionStep(t, x, cfg, sensors, frameId, timestamp) == (Tracker(t.states[s.id := s'], next), [face])
    ensures WellFormed(Tracker(t.states[s.id := s'], next))
  {
  }

  /** The admitted track is the best match's track when its overlap
      exceeds the threshold, else a new track. */
  lemma AdmitFromBest(t: Tracker, bbox: Box, timestamp: real, best: Option<nat>, bestIou: real)
    requires WellFormed(t) && (best, bestIou) == BestAmong(t.states, bbox, t.next)
    ensures Admit(t, bbox, timestamp) ==
      if best.Some? && bestIou > MatchThreshold then (t.states[best.value].(bbox := bbox, lastSeen := timestamp), t.next)
      else (NewTrack(t.next, bbox, timestamp), t.next + 1)
  {
  }

  /** One detection changes the blink and yawn counts of an existing
      track by at most one, and never lowers them. */
  lemma StepCounts(t: Tracker, x: Sensed, cfg: Config, sensors: Sensors, frameId: nat, timestamp: real, id: nat)
    requires WellFormed(t) && IsDistance(sensors.dist) && id in t.states
    ensures var s, s' := t.states[id], DetectionStep(t, x, cfg, sensors, frameId, timestamp).0.states[id];
      s.blink.count <= s'.blink.count <= s.blink.count + 1 &&
      s.yawn.count <= s'.yawn.count <= s.yawn.count + 1
  {
    if x.detection.bbox.Some? {
      var bbox := x.detection.bbox.value;
      var (a, next) := Admit(t, bbox, timestamp);
      var confidence := if x.detection.confidence.Some? then x.detection.confidence.value else 1.0;
      var (a', face) := Observe(a, x.pose, confidence, x.now, cfg, sensors.dist, frameId, timestamp);
      assert DetectionStep(t, x, cfg, sensors, frameId, timestamp).0.states == t.states[a.id := a'];
      if a.id == id {
        assert a.blink == t.states[id].blink && a.yawn == t.states[id].yawn;
      }
    }
  }

  /** The detections of a frame processed in order; later detections
      see the tracks the earlier ones opened. */
  function Detect(t: Tracker, xs: seq<Sensed>, cfg: Config, sensors: Sensors, frameId: nat, timestamp: real): (r: (Tracker, seq<FaceResult>))
    requires WellFormed(t) && IsDistance(sensors.dist)
    ensures WellFormed(r.0) && r.0.next >= t.next && t.states.Keys <= r.0.states.Keys
    ensures forall id :: id in r.0.states && id !in t.states ==> t.next <= id < r.0.next
    ensures |r.1| <= |xs|
    decreases |xs|
  {
    if xs == [] then (t, [])
    else
      var (t1, faces) := Detect(t, xs[..|xs| - 1], cfg, sensors, frameId, timestamp);
      var (t2, face) := DetectionStep(t1, xs[|xs| - 1], cfg, sensors, frameId, timestamp);
      (t2, faces + face)
  }

  /** Blink and yawn counts of a surviving track never fall during a
      frame, and grow by at most one per detection. */
  lemma {:induction false} DetectCountsGrow(t: Tracker, xs: seq<Sensed>, cfg: Config, sensors: Sensors, frameId: nat, timestamp: real, id: nat)
    requires WellFormed(t) && IsDistance(sensors.dist) && id in t.states
    ensures var s, s' := t.states[id], Detect(t, xs, cfg, sensors, frameId, timestamp).0.states[id];
      s.blink.count <= s'.blink.count <= s.blink.count + |xs| &&
      s.yawn.count <= s'.yawn.count <= s.yawn.count + |xs|
    decreases |xs|
  {
    if xs != [] {
      DetectCountsGrow(t, xs[..|xs| - 1], cfg, sensors, frameId, timestamp, id);
      var t1 := Detect(t, xs[..|xs| - 1], cfg, sensors, frameId, timestamp).0;
      StepCounts(t1, xs[|xs| - 1], cfg, sensors, frameId, timestamp, id);
    }
  }

  /** A track is stale when its last-seen time is set (non-zero) and more
      than two seconds behind the frame time. */
  predicate Stale(s: FaceState, timestamp: real)
  {
    s.lastSeen != 0.0 && timestamp - s.lastSeen > StaleAfter
  }

  /** The tracks left after pruning. */
  function Pruned(states: map<nat, FaceState>, timestamp: real): (r: map<nat, FaceState>)
    ensures r.Keys <= states.Keys
    ensures forall id :: id in r ==> r[id] == states[id] && !Stale(states[id], timestamp)
    ensures forall id :: id in states && !Stale(states[id], timestamp) ==> id in r
  {
    map id | id in states && !Stale(states[id], timestamp) :: states[id]
  }

  /** Every track matched or opened in this frame survives the pruning
      that ends it. */
  lemma SeenTracksSurvive(states: map<nat, FaceState>, timestamp: real, id: nat)
    requires id in states && states[id].lastSeen == timestamp
    ensures id in Pruned(states, timestamp)
  {
  }

  // ---------------------------------------------------------------
  // Output
  // ---------------------------------------------------------------

  /** `(x2 - x1) * (y2 - y1)`, unclamped, as `_select_primary` computes it. */
  function BoxArea(b: Box): real
  {
    (b.x2 - b.x1) * (b.y2 - b.y1)
  }

  /** `np.argmax`: the first index of the greatest value. */
  function ArgMax(xs: seq<real>): (i: nat)
    requires |xs| > 0
    ensures i < |xs|
    ensures forall j :: 0 <= j < |xs| ==> xs[j] <= xs[i]
    ensures forall j :: 0 <= j < i ==> xs[j] < xs[i]
  {
    if |xs| == 1 then 0
    else
      var i := ArgMax(xs[..|xs| - 1]);
      if xs[|xs| - 1] > xs[i] then |xs| - 1 else i
  }

  /** `_select_primary`: the first face of greatest box area, or None
      when there are no faces. */
  function SelectPrimary(faces: seq<FaceResult>): (r: Option<nat>)
    ensures r.None? <==> faces == []
    ensures r.Some? ==> r.value < |faces|
    ensures r.Some? ==> forall j :: 0 <= j < |faces| ==> BoxArea(faces[j].bbox) <= BoxArea(faces[r.value].bbox)
    ensures r.Some? ==> forall j :: 0 <= j < r.value ==> BoxArea(faces[j].bbox) < BoxArea(faces[r.value].bbox)
  {
    if faces == [] then None
    else
      var areas := seq(|faces|, j requires 0 <= j < |faces| => BoxArea(faces[j].bbox));
      assert forall j :: 0 <= j < |faces| ==> areas[j] == BoxArea(faces[j].bbox);
      Some(ArgMax(areas))
  }

  /** What `analyze_frame` returns: every face (`return_all`, and also
      whenever the frame had no detection at all), or the primary face. */
  datatype FrameOutput =
    | AllFaces(timestamp: real, frameId: nat, faceCount: nat, faces: seq<FaceResult>)
    | PrimaryFace(timestamp: real, frameId: nat, faceCount: nat, primary: Option<FaceResult>)

  /** One frame: with no detection the output is empty and no track is
      touched or pruned; otherwise the detections update the tracks, stale
      tracks are dropped, and the output is built. */
  function Frame(t: Tracker, xs: seq<Sensed>, cfg: Config, sensors: Sensors, frameId: nat,
                 timestamp: real, returnAll: bool): (r: (Tracker, FrameOutput))
    requires WellFormed(t) && IsDistance(sensors.dist)
    ensures WellFormed(r.0) && r.0.next >= t.next
    ensures xs == [] ==> r == (t, AllFaces(timestamp, frameId, 0, []))
    ensures xs != [] ==> r.0.states == Pruned(Detect(t, xs, cfg, sensors, frameId, timestamp).0.states, timestamp)
    ensures r.1.AllFaces? && xs != [] ==> r.1.faceCount == |xs|
    ensures r.1.PrimaryFace? ==> (r.1.primary.None? <==> r.1.faceCount == 0)
    ensures r.1.PrimaryFace? && r.1.primary.Some? ==> r.1.faceCount == |xs|
    ensures xs != [] ==> (r.1.AllFaces? <==> returnAll)
    ensures xs != [] && returnAll ==> r.1.faces == Detect(t, xs, cfg, sensors, frameId, timestamp).1
    ensures xs != [] && !returnAll ==>
      var faces := Detect(t, xs, cfg, sensors, frameId, timestamp).1;
      (r.1.primary.None? <==> faces == []) &&
      (faces != [] ==> r.1.primary == Some(faces[SelectPrimary(faces).value]))
  {
    if xs == [] then (t, AllFaces(timestamp, frameId, 0, []))
    else
      var (t1, faces) := Detect(t, xs, cfg, sensors, frameId, timestamp);
      var t2 := Tracker(Pruned(t1.states, timestamp), t1.next);
      if returnAll then (t2, AllFaces(timestamp, frameId, |xs|, faces))
      else
        match SelectPrimary(faces)
        case None => (t2, PrimaryFace(timestamp, frameId, 0, None))
        case Some(i) => (t2, PrimaryFace(timestamp, frameId, |xs|, Some(faces[i])))
  }

  /** Ids are never reused: every track opened in a frame gets an id at
      or above the next id before the frame, which no earlier track ever
      had, and the next id never goes back. */
  lemma IdsNeverReused(t: Tracker, xs: seq<Sensed>, cfg: Config, sensors: Sensors, frameId: nat,
                       timestamp: real, returnAll: bool)
    requires WellFormed(t) && IsDistance(sensors.dist)
    ensures var t' := Frame(t, xs, cfg, sensors, frameId, timestamp, returnAll).0;
      t'.next >= t.next && forall id :: id in t'.states && id !in t.states ==> t.next <= id < t'.next
  {
  }

  // ---------------------------------------------------------------
  // The analyzer object
  // ---------------------------------------------------------------

  class Analyzer {
    const config: Config
    var states: map<nat, FaceState>
    var nextStateId: nat
    var frameCounter: nat

    ghost predicate Valid()
      reads this
    {
      WellFormed(Tracker(states, nextStateId))
    }

    /** A fresh analyzer: no tracks, ids from 0, no frames. */
    constructor(config: Config)
      ensures this.config == config
      ensures states == map[] && nextStateId == 0 && frameCounter == 0
      ensures Valid()
    {
      this.config := config;
      states := map[];
      nextStateId := 0;
      frameCounter := 0;
    }

    /** `analyze_frame`: `timestamp` is the clock read at the start of the
        frame, `xs` the detections with their pose estimates and their own
        clock reads. */
    method AnalyzeFrame(xs: seq<Sensed>, sensors: Sensors, timestamp: real, returnAll: bool) returns (out: FrameOutput)
      requires Valid() && IsDistance(sensors.dist)
      modifies this
      ensures Valid()
      ensures frameCounter == old(frameCounter) + 1
      ensures (Tracker(states, nextStateId), out) ==
        Frame(Tracker(old(states), old(nextStateId)), xs, config, sensors, frameCounter, timestamp, returnAll)
    {
      frameCounter := frameCounter + 1;
      var frameId := frameCounter;
      if xs == [] {
        return AllFaces(timestamp, frameId, 0, []);
      }
      ghost var t0 := Tracker(states, nextStateId);
      var faces: seq<FaceResult> := [];
      for k := 0 to |xs|
        invariant WellFormed(Tracker(states, nextStateId))
        invariant frameCounter == old(frameCounter) + 1 && frameId == frameCounter
        invariant (Tracker(states, nextStateId), faces) == Detect(t0, xs[..k], config, sensors, frameId, timestamp)
      {
        assert xs[..k + 1][..k] == xs[..k];
        var face := ProcessDetection(xs[k], sensors, frameId, timestamp);
        faces := faces + face;
      }
      assert xs[..|xs|] == xs;
      PruneStale(timestamp);
      if returnAll {
        out := AllFaces(timestamp, frameId, |xs|, faces);
      } else {
        match SelectPrimary(faces)
        case None => out := PrimaryFace(timestamp, frameId, 0, None);
        case Some(i) => out := PrimaryFace(timestamp, frameId, |xs|, Some(faces[i]));
      }
    }

    /** The track a box lands in and the next id: the best-overlapping
        track with the new box and the frame time, when that overlap
        exceeds the threshold, else a new track. */
    method AdmitBox(bbox: Box, timestamp: real) returns (s: FaceState, next: nat)
      requires Valid()
      ensures (s, next) == Admit(Tracker(states, nextStateId), bbox, timestamp)
    {
      var best, bestIou := BestMatch(states, bbox, nextStateId);
      AdmitFromBest(Tracker(states, nextStateId), bbox, timestamp, best, bestIou);
      if best.Some? && bestIou > MatchThreshold {
        s, next := states[best.value].(bbox := bbox, lastSeen := timestamp), nextStateId;
      } else {
        s, next := NewTrack(nextStateId, bbox, timestamp), nextStateId + 1;
      }
    }

    /** The body of the detection loop for one detection. */
    method ProcessDetection(x: Sensed, sensors: Sensors, frameId: nat, timestamp: real) returns (face: seq<FaceResult>)
      requires Valid() && IsDistance(sensors.dist)
      modifies this
      ensures Valid()
      ensures frameCounter == old(frameCounter)
      ensures (Tracker(states, nextStateId), face) ==
        DetectionStep(Tracker(old(states), old(nextStateId)), x, config, sensors, frameId, timestamp)
    {
      if x.detection.bbox.None? {
        return [];
      }
      ghost var t := Tracker(states, nextStateId);
      var s, next := AdmitBox(x.detection.bbox.value, timestamp);
      var confidence := if x.detection.confidence.Some? then x.detection.confidence.value else 1.0;
      var observed := Observe(s, x.pose, confidence, x.now, config, sensors.dist, frameId, timestamp);
      AdmittedStep(t, x, config, sensors, frameId, timestamp, s, next, observed.0, observed.1);
      states, nextStateId := states[s.id := observed.0], next;
      face := [observed.1];
    }

    /** Drop every stale track, visiting the ids in order. */
    method PruneStale(timestamp: real)
      requires Valid()
      modifies this
      ensures Valid()
      ensures states == Pruned(old(states), timestamp)
      ensures nextStateId == old(nextStateId) && frameCounter == old(frameCounter)
    {
      ghost var before := states;
      for id := 0 to nextStateId
        invariant states.Keys <= before.Keys
        invariant forall j :: j in states ==> states[j] == before[j]
        invariant forall j :: j in before && (j >= id || !Stale(before[j], timestamp)) ==> j in states
        invariant forall j :: j in states && j < id ==> !Stale(before[j], timestamp)
        invariant Valid()
        invariant nextStateId == old(nextStateId) && frameCounter == old(frameCounter)
      {
        if id in states && Stale(states[id], timestamp) {
          states := states - {id};
        }
      }
    }
  }
}
