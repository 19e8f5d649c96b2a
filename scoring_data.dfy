/** The records passed from face tracking to scoring, and the conversion
    of one tracking output (a dictionary whose keys may be missing) into
    a frame record. */
module ScoringData {
  import opened Util

  datatype AttentionState = Attentive | LookingAway | Unknown

  /** The enum's string value. */
  function AttentionValue(a: AttentionState): string
  {
    match a
    case Attentive => "attentive"
    case LookingAway => "looking_away"
    case Unknown => "unknown"
  }

  /** `AttentionState(s.lower())`, falling back to UNKNOWN when the
      lowered string is not one of the three values. */
  function ParseAttention(s: string): (a: AttentionState)
    ensures a == Attentive <==> Lower(s) == "attentive"
    ensures a == LookingAway <==> Lower(s) == "looking_away"
    ensures a == Unknown <==> Lower(s) != "attentive" && Lower(s) != "looking_away"
  {
    var l := Lower(s);
    if l == "attentive" then Attentive
    else if l == "looking_away" then LookingAway
    else Unknown
  }

  /** Parsing a state's own value gives the state back. */
  lemma ParseAttentionRoundTrip(a: AttentionState)
    ensures ParseAttention(AttentionValue(a)) == a
  {
    match a
    case Attentive => LowerNoUpper("attentive");
    case LookingAway => LowerNoUpper("looking_away");
    case Unknown => LowerNoUpper("unknown");
  }

  /** The tracker's third label has no scoring counterpart. */
  lemma EyesClosedIsUnknown()
    ensures ParseAttention("eyes_closed") == Unknown
  {
    LowerNoUpper("eyes_closed");
  }

  datatype FaceMetrics = FaceMetrics(
    bbox: seq<real>,
    confidence: real,
    yaw: real,
    pitch: real,
    roll: real,
    leftEar: real,
    rightEar: real,
    eyesOpenLeft: bool,
    eyesOpenRight: bool,
    blinkCount: int,
    mar: real,
    mouthOpen: bool,
    yawnCount: int,
    attention: AttentionState)

  datatype FrameData = FrameData(
    frameId: int,
    timestamp: real,
    faceCount: int,
    faceDetected: bool,
    faces: seq<FaceMetrics>,
    primary: Option<FaceMetrics>,
    procTime: real,
    procFps: real,
    captureTime: real)

  /** One face dictionary of a tracking output; None is a missing key.
      `otherKeys` records keys the conversion does not read, which still
      make the dictionary non-empty (truthy). */
  datatype FaceDict = FaceDict(
    attention: Option<string>,
    bbox: Option<seq<real>>,
    confidence: Option<real>,
    yaw: Option<real>,
    pitch: Option<real>,
    roll: Option<real>,
    leftEar: Option<real>,
    rightEar: Option<real>,
    eyesOpenLeft: Option<bool>,
    eyesOpenRight: Option<bool>,
    blinkCount: Option<int>,
    mar: Option<real>,
    mouthOpen: Option<bool>,
    yawnCount: Option<int>,
    otherKeys: bool)

  datatype DebugDict = DebugDict(procTime: Option<real>, procFps: Option<real>, captureTime: Option<real>)

  datatype PipelineOutput = PipelineOutput(
    frameId: Option<int>,
    timestamp: Option<real>,
    faceCount: Option<int>,
    faceDetected: Option<bool>,
    faces: Option<seq<FaceDict>>,
    primary: Option<FaceDict>,
    debug: Option<DebugDict>)

  /** `d.get(key, default)` */
  function Get<T>(o: Option<T>, default: T): (r: T)
    ensures o.None? ==> r == default
    ensures o.Some? ==> r == o.value
  {
    if o.Some? then o.value else default
  }

  /** A dictionary is truthy when it holds at least one key. */
  predicate IsTruthy(d: FaceDict)
  {
    d.attention.Some? || d.bbox.Some? || d.confidence.Some? || d.yaw.Some? || d.pitch.Some?
    || d.roll.Some? || d.leftEar.Some? || d.rightEar.Some? || d.eyesOpenLeft.Some?
    || d.eyesOpenRight.Some? || d.blinkCount.Some? || d.mar.Some? || d.mouthOpen.Some?
    || d.yawnCount.Some? || d.otherKeys
  }

  /** The FaceMetrics built from one face dictionary. */
  function FaceFromDict(d: FaceDict): (f: FaceMetrics)
    ensures f.attention == ParseAttention(Get(d.attention, "unknown"))
    ensures d.bbox.None? ==> f.bbox == [0.0, 0.0, 0.0, 0.0]
    ensures d.blinkCount.None? ==> f.blinkCount == 0
    ensures d.yawnCount.None? ==> f.yawnCount == 0
    ensures d.eyesOpenLeft.None? ==> !f.eyesOpenLeft
    ensures d.eyesOpenRight.None? ==> !f.eyesOpenRight
    ensures f.bbox == Get(d.bbox, [0.0, 0.0, 0.0, 0.0]) && f.confidence == Get(d.confidence, 0.0)
    ensures f.yaw == Get(d.yaw, 0.0) && f.pitch == Get(d.pitch, 0.0) && f.roll == Get(d.roll, 0.0)
    ensures f.leftEar == Get(d.leftEar, 0.0) && f.rightEar == Get(d.rightEar, 0.0)
    ensures f.eyesOpenLeft == Get(d.eyesOpenLeft, false) && f.eyesOpenRight == Get(d.eyesOpenRight, false)
    ensures f.blinkCount == Get(d.blinkCount, 0) && f.yawnCount == Get(d.yawnCount, 0)
    ensures f.mar == Get(d.mar, 0.0) && f.mouthOpen == Get(d.mouthOpen, false)
  {
    FaceMetrics(
      Get(d.bbox, [0.0, 0.0, 0.0, 0.0]),
      Get(d.confidence, 0.0),
      Get(d.yaw, 0.0),
      Get(d.pitch, 0.0),
      Get(d.roll, 0.0),
      Get(d.leftEar, 0.0),
      Get(d.rightEar, 0.0),
      Get(d.eyesOpenLeft, false),
      Get(d.eyesOpenRight, false),
      Get(d.blinkCount, 0),
      Get(d.mar, 0.0),
      Get(d.mouthOpen, false),
      Get(d.yawnCount, 0),
      ParseAttention(Get(d.attention, "unknown")))
  }

  const EmptyFaceDict := FaceDict(None, None, None, None, None, None, None, None, None, None, None, None, None, None, false)

  /** A face dictionary with no keys converts to an all-zero face whose
      attention is UNKNOWN. */
  lemma EmptyFaceDefaults()
    ensures var f := FaceFromDict(EmptyFaceDict);
      f.yaw == 0.0 && f.pitch == 0.0 && f.roll == 0.0 && f.confidence == 0.0 &&
      f.leftEar == 0.0 && f.rightEar == 0.0 && f.mar == 0.0 &&
      !f.eyesOpenLeft && !f.eyesOpenRight && !f.mouthOpen &&
      f.blinkCount == 0 && f.yawnCount == 0 && f.attention == Unknown &&
      !IsTruthy(EmptyFaceDict)
  {
    LowerNoUpper("unknown");
  }

  /** `FrameData.from_pipeline_output` */
  function FromPipelineOutput(o: PipelineOutput): (fd: FrameData)
    ensures var ds := Get(o.faces, []);
      |fd.faces| == |ds| && forall i :: 0 <= i < |ds| ==> fd.faces[i] == FaceFromDict(ds[i])
    ensures fd.primary.Some? <==> o.primary.Some? && IsTruthy(o.primary.value)
    ensures fd.primary.Some? ==> fd.primary.value == FaceFromDict(o.primary.value)
    ensures o.faceDetected.None? ==> !fd.faceDetected
    ensures o.debug.None? ==> fd.procTime == 0.0 && fd.procFps == 0.0 && fd.captureTime == 0.0
    ensures fd.frameId == Get(o.frameId, 0) && fd.timestamp == Get(o.timestamp, 0.0)
    ensures fd.faceCount == Get(o.faceCount, 0) && fd.faceDetected == Get(o.faceDetected, false)
    ensures o.debug.Some? ==>
      fd.procTime == Get(o.debug.value.procTime, 0.0) && fd.procFps == Get(o.debug.value.procFps, 0.0) &&
      fd.captureTime == Get(o.debug.value.captureTime, 0.0)
  {
    var ds := Get(o.faces, []);
    var dbg := Get(o.debug, DebugDict(None, None, None));
    FrameData(
      Get(o.frameId, 0),
      Get(o.timestamp, 0.0),
      Get(o.faceCount, 0),
      Get(o.faceDetected, false),
      seq(|ds|, i requires 0 <= i < |ds| => FaceFromDict(ds[i])),
      if o.primary.Some? && IsTruthy(o.primary.value) then Some(FaceFromDict(o.primary.value)) else None,
      Get(dbg.procTime, 0.0),
      Get(dbg.procFps, 0.0),
      Get(dbg.captureTime, 0.0))
  }

  datatype SessionMetrics = SessionMetrics(
    totalFrames: int,
    framesWithFace: int,
    totalAttentiveFrames: int,
    totalLookingAwayFrames: int,
    totalUnknownFrames: int,
    totalBlinks: int,
    averageEar: real,
    averageYaw: real,
    averagePitch: real,
    averageFps: real,
    sessionDuration: real)

  /** `SessionMetrics()` with every field at its default. */
  const EmptySession := SessionMetrics(0, 0, 0, 0, 0, 0, 0.0, 0.0, 0.0, 0.0, 0.0)

  /** The breakdown stored under `components["focus_metrics"]`. */
  datatype FocusMetrics =
    | NoFocusData
    | NoFaceForFocus
    | FocusCounts(attentiveFrames: nat, lookingAwayFrames: nat, unknownFrames: int,
                  focusPercentage: real, totalFramesWithFace: nat)

  /** The breakdown stored under `components["engagement_metrics"]`. */
  datatype EngagementMetrics =
    | NoEngagementData
    | NoFaceForEngagement
    | EngagementParts(averageEar: real, totalBlinks: int, eyesOpenPercentage: real,
                      earScore: real, blinkScore: real, eyesOpenScore: real)

  /** The breakdown stored under `components["stability_metrics"]`. */
  datatype StabilityMetrics =
    | NoStabilityData
    | InsufficientStabilityData
    | StabilityParts(yawVariance: real, pitchVariance: real, maxYawDelta: real, maxPitchDelta: real,
                     yawVarScore: real, pitchVarScore: real, yawDeltaScore: real, pitchDeltaScore: real)

  /** The breakdown stored under `components["fatigue_metrics"]`. */
  datatype FatigueMetrics =
    | NoFatigueData
    | FatigueParts(averageEar: real, earFatigue: real, blinkRatePerMin: real, blinkFatigue: real,
                   yawnRatePerMin: real, yawnFatigue: real, lookingAwayRatio: real,
                   lookingAwayFatigue: real, stabilityScore: real, stabilityFatigue: real,
                   durationMinutes: real, totalBlinks: int, totalYawns: int)

  /** The `components` dictionary of a score. */
  datatype Components =
    | NoComponents
    | Components(focus: real, engagement: real, stability: real, fatigue: real,
                 focusMetrics: FocusMetrics, engagementMetrics: EngagementMetrics,
                 stabilityMetrics: StabilityMetrics, fatigueMetrics: FatigueMetrics)

  datatype ProductivityScore = ProductivityScore(
    overallScore: real,
    focusScore: real,
    engagementScore: real,
    stabilityScore: real,
    components: Components,
    insights: seq<string>,
    recommendations: seq<string>)
}
