/** The scoring engine: focus, engagement, stability and fatigue scores,
    session aggregates, and the overall score with its insight and
    recommendation lines, all as functions of the collected frames. */
module ScoringEngine {
  import opened Util
  import opened Format
  import opened ScoringData

  // ---------------------------------------------------------------
  // Frame selections
  // ---------------------------------------------------------------

  /** The primary faces of the frames that have one, in frame order
      (`[f for f in frames if f.primary]`). */
  function Primaries(frames: seq<FrameData>): (ps: seq<FaceMetrics>)
    ensures |ps| <= |frames|
    ensures ps == [] <==> forall i :: 0 <= i < |frames| ==> frames[i].primary.None?
  {
    if frames == [] then []
    else
      var rest := Primaries(frames[..|frames| - 1]);
      var last := frames[|frames| - 1];
      if last.primary.Some? then rest + [last.primary.value] else rest
  }

  lemma PrimariesAppend(frames: seq<FrameData>, f: FrameData)
    ensures Primaries(frames + [f]) ==
      Primaries(frames) + (if f.primary.Some? then [f.primary.value] else [])
  {
    assert (frames + [f])[..|frames|] == frames;
  }

  lemma {:induction false} PrimariesConcat(a: seq<FrameData>, b: seq<FrameData>)
    ensures Primaries(a + b) == Primaries(a) + Primaries(b)
    decreases |b|
  {
    if b == [] {
      assert a + b == a;
    } else {
      var front, last := b[..|b| - 1], b[|b| - 1];
      var tail := if last.primary.Some? then [last.primary.value] else [];
      assert a + b == (a + front) + [last];
      assert b == front + [last];
      calc {
        Primaries(a + b);
        Primaries((a + front) + [last]);
        { PrimariesAppend(a + front, last); }
        Primaries(a + front) + tail;
        { PrimariesConcat(a, front); }
        Primaries(a) + Primaries(front) + tail;
        { PrimariesAppend(front, last); }
        Primaries(a) + Primaries(front + [last]);
      }
    }
  }

  /** Number of faces with the given attention state. */
  function CountAttention(ps: seq<FaceMetrics>, a: AttentionState): (n: nat)
    ensures n <= |ps|
  {
    if ps == [] then 0
    else CountAttention(ps[..|ps| - 1], a) + (if ps[|ps| - 1].attention == a then 1 else 0)
  }

  /** Attentive and looking-away faces are disjoint, so the number of
      UNKNOWN faces (the rest) is never negative. */
  lemma {:induction false} AttentionCountsDisjoint(ps: seq<FaceMetrics>)
    ensures CountAttention(ps, Attentive) + CountAttention(ps, LookingAway) <= |ps|
  {
    if ps != [] {
      AttentionCountsDisjoint(ps[..|ps| - 1]);
    }
  }

  /** Number of faces with at least one eye open. */
  function CountEyesOpen(ps: seq<FaceMetrics>): (n: nat)
    ensures n <= |ps|
  {
    if ps == [] then 0
    else CountEyesOpen(ps[..|ps| - 1]) + (if ps[|ps| - 1].eyesOpenLeft || ps[|ps| - 1].eyesOpenRight then 1 else 0)
  }

  function MeanEars(ps: seq<FaceMetrics>): (r: seq<real>)
    ensures |r| == |ps|
  {
    seq(|ps|, i requires 0 <= i < |ps| => (ps[i].leftEar + ps[i].rightEar) / 2.0)
  }

  function EarSums(ps: seq<FaceMetrics>): (r: seq<real>)
    ensures |r| == |ps|
  {
    seq(|ps|, i requires 0 <= i < |ps| => ps[i].leftEar + ps[i].rightEar)
  }

  function Yaws(ps: seq<FaceMetrics>): (r: seq<real>)
    ensures |r| == |ps|
  {
    seq(|ps|, i requires 0 <= i < |ps| => ps[i].yaw)
  }

  function Pitches(ps: seq<FaceMetrics>): (r: seq<real>)
    ensures |r| == |ps|
  {
    seq(|ps|, i requires 0 <= i < |ps| => ps[i].pitch)
  }

  function BlinkCounts(ps: seq<FaceMetrics>): (r: seq<int>)
    ensures |r| == |ps|
  {
    seq(|ps|, i requires 0 <= i < |ps| => ps[i].blinkCount)
  }

  function YawnCounts(ps: seq<FaceMetrics>): (r: seq<int>)
    ensures |r| == |ps|
  {
    seq(|ps|, i requires 0 <= i < |ps| => ps[i].yawnCount)
  }

  /** Last timestamp minus first when there is more than one frame. */
  function Duration(frames: seq<FrameData>): real
  {
    if |frames| > 1 then frames[|frames| - 1].timestamp - frames[0].timestamp else 0.0
  }

  // ---------------------------------------------------------------
  // Statistics
  // ---------------------------------------------------------------

  /** Population variance (numpy's `var`). */
  function PopVariance(xs: seq<real>): (v: real)
    requires |xs| > 0
    ensures v >= 0.0
  {
    var m := Mean(xs);
    var sq := seq(|xs|, i requires 0 <= i < |xs| => Square(xs[i] - m));
    SumNonNeg(sq);
    Sum(sq) / |xs| as real
  }

  /** The absolute change from xs[i - 1] to xs[i]. */
  function Delta(xs: seq<real>, i: int): real
    requires 1 <= i < |xs|
  {
    AbsR(xs[i] - xs[i - 1])
  }

  /** The largest absolute difference between consecutive values. */
  function MaxDelta(xs: seq<real>): (r: real)
    requires |xs| >= 2
    ensures forall i :: 1 <= i < |xs| ==> Delta(xs, i) <= r
    ensures exists i :: 1 <= i < |xs| && r == Delta(xs, i)
    ensures r >= 0.0
  {
    var d := Delta(xs, |xs| - 1);
    if |xs| == 2 then d
    else
      var front := xs[..|xs| - 1];
      var m := MaxDelta(front);
      assert forall i :: 1 <= i < |front| ==> Delta(front, i) == Delta(xs, i);
      MaxR(m, d)
  }

  /** A constant sequence has mean c and variance 0. */
  lemma ConstantVariance(xs: seq<real>, c: real)
    requires |xs| > 0
    requires forall i :: 0 <= i < |xs| ==> xs[i] == c
    ensures Mean(xs) == c && PopVariance(xs) == 0.0
  {
    SumBounds(xs, c, c);
    var n := |xs| as real;
    assert Sum(xs) == n * c;
    assert Mean(xs) == c;
    var sq := seq(|xs|, i requires 0 <= i < |xs| => Square(xs[i] - c));
    SumBounds(sq, 0.0, 0.0);
  }

  /** A constant sequence has no consecutive change. */
  lemma ConstantMaxDelta(xs: seq<real>, c: real)
    requires |xs| >= 2
    requires forall i :: 0 <= i < |xs| ==> xs[i] == c
    ensures MaxDelta(xs) == 0.0
  {
    var i :| 1 <= i < |xs| && MaxDelta(xs) == Delta(xs, i);
  }

  // ---------------------------------------------------------------
  // Engine weights
  // ---------------------------------------------------------------

  /** Component weights, renormalised by their total. */
  datatype Engine = Engine(focusWeight: real, engagementWeight: real, stabilityWeight: real)

  /** The engine constructor; a zero total divides by zero. */
  function NewEngine(focus: real, engagement: real, stability: real): (r: Option<Engine>)
    ensures r.None? <==> focus + engagement + stability == 0.0
    ensures r.Some? ==> r.value.focusWeight + r.value.engagementWeight + r.value.stabilityWeight == 1.0
    ensures r.Some? ==>
      var t := focus + engagement + stability;
      r.value.focusWeight * t == focus && r.value.engagementWeight * t == engagement &&
      r.value.stabilityWeight * t == stability
  {
    var total := focus + engagement + stability;
    if total == 0.0 then None
    else Some(Engine(focus / total, engagement / total, stability / total))
  }

  /** The default weights 0.4 / 0.35 / 0.25 already sum to one. */
  const DefaultEngine := Engine(0.4, 0.35, 0.25)

  lemma DefaultEngineIsNormalised()
    ensures NewEngine(0.4, 0.35, 0.25) == Some(DefaultEngine)
  {
  }

  // ---------------------------------------------------------------
  // Component scores
  // ---------------------------------------------------------------

  /** `calculate_focus_score`: the percentage of face frames whose
      attention is ATTENTIVE. */
  function FocusScore(frames: seq<FrameData>): (r: (real, FocusMetrics))
    ensures 0.0 <= r.0 <= 100.0
    ensures frames == [] ==> r == (0.0, NoFocusData)
    ensures frames != [] && Primaries(frames) == [] ==> r == (0.0, NoFaceForFocus)
    ensures Primaries(frames) != [] ==>
      var ps := Primaries(frames);
      r.1.FocusCounts? &&
      r.0 == CountAttention(ps, Attentive) as real / |ps| as real * 100.0 &&
      r.1.attentiveFrames + r.1.lookingAwayFrames + r.1.unknownFrames == |ps| &&
      r.1.unknownFrames >= 0 && r.1.focusPercentage == r.0
  {
    if frames == [] then (0.0, NoFocusData)
    else
      var ps := Primaries(frames);
      if ps == [] then (0.0, NoFaceForFocus)
      else
        var att := CountAttention(ps, Attentive);
        var away := CountAttention(ps, LookingAway);
        AttentionCountsDisjoint(ps);
        var n := |ps| as real;
        RatioBounds(att as real, n);
        var pct := (att as real / n) * 100.0;
        (pct, FocusCounts(att, away, |ps| - att - away, pct, |ps|))
  }

  /** One more attentive face frame never lowers the focus score. */
  lemma FocusAppendAttentive(frames: seq<FrameData>, f: FrameData)
    requires f.primary.Some? && f.primary.value.attention == Attentive
    ensures FocusScore(frames + [f]).0 >= FocusScore(frames).0
  {
    PrimariesAppend(frames, f);
    var x := f.primary.value;
    var ps := Primaries(frames);
    assert Primaries(frames + [f]) == ps + [x];
    var a := CountAttention(ps, Attentive);
    CountAttentiveAppend(ps, x);
    if ps != [] {
      RatioStep(a as real, |ps| as real);
    }
  }

  lemma CountAttentiveAppend(ps: seq<FaceMetrics>, x: FaceMetrics)
    requires x.attention == Attentive
    ensures CountAttention(ps + [x], Attentive) == CountAttention(ps, Attentive) + 1
  {
    assert (ps + [x])[..|ps|] == ps;
  }

  lemma RatioStep(a: real, n: real)
    requires 0.0 <= a <= n && n > 0.0
    ensures a / n * 100.0 <= (a + 1.0) / (n + 1.0) * 100.0
  {
    assert a * (n + 1.0) <= (a + 1.0) * n;
    assert a / n == a * (n + 1.0) / (n * (n + 1.0));
    assert (a + 1.0) / (n + 1.0) == (a + 1.0) * n / (n * (n + 1.0));
    DivMono(a * (n + 1.0), (a + 1.0) * n, n * (n + 1.0));
  }

  lemma DivMono(x: real, y: real, d: real)
    requires x <= y && d > 0.0
    ensures x / d <= y / d
  {
  }

  /** The eye-openness part of engagement: EAR 0.10 maps to 0 and 0.25
      to 100, clamped. */
  function EarScore(avgEar: real): (r: real)
    ensures 0.0 <= r <= 100.0
    ensures avgEar <= 0.10 ==> r == 0.0
    ensures avgEar >= 0.25 ==> r == 100.0
  {
    Clamp((avgEar - 0.10) / 0.15 * 100.0, 0.0, 100.0)
  }

  lemma EarScoreMonotone(a: real, b: real)
    requires a <= b
    ensures EarScore(a) <= EarScore(b)
  {
    assert (a - 0.10) / 0.15 * 100.0 <= (b - 0.10) / 0.15 * 100.0;
  }

  /** `calculate_engagement_score`: 0.4 · EAR score + 0.3 · blink score
      + 0.3 · eyes-open percentage. Any blink gives the full blink score,
      none gives half, so a session with a face scores at least 15. */
  function EngagementScore(frames: seq<FrameData>): (r: (real, EngagementMetrics))
    ensures 0.0 <= r.0 <= 100.0
    ensures frames == [] ==> r == (0.0, NoEngagementData)
    ensures frames != [] && Primaries(frames) == [] ==> r == (0.0, NoFaceForEngagement)
    ensures Primaries(frames) != [] ==>
      var ps := Primaries(frames);
      r.1.EngagementParts? && r.0 >= 15.0 &&
      r.1.averageEar == Mean(MeanEars(ps)) &&
      r.1.totalBlinks == SumInt(BlinkCounts(ps)) &&
      (r.1.blinkScore == 100.0 <==> r.1.totalBlinks > 0) &&
      (r.1.blinkScore == 50.0 <==> r.1.totalBlinks <= 0) &&
      0.0 <= r.1.eyesOpenPercentage <= 100.0
    ensures Primaries(frames) != [] ==>
      var ps := Primaries(frames);
      r.1.EngagementParts? &&
      r.1.earScore == EarScore(r.1.averageEar) &&
      r.1.eyesOpenPercentage == CountEyesOpen(ps) as real / |ps| as real * 100.0 &&
      r.1.eyesOpenScore == r.1.eyesOpenPercentage &&
      r.0 == Clamp(0.4 * r.1.earScore + 0.3 * r.1.blinkScore + 0.3 * r.1.eyesOpenScore, 0.0, 100.0)
  {
    if frames == [] then (0.0, NoEngagementData)
    else
      var ps := Primaries(frames);
      if ps == [] then (0.0, NoFaceForEngagement)
      else
        var avgEar := Mean(MeanEars(ps));
        var blinks := SumInt(BlinkCounts(ps));
        var n := |ps| as real;
        RatioBounds(CountEyesOpen(ps) as real, n);
        var openPct := (CountEyesOpen(ps) as real / n) * 100.0;
        var earScore := EarScore(avgEar);
        var blinkScore := if blinks > 0 then 100.0 else 50.0;
        var score := earScore * 0.4 + blinkScore * 0.3 + openPct * 0.3;
        (Clamp(score, 0.0, 100.0), EngagementParts(avgEar, blinks, openPct, earScore, blinkScore, openPct))
  }

  /** The four stability terms and their mean for a yaw and a pitch
      series of at least two readings. */
  function StabilityOfSeries(yaws: seq<real>, pitches: seq<real>): (r: (real, StabilityMetrics))
    requires |yaws| >= 2 && |pitches| >= 2
    ensures 0.0 <= r.0 <= 100.0
    ensures r.1.StabilityParts? &&
      r.1.yawVariance == PopVariance(yaws) && r.1.pitchVariance == PopVariance(pitches) &&
      r.1.maxYawDelta == MaxDelta(yaws) && r.1.maxPitchDelta == MaxDelta(pitches)
    ensures r.1.StabilityParts? &&
      r.1.yawVarScore == MaxR(100.0 - 2.0 * r.1.yawVariance, 0.0) &&
      r.1.pitchVarScore == MaxR(100.0 - 2.0 * r.1.pitchVariance, 0.0) &&
      r.1.yawDeltaScore == MaxR(100.0 - 2.0 * r.1.maxYawDelta, 0.0) &&
      r.1.pitchDeltaScore == MaxR(100.0 - 2.0 * r.1.maxPitchDelta, 0.0)
    ensures r.0 == (r.1.yawVarScore + r.1.pitchVarScore + r.1.yawDeltaScore + r.1.pitchDeltaScore) / 4.0
    ensures (PopVariance(yaws) == 0.0 && PopVariance(pitches) == 0.0 &&
             MaxDelta(yaws) == 0.0 && MaxDelta(pitches) == 0.0) ==> r.0 == 100.0
  {
    var yv, pv := PopVariance(yaws), PopVariance(pitches);
    var yd, pd := MaxDelta(yaws), MaxDelta(pitches);
    var yvs, pvs := MaxR(100.0 - yv * 2.0, 0.0), MaxR(100.0 - pv * 2.0, 0.0);
    var yds, pds := MaxR(100.0 - yd * 2.0, 0.0), MaxR(100.0 - pd * 2.0, 0.0);
    var score := yvs * 0.25 + pvs * 0.25 + yds * 0.25 + pds * 0.25;
    (Clamp(score, 0.0, 100.0), StabilityParts(yv, pv, yd, pd, yvs, pvs, yds, pds))
  }

  /** `calculate_stability_score`: the mean of four terms
      max(100 − 2·x, 0) over the variance and largest step of yaw and
      pitch. Fewer than two face frames count as fully stable. */
  function StabilityScore(frames: seq<FrameData>): (r: (real, StabilityMetrics))
    ensures 0.0 <= r.0 <= 100.0
    ensures frames == [] ==> r == (0.0, NoStabilityData)
    ensures frames != [] && |Primaries(frames)| < 2 ==> r == (100.0, InsufficientStabilityData)
    ensures |Primaries(frames)| >= 2 ==>
      r == StabilityOfSeries(Yaws(Primaries(frames)), Pitches(Primaries(frames)))
  {
    if frames == [] then (0.0, NoStabilityData)
    else
      var ps := Primaries(frames);
      if |ps| < 2 then (100.0, InsufficientStabilityData)
      else StabilityOfSeries(Yaws(ps), Pitches(ps))
  }

  /** A head that does not move at all scores 100 for stability. */
  lemma StillHeadIsFullyStable(frames: seq<FrameData>)
    requires |Primaries(frames)| >= 2
    requires forall i :: 0 <= i < |Primaries(frames)| ==>
      Primaries(frames)[i].yaw == Primaries(frames)[0].yaw &&
      Primaries(frames)[i].pitch == Primaries(frames)[0].pitch
    ensures StabilityScore(frames).0 == 100.0
  {
    var ps := Primaries(frames);
    ConstantVariance(Yaws(ps), ps[0].yaw);
    ConstantVariance(Pitches(ps), ps[0].pitch);
    ConstantMaxDelta(Yaws(ps), ps[0].yaw);
    ConstantMaxDelta(Pitches(ps), ps[0].pitch);
  }

  /** `calculate_fatigue_score`: a 0.25 / 0.20 / 0.30 / 0.15 / 0.10 blend
      of the EAR, blink-rate, yawn-rate, looking-away and instability
      terms, each on 0..100, so the final clamp never binds. Rates are per
      minute of the whole session, with the duration floored at 1e-6 min. */
  function FatigueScore(frames: seq<FrameData>): (r: (real, FatigueMetrics))
    ensures 0.0 <= r.0 <= 100.0
    ensures Primaries(frames) == [] ==> r == (0.0, NoFatigueData)
    ensures Primaries(frames) != [] ==>
      var m := r.1;
      m.FatigueParts? &&
      m.durationMinutes >= 0.000001 && m.durationMinutes >= Duration(frames) / 60.0 &&
      m.totalBlinks == SumInt(BlinkCounts(Primaries(frames))) &&
      m.totalYawns == SumInt(YawnCounts(Primaries(frames))) &&
      m.stabilityScore == StabilityScore(frames).0 &&
      0.0 <= m.earFatigue <= 100.0 && 0.0 <= m.blinkFatigue <= 100.0 &&
      0.0 <= m.yawnFatigue <= 100.0 && 0.0 <= m.lookingAwayFatigue <= 100.0 &&
      0.0 <= m.stabilityFatigue <= 100.0 &&
      r.0 == m.earFatigue * 0.25 + m.blinkFatigue * 0.20 + m.yawnFatigue * 0.30 +
             m.lookingAwayFatigue * 0.15 + m.stabilityFatigue * 0.10
    ensures Primaries(frames) != [] ==>
      var m, ps := r.1, Primaries(frames);
      m.FatigueParts? &&
      m.durationMinutes == MaxR(Duration(frames) / 60.0, 0.000001) &&
      m.averageEar == Mean(MeanEars(ps)) &&
      m.earFatigue == 100.0 - EarScore(m.averageEar) &&
      m.blinkRatePerMin == m.totalBlinks as real / m.durationMinutes &&
      m.blinkFatigue == Clamp((m.blinkRatePerMin - 10.0) / 30.0 * 100.0, 0.0, 100.0) &&
      m.yawnRatePerMin == m.totalYawns as real / m.durationMinutes &&
      m.yawnFatigue == Clamp(m.yawnRatePerMin / 2.0 * 100.0, 0.0, 100.0) &&
      m.lookingAwayRatio == CountAttention(ps, LookingAway) as real / |ps| as real &&
      m.lookingAwayFatigue == Clamp(m.lookingAwayRatio * 100.0, 0.0, 100.0) &&
      m.stabilityFatigue == 100.0 - m.stabilityScore
  {
    var ps := Primaries(frames);
    if ps == [] then (0.0, NoFatigueData)
    else
      var minutes := MaxR(Duration(frames) / 60.0, 0.000001);
      var avgEar := Mean(MeanEars(ps));
      var blinks := SumInt(BlinkCounts(ps));
      var yawns := SumInt(YawnCounts(ps));
      var blinkRate := blinks as real / minutes;
      var yawnRate := yawns as real / minutes;
      var awayRatio := CountAttention(ps, LookingAway) as real / |ps| as real;
      var stability := StabilityScore(frames).0;
      var earFatigue := 100.0 - EarScore(avgEar);
      var blinkFatigue := Clamp((blinkRate - 10.0) / (40.0 - 10.0) * 100.0, 0.0, 100.0);
      var yawnFatigue := Clamp(yawnRate / 2.0 * 100.0, 0.0, 100.0);
      var awayFatigue := Clamp(awayRatio * 100.0, 0.0, 100.0);
      var stabilityFatigue := 100.0 - stability;
      var score := earFatigue * 0.25 + blinkFatigue * 0.20 + yawnFatigue * 0.30 +
                   awayFatigue * 0.15 + stabilityFatigue * 0.10;
      (Clamp(score, 0.0, 100.0),
       FatigueParts(avgEar, earFatigue, blinkRate, blinkFatigue, yawnRate, yawnFatigue, awayRatio,
                    awayFatigue, stability, stabilityFatigue, minutes, blinks, yawns))
  }

  // ---------------------------------------------------------------
  // Session aggregates
  // ---------------------------------------------------------------

  /** Processing rates of the frames that report a positive one. */
  function PositiveFps(frames: seq<FrameData>): (r: seq<real>)
    ensures |r| <= |frames|
    ensures forall i :: 0 <= i < |r| ==> r[i] > 0.0
  {
    if frames == [] then []
    else
      var rest := PositiveFps(frames[..|frames| - 1]);
      var f := frames[|frames| - 1].procFps;
      if f > 0.0 then rest + [f] else rest
  }

  /** `calculate_session_metrics`. The blink total adds up each face
      frame's cumulative blink counter, as the source does. */
  function SessionMetricsOf(frames: seq<FrameData>): (m: SessionMetrics)
    ensures frames == [] ==> m == EmptySession
    ensures frames != [] ==>
      m.totalFrames == |frames| && m.framesWithFace == |Primaries(frames)| &&
      m.totalBlinks == SumInt(BlinkCounts(Primaries(frames)))
    ensures 0 <= m.framesWithFace <= m.totalFrames
    ensures m.totalAttentiveFrames + m.totalLookingAwayFrames + m.totalUnknownFrames == m.framesWithFace
    ensures m.totalUnknownFrames >= 0
    ensures m.sessionDuration == Duration(frames)
    ensures Primaries(frames) != [] ==>
      m.averageEar == Sum(EarSums(Primaries(frames))) / (2.0 * |Primaries(frames)| as real)
    ensures frames != [] ==>
      m.totalAttentiveFrames == CountAttention(Primaries(frames), Attentive) &&
      m.totalLookingAwayFrames == CountAttention(Primaries(frames), LookingAway)
    ensures frames != [] ==>
      m.averageYaw == (if Primaries(frames) == [] then 0.0 else Mean(Yaws(Primaries(frames)))) &&
      m.averagePitch == (if Primaries(frames) == [] then 0.0 else Mean(Pitches(Primaries(frames)))) &&
      m.averageFps == (if PositiveFps(frames) == [] then 0.0 else Mean(PositiveFps(frames)))
  {
    if frames == [] then EmptySession
    else
      var ps := Primaries(frames);
      var att := CountAttention(ps, Attentive);
      var away := CountAttention(ps, LookingAway);
      AttentionCountsDisjoint(ps);
      var avgEar := if ps == [] then 0.0 else Sum(EarSums(ps)) / (2.0 * |ps| as real);
      var avgYaw := if ps == [] then 0.0 else Mean(Yaws(ps));
      var avgPitch := if ps == [] then 0.0 else Mean(Pitches(ps));
      var fps := PositiveFps(frames);
      var avgFps := if fps == [] then 0.0 else Mean(fps);
      SessionMetrics(|frames|, |ps|, att, away, |ps| - att - away, SumInt(BlinkCounts(ps)),
                     avgEar, avgYaw, avgPitch, avgFps, Duration(frames))
  }

  /** The session's Σ(l + r)/(2n) is the same average EAR that the
      engagement score computes as the mean of per-frame (l + r)/2. */
  lemma SessionEarMatchesEngagement(frames: seq<FrameData>)
    requires Primaries(frames) != []
    ensures SessionMetricsOf(frames).averageEar == EngagementScore(frames).1.averageEar
  {
    EarAveragesAgree(Primaries(frames));
  }

  lemma EarAveragesAgree(ps: seq<FaceMetrics>)
    requires ps != []
    ensures Mean(MeanEars(ps)) == Sum(EarSums(ps)) / (2.0 * |ps| as real)
  {
    var sums, halves := EarSums(ps), MeanEars(ps);
    assert forall i :: 0 <= i < |sums| ==> halves[i] == sums[i] * 0.5;
    SumScale(sums, halves, 0.5);
    HalfOverN(Sum(sums), |ps| as real);
  }

  lemma HalfOverN(x: real, n: real)
    requires n > 0.0
    ensures x * 0.5 / n == x / (2.0 * n)
  {
  }

  // ---------------------------------------------------------------
  // Insight and recommendation lines
  // ---------------------------------------------------------------

  const FocusInsightLines: seq<string> := [
    "ðŸŽ¯ Excellent focus - sustained attention throughout session",
    "ðŸ‘ï¸ Good focus - occasional distractions detected",
    "âš\U{A0}ï¸ Moderate focus - frequent attention lapses",
    "ðŸ”´ Low focus - consider taking a break"]

  const EngagementInsightLines: seq<string> := [
    "ðŸ‘€ Eyes engaged - excellent eye metrics",
    "ðŸ˜ Eyes partially engaged - normal blink rate",
    "ðŸ˜´ Eye engagement low - possible fatigue"]

  const StabilityInsightLines: seq<string> := [
    "ðŸ“ Head position very stable - minimal movement",
    "ðŸ”„ Head position relatively stable",
    "ðŸŽ\U{AD} Frequent head movements detected"]

  const DurationInsightPrefix := "â±ï¸ Session duration: "
  const NoFaceInsight := "No face detected during session"

  function FocusInsight(focus: real): (line: string)
    ensures line in FocusInsightLines
    ensures line == FocusInsightLines[0] <==> focus > 80.0
    ensures line == FocusInsightLines[1] <==> 60.0 < focus <= 80.0
    ensures line == FocusInsightLines[2] <==> 40.0 < focus <= 60.0
    ensures line == FocusInsightLines[3] <==> focus <= 40.0
  {
    assert |FocusInsightLines[0]| == 61 && |FocusInsightLines[1]| == 51;
    assert |FocusInsightLines[2]| == 48 && |FocusInsightLines[3]| == 40;
    if focus > 80.0 then FocusInsightLines[0]
    else if focus > 60.0 then FocusInsightLines[1]
    else if focus > 40.0 then FocusInsightLines[2]
    else FocusInsightLines[3]
  }

  function EngagementInsight(engagement: real): (line: string)
    ensures line in EngagementInsightLines
    ensures line == EngagementInsightLines[0] <==> engagement > 80.0
    ensures line == EngagementInsightLines[2] <==> engagement <= 60.0
  {
    if engagement > 80.0 then EngagementInsightLines[0]
    else if engagement > 60.0 then EngagementInsightLines[1]
    else EngagementInsightLines[2]
  }

  function StabilityInsight(stability: real): (line: string)
    ensures line in StabilityInsightLines
    ensures line == StabilityInsightLines[0] <==> stability > 80.0
    ensures line == StabilityInsightLines[2] <==> stability <= 60.0
  {
    if stability > 80.0 then StabilityInsightLines[0]
    else if stability > 60.0 then StabilityInsightLines[1]
    else StabilityInsightLines[2]
  }

  /** `_generate_insights`: one focus, one engagement and one stability
      line, then the duration in minutes when the session passed 5 min. */
  function Insights(focus: real, engagement: real, stability: real, session: SessionMetrics): (r: seq<string>)
    ensures session.totalFrames == 0 ==> r == [NoFaceInsight]
    ensures session.totalFrames != 0 ==>
      |r| == (if session.sessionDuration > 300.0 then 4 else 3) &&
      r[0] == FocusInsight(focus) && r[1] == EngagementInsight(engagement) && r[2] == StabilityInsight(stability)
    ensures session.totalFrames != 0 && session.sessionDuration > 300.0 ==>
      r[3] == DurationInsightPrefix + FixedPoint(session.sessionDuration / 60.0, 1) + " minutes"
  {
    if session.totalFrames == 0 then [NoFaceInsight]
    else
      [FocusInsight(focus), EngagementInsight(engagement), StabilityInsight(stability)]
      + (if session.sessionDuration > 300.0
         then [DurationInsightPrefix + FixedPoint(session.sessionDuration / 60.0, 1) + " minutes"]
         else [])
  }

  const KeepUpRecommendation := "Keep up the great work! Maintain current habits."

  const LowFocusRecommendations: seq<string> := [
    "Take a 5-minute break to reset focus",
    "Try the Pomodoro technique: 25 min focus + 5 min break"]
  const LowEngagementRecommendations: seq<string> := [
    "Reduce eye strain: Look away from screen for 20 seconds",
    "Stay hydrated - dehydration affects eye health"]
  const LowStabilityRecommendations: seq<string> := [
    "Adjust monitor/lighting to reduce head movement",
    "Improve desk ergonomics"]
  const LongSessionRecommendations: seq<string> := [
    "Consider a longer break - you've been working for a while"]

  function When(c: bool, lines: seq<string>): (r: seq<string>)
    ensures r == if c then lines else []
  {
    if c then lines else []
  }

  /** `_generate_recommendations`: two lines each for low focus, low
      engagement and low stability, one for a long unfocused session, or
      the single encouragement line when no rule fires. */
  function Recommendations(focus: real, engagement: real, stability: real, session: SessionMetrics): (r: seq<string>)
    ensures var fired :=
        (if focus < 50.0 then 2 else 0) + (if engagement < 60.0 then 2 else 0) +
        (if stability < 50.0 then 2 else 0) +
        (if session.sessionDuration > 3600.0 && focus < 70.0 then 1 else 0);
      (fired == 0 <==> r == [KeepUpRecommendation]) &&
      (fired > 0 ==> |r| == fired && KeepUpRecommendation !in r)
    ensures LowFocusRecommendations[0] in r <==> focus < 50.0
    ensures LowEngagementRecommendations[0] in r <==> engagement < 60.0
    ensures LowStabilityRecommendations[0] in r <==> stability < 50.0
    ensures LongSessionRecommendations[0] in r <==> session.sessionDuration > 3600.0 && focus < 70.0
  {
    assert |LowFocusRecommendations[0]| == 36 && |LowFocusRecommendations[1]| == 54;
    assert |LowEngagementRecommendations[0]| == 55 && |LowEngagementRecommendations[1]| == 46;
    assert |LowStabilityRecommendations[0]| == 47 && |LowStabilityRecommendations[1]| == 23;
    assert |LongSessionRecommendations[0]| == 57 && |KeepUpRecommendation| == 48;
    var recs :=
      When(focus < 50.0, LowFocusRecommendations)
      + When(engagement < 60.0, LowEngagementRecommendations)
      + When(stability < 50.0, LowStabilityRecommendations)
      + When(session.sessionDuration > 3600.0 && focus < 70.0, LongSessionRecommendations);
    assert KeepUpRecommendation !in recs by {
      var all := LowFocusRecommendations + LowEngagementRecommendations +
                 LowStabilityRecommendations + LongSessionRecommendations;
      assert forall x :: x in recs ==> x in all;
      assert KeepUpRecommendation !in all;
    }
    if recs == [] then [KeepUpRecommendation] else recs
  }

  // ---------------------------------------------------------------
  // Overall score
  // ---------------------------------------------------------------

  const EmptyScore := ProductivityScore(0.0, 0.0, 0.0, 0.0, NoComponents,
    ["No frames to analyze"], ["Ensure video is being captured correctly"])

  /** The weighted sum of the three components, clamped to 0..100. */
  function Blend(engine: Engine, focus: real, engagement: real, stability: real): (r: real)
    ensures 0.0 <= r <= 100.0
  {
    Clamp(focus * engine.focusWeight + engagement * engine.engagementWeight +
          stability * engine.stabilityWeight, 0.0, 100.0)
  }

  /** With non-negative weights summing to one the blend is a convex
      combination: any bounds that hold for all three components (within
      0..100) hold for the overall score, and the clamp never binds. */
  lemma BlendBetweenComponents(engine: Engine, f: real, e: real, s: real, lo: real, hi: real)
    requires 0.0 <= lo && hi <= 100.0
    requires lo <= f <= hi && lo <= e <= hi && lo <= s <= hi
    requires engine.focusWeight >= 0.0 && engine.engagementWeight >= 0.0 && engine.stabilityWeight >= 0.0
    requires engine.focusWeight + engine.engagementWeight + engine.stabilityWeight == 1.0
    ensures lo <= Blend(engine, f, e, s) <= hi
    ensures Blend(engine, f, e, s) ==
      f * engine.focusWeight + e * engine.engagementWeight + s * engine.stabilityWeight
  {
    var wf, we, ws := engine.focusWeight, engine.engagementWeight, engine.stabilityWeight;
    Convex(lo, hi, f, e, s, wf, we, ws);
    ClampInside(f * wf + e * we + s * ws, lo, hi);
  }

  lemma ClampInside(v: real, lo: real, hi: real)
    requires 0.0 <= lo <= v <= hi <= 100.0
    ensures Clamp(v, 0.0, 100.0) == v
  {
  }

  lemma Convex(lo: real, hi: real, f: real, e: real, s: real, wf: real, we: real, ws: real)
    requires lo <= f <= hi && lo <= e <= hi && lo <= s <= hi
    requires wf >= 0.0 && we >= 0.0 && ws >= 0.0 && wf + we + ws == 1.0
    ensures lo <= f * wf + e * we + s * ws <= hi
  {
    var v := f * wf + e * we + s * ws;
    MulNonNeg(f - lo, wf); MulNonNeg(e - lo, we); MulNonNeg(s - lo, ws);
    assert (f - lo) * wf + (e - lo) * we + (s - lo) * ws == v - lo * (wf + we + ws);
    MulNonNeg(hi - f, wf); MulNonNeg(hi - e, we); MulNonNeg(hi - s, ws);
    assert (hi - f) * wf + (hi - e) * we + (hi - s) * ws == hi * (wf + we + ws) - v;
  }

  /** `calculate_overall_score`: the weighted focus / engagement /
      stability sum clamped to 0..100. Fatigue is reported among the
      components but does not enter the overall score. */
  function OverallScore(engine: Engine, frames: seq<FrameData>): (r: ProductivityScore)
    ensures frames == [] ==> r == EmptyScore
    ensures 0.0 <= r.overallScore <= 100.0
    ensures frames != [] ==>
      var session := SessionMetricsOf(frames);
      r.focusScore == FocusScore(frames).0 &&
      r.engagementScore == EngagementScore(frames).0 &&
      r.stabilityScore == StabilityScore(frames).0 &&
      r.overallScore == Blend(engine, r.focusScore, r.engagementScore, r.stabilityScore) &&
      r.components.Components? && r.components.fatigue == FatigueScore(frames).0 &&
      r.insights == Insights(r.focusScore, r.engagementScore, r.stabilityScore, session) &&
      r.recommendations == Recommendations(r.focusScore, r.engagementScore, r.stabilityScore, session)
  {
    if frames == [] then EmptyScore
    else
      var (focus, fm) := FocusScore(frames);
      var (engagement, em) := EngagementScore(frames);
      var (stability, sm) := StabilityScore(frames);
      var (fatigue, ftm) := FatigueScore(frames);
      var session := SessionMetricsOf(frames);
      ProductivityScore(
        Blend(engine, focus, engagement, stability), focus, engagement, stability,
        Components(focus, engagement, stability, fatigue, fm, em, sm, ftm),
        Insights(focus, engagement, stability, session),
        Recommendations(focus, engagement, stability, session))
  }
}
