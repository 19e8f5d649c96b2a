/** Pattern analysis over the collected frames: focus ratios per
    30-frame window with their consistency and trend, an eye/pose fatigue
    estimate, and the advice derived from both (feedback lines and the
    break recommendation). */
module HumanCentered {
  import opened Util
  import opened Format
  import opened ScoringData
  import opened ScoringEngine

  // ---------------------------------------------------------------
  // Focus windows
  // ---------------------------------------------------------------

  const WindowSize := 30

  /** The attentive share among one window's face frames, or None when
      no frame of the window has a primary face. */
  function WindowRatio(w: seq<FrameData>): (r: Option<real>)
    ensures r.None? <==> Primaries(w) == []
    ensures r.Some? ==>
      var ps := Primaries(w);
      0.0 <= r.value <= 1.0 && r.value == CountAttention(ps, Attentive) as real / |ps| as real
  {
    var ps := Primaries(w);
    if ps == [] then None
    else
      var n := |ps| as real;
      RatioBounds(CountAttention(ps, Attentive) as real, n);
      Some(CountAttention(ps, Attentive) as real / n)
  }

  /** Number of consecutive windows (the last may be short). */
  function WindowCount(n: nat): nat
  {
    (n + WindowSize - 1) / WindowSize
  }

  /** Two sequences of values in 0..1 joined are still in 0..1. */
  lemma UnitConcat(a: seq<real>, b: seq<real>)
    requires forall i :: 0 <= i < |a| ==> 0.0 <= a[i] <= 1.0
    requires forall i :: 0 <= i < |b| ==> 0.0 <= b[i] <= 1.0
    ensures forall i :: 0 <= i < |a + b| ==> 0.0 <= (a + b)[i] <= 1.0
  {
  }

  /** The ratios of the consecutive 30-frame windows that hold at least
      one face, in window order. */
  function FocusWindows(frames: seq<FrameData>): (ws: seq<real>)
    ensures forall i :: 0 <= i < |ws| ==> 0.0 <= ws[i] <= 1.0
    ensures ws == [] <==> Primaries(frames) == []
    ensures |ws| <= WindowCount(|frames|)
    decreases |frames|
  {
    if frames == [] then []
    else
      var k := if |frames| < WindowSize then |frames| else WindowSize;
      var head, tail := frames[..k], frames[k..];
      var w := WindowRatio(head);
      var rest := FocusWindows(tail);
      assert Primaries(frames) == [] <==> Primaries(head) == [] && Primaries(tail) == [] by {
        assert frames == head + tail;
        PrimariesConcat(head, tail);
      }
      assert 1 + WindowCount(|tail|) == WindowCount(|frames|) by {
        WindowCountStep(|frames|);
      }
      var first := if w.Some? then [w.value] else [];
      UnitConcat(first, rest);
      first + rest
  }

  /** When every frame has an attentive primary face, every window is
      fully focused and no window is skipped. */
  lemma {:induction false} AllAttentiveWindows(frames: seq<FrameData>)
    requires forall i :: 0 <= i < |frames| ==>
      frames[i].primary.Some? && frames[i].primary.value.attention == Attentive
    ensures var ws := FocusWindows(frames);
      |ws| == WindowCount(|frames|) && forall i :: 0 <= i < |ws| ==> ws[i] == 1.0
    decreases |frames|
  {
    if frames != [] {
      var k := if |frames| < WindowSize then |frames| else WindowSize;
      var head, tail := frames[..k], frames[k..];
      AllAttentiveWindows(tail);
      AllAttentiveCount(head);
      FullWindow(head);
      WindowCountStep(|frames|);
      assert FocusWindows(frames) == [1.0] + FocusWindows(tail);
    }
  }

  lemma FullWindow(w: seq<FrameData>)
    requires |Primaries(w)| > 0 && CountAttention(Primaries(w), Attentive) == |Primaries(w)|
    ensures WindowRatio(w) == Some(1.0)
  {
    var r := WindowRatio(w);
    var n := |Primaries(w)| as real;
    assert r.Some? && r.value == n / n;
    SelfRatio(n);
  }

  lemma SelfRatio(n: real)
    requires n > 0.0
    ensures n / n == 1.0
  {
  }

  lemma WindowCountStep(n: nat)
    requires n > 0
    ensures WindowCount(n) == 1 + WindowCount(n - (if n < WindowSize then n else WindowSize))
  {
  }

  lemma {:induction false} AllAttentiveCount(w: seq<FrameData>)
    requires forall i :: 0 <= i < |w| ==>
      w[i].primary.Some? && w[i].primary.value.attention == Attentive
    ensures |Primaries(w)| == |w| && CountAttention(Primaries(w), Attentive) == |w|
  {
    if w != [] {
      var front := w[..|w| - 1];
      AllAttentiveCount(front);
      PrimariesAppend(front, w[|w| - 1]);
      assert w == front + [w[|w| - 1]];
      var ps := Primaries(w);
      assert ps[..|ps| - 1] == Primaries(front);
    }
  }

  // ---------------------------------------------------------------
  // Focus patterns
  // ---------------------------------------------------------------

  datatype FocusPatterns =
    | InsufficientData
    | Patterns(averageFocus: real, consistency: real, trend: real,
               fatigueDetected: bool, windows: seq<real>)

  /** What the model assumes of the square root it is given: it is
      never negative and the root of 0 is 0. */
  ghost predicate IsSquareRoot(root: real -> real)
  {
    root(0.0) == 0.0 && forall x :: 0.0 <= x ==> 0.0 <= root(x)
  }

  /** Mean of the later half of the windows minus the mean of the earlier
      half, split at len // 2; an empty half averages 0. */
  function HalfTrend(ws: seq<real>): (t: real)
    requires forall i :: 0 <= i < |ws| ==> 0.0 <= ws[i] <= 1.0
    ensures -1.0 <= t <= 1.0
  {
    MeanOrZero(ws[|ws| / 2..]) - MeanOrZero(ws[..|ws| / 2])
  }

  /** The mean of a list of ratios, 0 for an empty list. */
  function MeanOrZero(xs: seq<real>): (m: real)
    requires forall i :: 0 <= i < |xs| ==> 0.0 <= xs[i] <= 1.0
    ensures 0.0 <= m <= 1.0
    ensures xs != [] ==> m == Mean(xs)
  {
    if xs == [] then 0.0
    else
      MeanBounds(xs, 0.0, 1.0);
      Mean(xs)
  }

  /** A flat series of windows has no trend. */
  lemma FlatWindowsHaveNoTrend(ws: seq<real>, c: real)
    requires |ws| >= 2 && 0.0 <= c <= 1.0
    requires forall i :: 0 <= i < |ws| ==> ws[i] == c
    ensures HalfTrend(ws) == 0.0
  {
    ConstantVariance(ws[..|ws| / 2], c);
    ConstantVariance(ws[|ws| / 2..], c);
  }

  /** `analyze_focus_patterns` */
  function AnalyzeFocusPatterns(frames: seq<FrameData>, root: real -> real): (r: FocusPatterns)
    requires IsSquareRoot(root)
    ensures |frames| < 10 ==> r == InsufficientData
    ensures |frames| >= 10 ==> (r.InsufficientData? <==> Primaries(frames) == [])
    ensures r.Patterns? ==>
      r.windows == FocusWindows(frames) && |r.windows| > 0 &&
      r.averageFocus == Mean(r.windows) && 0.0 <= r.averageFocus <= 1.0 &&
      0.0 <= r.consistency <= 1.0 &&
      r.trend == HalfTrend(r.windows) &&
      (r.fatigueDetected <==> r.trend < -0.1)
    ensures r.Patterns? ==> r.consistency == 1.0 - MinR(root(PopVariance(r.windows)), 1.0)
  {
    if |frames| < 10 then InsufficientData
    else
      var ws := FocusWindows(frames);
      if ws == [] then InsufficientData
      else
        MeanBounds(ws, 0.0, 1.0);
        var std := root(PopVariance(ws));
        var trend := HalfTrend(ws);
        Patterns(Mean(ws), 1.0 - MinR(std, 1.0), trend, trend < -0.1, ws)
  }

  /** Equal window ratios mean perfect consistency, no trend and no
      fatigue flag. */
  lemma SteadyFocusPattern(frames: seq<FrameData>, root: real -> real, c: real)
    requires IsSquareRoot(root)
    requires |frames| >= 10
    requires var ws := FocusWindows(frames); |ws| >= 2 && forall i :: 0 <= i < |ws| ==> ws[i] == c
    ensures var r := AnalyzeFocusPatterns(frames, root);
      r.Patterns? && r.consistency == 1.0 && r.trend == 0.0 && !r.fatigueDetected && r.averageFocus == c
  {
    var ws := FocusWindows(frames);
    ConstantVariance(ws, c);
    FlatWindowsHaveNoTrend(ws, c);
    var r := AnalyzeFocusPatterns(frames, root);
    assert r.consistency == 1.0 - MinR(root(PopVariance(ws)), 1.0);
  }


  // ---------------------------------------------------------------
  // Fatigue
  // ---------------------------------------------------------------

  datatype FatigueAnalysis =
    | NoData
    | NoFace
    | Fatigue(level: real, description: string, earFatigue: real, lookingAwayRatio: real,
              pitchFatigue: real, averageEar: real, averagePitch: real)

  /** `fatigue_analysis.get("fatigue_level", 0)` */
  function FatigueLevel(f: FatigueAnalysis): real
  {
    if f.Fatigue? then f.level else 0.0
  }

  /** The weighted fatigue indicators before clamping. */
  function FatigueBlend(earFatigue: real, lookingAway: real, pitchFatigue: real): real
  {
    earFatigue * 0.4 + lookingAway * 0.4 + pitchFatigue * 0.2
  }

  /** `detect_fatigue`: no analysis without frames or without any face;
      otherwise the indicators of the face frames. */
  function DetectFatigue(frames: seq<FrameData>): (r: FatigueAnalysis)
    ensures frames == [] ==> r == NoData
    ensures frames != [] && Primaries(frames) == [] ==> r == NoFace
    ensures Primaries(frames) != [] ==> r == FatigueOfFaces(Primaries(frames))
    ensures 0.0 <= FatigueLevel(r) <= 1.0
  {
    if frames == [] then NoData
    else
      var ps := Primaries(frames);
      if ps == [] then NoFace else FatigueOfFaces(ps)
  }

  /** The fatigue indicators of a non-empty list of faces: low EAR,
      looking away and a lowered head, blended 0.4 / 0.4 / 0.2 and
      clamped to 0..1. */
  function FatigueOfFaces(ps: seq<FaceMetrics>): (r: FatigueAnalysis)
    requires ps != []
    ensures r.Fatigue?
    ensures r.averageEar == Sum(EarSums(ps)) / (2.0 * |ps| as real)
    ensures r.averagePitch == Mean(Pitches(ps))
    ensures r.earFatigue == MaxR(0.0, 1.0 - r.averageEar / 0.2) && r.earFatigue >= 0.0
    ensures r.lookingAwayRatio == CountAttention(ps, LookingAway) as real / |ps| as real
    ensures 0.0 <= r.lookingAwayRatio <= 1.0
    ensures r.pitchFatigue == MaxR(0.0, -r.averagePitch / 30.0) && r.pitchFatigue >= 0.0
    ensures r.level == Clamp(FatigueBlend(r.earFatigue, r.lookingAwayRatio, r.pitchFatigue), 0.0, 1.0)
    ensures 0.0 <= r.level <= 1.0
    ensures r.description == FatigueDescription(r.level)
  {
    var n := |ps| as real;
    var avgEar := Sum(EarSums(ps)) / (2.0 * n);
    var away := CountAttention(ps, LookingAway) as real;
    RatioBounds(away, n);
    var ratio := away / n;
    var avgPitch := Mean(Pitches(ps));
    var earF := MaxR(0.0, 1.0 - avgEar / 0.2);
    var pitchF := MaxR(0.0, -avgPitch / 30.0);
    var level := Clamp(FatigueBlend(earF, ratio, pitchF), 0.0, 1.0);
    Fatigue(level, FatigueDescription(level), earF, ratio, pitchF, avgEar, avgPitch)
  }

  /** Open eyes (EAR at least 0.2 on each side), a level or raised head
      and no looking away give fatigue level 0. */
  lemma AlertFacesShowNoFatigue(ps: seq<FaceMetrics>)
    requires ps != []
    requires forall i :: 0 <= i < |ps| ==>
      ps[i].leftEar >= 0.2 && ps[i].rightEar >= 0.2 && ps[i].pitch >= 0.0 &&
      ps[i].attention != LookingAway
    ensures FatigueOfFaces(ps).level == 0.0
  {
    var n := |ps| as real;
    var r := FatigueOfFaces(ps);
    assert r.earFatigue == 0.0 by {
      SumAtLeast(EarSums(ps), 0.4);
      OpenEyesNoEarFatigue(Sum(EarSums(ps)), n);
    }
    assert r.pitchFatigue == 0.0 by {
      MeanNonNeg(Pitches(ps));
    }
    assert r.lookingAwayRatio == 0.0 by {
      NoLookingAway(ps);
    }
    assert FatigueBlend(0.0, 0.0, 0.0) == 0.0;
  }

  lemma OpenEyesNoEarFatigue(total: real, n: real)
    requires n > 0.0 && total >= n * 0.4
    ensures MaxR(0.0, 1.0 - total / (2.0 * n) / 0.2) == 0.0
  {
    DivMono(n * 0.4, total, 2.0 * n);
  }

  lemma {:induction false} NoLookingAway(ps: seq<FaceMetrics>)
    requires forall i :: 0 <= i < |ps| ==> ps[i].attention != LookingAway
    ensures CountAttention(ps, LookingAway) == 0
  {
    if ps != [] {
      NoLookingAway(ps[..|ps| - 1]);
    }
  }

  // ---------------------------------------------------------------
  // Descriptions and advice
  // ---------------------------------------------------------------

  const FatigueBands: seq<string> := [
    "Fresh and alert", "Slightly fatigued", "Moderately fatigued", "Quite fatigued", "Very fatigued"]

  /** `_get_fatigue_description`: five bands split at 0.2, 0.4, 0.6 and
      0.8, each boundary belonging to the upper band. */
  function FatigueDescription(level: real): (d: string)
    ensures d in FatigueBands
    ensures d == FatigueBands[0] <==> level < 0.2
    ensures d == FatigueBands[1] <==> 0.2 <= level < 0.4
    ensures d == FatigueBands[2] <==> 0.4 <= level < 0.6
    ensures d == FatigueBands[3] <==> 0.6 <= level < 0.8
    ensures d == FatigueBands[4] <==> 0.8 <= level
  {
    if level < 0.2 then FatigueBands[0]
    else if level < 0.4 then FatigueBands[1]
    else if level < 0.6 then FatigueBands[2]
    else if level < 0.8 then FatigueBands[3]
    else FatigueBands[4]
  }

  /** The band index of a description. */
  function BandOf(level: real): (k: nat)
    ensures k < |FatigueBands| && FatigueDescription(level) == FatigueBands[k]
  {
    if level < 0.2 then 0 else if level < 0.4 then 1 else if level < 0.6 then 2
    else if level < 0.8 then 3 else 4
  }

  /** More fatigue never gives a fresher description. */
  lemma FatigueDescriptionMonotone(a: real, b: real)
    requires a <= b
    ensures BandOf(a) <= BandOf(b)
  {
  }

  const SubstantialBreakFeedback := "ğŸ›‘ You appear fatigued. Consider a substantial break (15-20 min)."
  const MildFatigueFeedback := "ğŸ˜‘ Mild fatigue detected. Stand up, stretch, and look away from screen."
  const ConsistentFeedback := "ğŸ¯ Excellent focus consistency! You're in the zone."
  const FluctuatingFeedback := "ğŸ”„ Your focus is fluctuating. Try reducing distractions."
  const ImprovingFeedback := "ğŸ“ˆ Your focus is improving! Keep the momentum."
  const DecliningFeedback := "ğŸ“‰ Your focus is declining. Time to reset?"
  const OutstandingFeedback := "ğŸŒŸ Outstanding performance! Maintain this level."
  const LowProductivityFeedback := "âš\U{A0}ï¸ Productivity is low. Take a break and come back refreshed."
  const SteadyFeedback := "Your productivity is steady. Good job maintaining focus!"

  /** The fatigue group: a substantial break above 0.7, mild fatigue
      above 0.4. */
  function FatigueLines(level: real): (r: seq<string>)
    ensures r == [SubstantialBreakFeedback] <==> level > 0.7
    ensures r == [MildFatigueFeedback] <==> 0.4 < level <= 0.7
    ensures r == [] <==> level <= 0.4
  {
    if level > 0.7 then [SubstantialBreakFeedback]
    else if level > 0.4 then [MildFatigueFeedback] else []
  }

  /** The consistency group: consistent above 0.9, fluctuating below 0.5. */
  function ConsistencyLines(patterns: FocusPatterns): (r: seq<string>)
    ensures r == [ConsistentFeedback] <==> patterns.Patterns? && patterns.consistency > 0.9
    ensures r == [FluctuatingFeedback] <==> patterns.Patterns? && patterns.consistency < 0.5
    ensures r == [] <==> patterns.InsufficientData? || 0.5 <= patterns.consistency <= 0.9
  {
    if patterns.Patterns? && patterns.consistency > 0.9 then [ConsistentFeedback]
    else if patterns.Patterns? && patterns.consistency < 0.5 then [FluctuatingFeedback] else []
  }

  /** The trend group: improving above 0.1, declining below -0.1. */
  function TrendLines(patterns: FocusPatterns): (r: seq<string>)
    ensures r == [ImprovingFeedback] <==> patterns.Patterns? && patterns.trend > 0.1
    ensures r == [DecliningFeedback] <==> patterns.Patterns? && patterns.trend < -0.1
    ensures r == [] <==> patterns.InsufficientData? || -0.1 <= patterns.trend <= 0.1
  {
    if patterns.Patterns? && patterns.trend > 0.1 then [ImprovingFeedback]
    else if patterns.Patterns? && patterns.trend < -0.1 then [DecliningFeedback] else []
  }

  /** The score group: outstanding above 85, low below 40. */
  function ScoreLines(score: real): (r: seq<string>)
    ensures r == [OutstandingFeedback] <==> score > 85.0
    ensures r == [LowProductivityFeedback] <==> score < 40.0
    ensures r == [] <==> 40.0 <= score <= 85.0
  {
    if score > 85.0 then [OutstandingFeedback]
    else if score < 40.0 then [LowProductivityFeedback] else []
  }

  /** `get_personalized_feedback`: the fatigue, consistency, trend and
      score groups in that order, at most one line each, or the single
      steady line when none fires. */
  function PersonalizedFeedback(patterns: FocusPatterns, fatigue: FatigueAnalysis, score: real): (r: seq<string>)
    ensures var all := FatigueLines(FatigueLevel(fatigue)) + ConsistencyLines(patterns) +
                       TrendLines(patterns) + ScoreLines(score);
      (all != [] ==> r == all) && (all == [] ==> r == [SteadyFeedback])
    ensures 1 <= |r| <= 4
    ensures SubstantialBreakFeedback in r <==> FatigueLevel(fatigue) > 0.7
    ensures MildFatigueFeedback in r <==> 0.4 < FatigueLevel(fatigue) <= 0.7
    ensures OutstandingFeedback in r <==> score > 85.0
    ensures LowProductivityFeedback in r <==> score < 40.0
  {
    var feedback := FatigueLines(FatigueLevel(fatigue)) + ConsistencyLines(patterns) +
                    TrendLines(patterns) + ScoreLines(score);
    if feedback == [] then [SteadyFeedback] else feedback
  }

  /** The consistency and trend lines appear exactly when their rules
      fire. */
  lemma FeedbackMentionsPatterns(patterns: FocusPatterns, fatigue: FatigueAnalysis, score: real)
    ensures var r := PersonalizedFeedback(patterns, fatigue, score);
      (ConsistentFeedback in r <==> patterns.Patterns? && patterns.consistency > 0.9) &&
      (FluctuatingFeedback in r <==> patterns.Patterns? && patterns.consistency < 0.5) &&
      (ImprovingFeedback in r <==> patterns.Patterns? && patterns.trend > 0.1) &&
      (DecliningFeedback in r <==> patterns.Patterns? && patterns.trend < -0.1)
  {
    var f, c, t, s := FatigueLines(FatigueLevel(fatigue)), ConsistencyLines(patterns),
                      TrendLines(patterns), ScoreLines(score);
    assert |SubstantialBreakFeedback| == 67 && |MildFatigueFeedback| == 73;
    assert |ConsistentFeedback| == 52 && |FluctuatingFeedback| == 58;
    assert |ImprovingFeedback| == 48 && |DecliningFeedback| == 44;
    assert |OutstandingFeedback| == 50 && |LowProductivityFeedback| == 64;
    assert |SteadyFeedback| == 56;
  }

  /** When a fatigue line fires it comes first, and the steady line
      appears only when nothing else does. */
  lemma FeedbackOrder(patterns: FocusPatterns, fatigue: FatigueAnalysis, score: real)
    ensures var r := PersonalizedFeedback(patterns, fatigue, score);
      (FatigueLevel(fatigue) > 0.4 ==> r[0] in FatigueLines(FatigueLevel(fatigue))) &&
      (SteadyFeedback in r <==> r == [SteadyFeedback])
  {
    var f := FatigueLines(FatigueLevel(fatigue));
    var all := f + ConsistencyLines(patterns) + TrendLines(patterns) + ScoreLines(score);
    if f != [] {
      assert all[0] == f[0];
    }
    assert |SubstantialBreakFeedback| == 67 && |MildFatigueFeedback| == 73;
    assert |ConsistentFeedback| == 52 && |FluctuatingFeedback| == 58;
    assert |ImprovingFeedback| == 48 && |DecliningFeedback| == 44;
    assert |OutstandingFeedback| == 50 && |LowProductivityFeedback| == 64;
    assert |SteadyFeedback| == 56;
    assert SteadyFeedback !in all;
  }

  // ---------------------------------------------------------------
  // Break timing
  // ---------------------------------------------------------------

  datatype BreakKind = Long | Medium | Pomodoro

  datatype BreakAdvice = BreakAdvice(
    recommendedBreak: real,
    kind: BreakKind,
    kindName: string,
    kindDescription: string,
    nextBreakInSeconds: real,
    rationale: string)

  /** The work span in seconds after which a break is due. */
  function WorkSpan(k: BreakKind): real
  {
    match k
    case Long => 900.0
    case Medium => 1200.0
    case Pomodoro => 1500.0
  }

  function BreakKindName(k: BreakKind): string
  {
    match k
    case Long => "long"
    case Medium => "medium"
    case Pomodoro => "pomodoro"
  }

  function BreakKindDescription(k: BreakKind): string
  {
    match k
    case Long => "15-20 minute break"
    case Medium => "10-15 minute break"
    case Pomodoro => "5-10 minute break"
  }

  /** The tier picked from the fatigue level. */
  function BreakKindFor(level: real): (k: BreakKind)
    ensures k == Long <==> level > 0.7
    ensures k == Medium <==> 0.4 < level <= 0.7
    ensures k == Pomodoro <==> level <= 0.4
  {
    if level > 0.7 then Long else if level > 0.4 then Medium else Pomodoro
  }

  const RationalePrefix := "Based on detected fatigue level: "

  /** `estimate_optimal_break_time` */
  function EstimateBreak(sessionDuration: real, patterns: FocusPatterns, fatigue: FatigueAnalysis): (r: BreakAdvice)
    ensures r.kind == BreakKindFor(FatigueLevel(fatigue))
    ensures r.recommendedBreak >= 0.0
    ensures sessionDuration >= 0.0 ==> r.recommendedBreak <= WorkSpan(r.kind)
    ensures r.recommendedBreak + sessionDuration >= WorkSpan(r.kind)
    ensures r.recommendedBreak == 0.0 || r.recommendedBreak + sessionDuration == WorkSpan(r.kind)
    ensures r.nextBreakInSeconds == r.recommendedBreak
    ensures r.kindName == BreakKindName(r.kind) && r.kindDescription == BreakKindDescription(r.kind)
    ensures r.rationale == RationalePrefix + Percent1(FatigueLevel(fatigue))
  {
    var level := FatigueLevel(fatigue);
    var kind := BreakKindFor(level);
    var recommended := MaxR(0.0, WorkSpan(kind) - sessionDuration);
    BreakAdvice(recommended, kind, BreakKindName(kind), BreakKindDescription(kind), recommended,
                RationalePrefix + Percent1(level))
  }

  /** More fatigue never lengthens the time until the break, and a
      longer session never does either. */
  lemma BreakSoonerWhenTired(d1: real, d2: real, p: FocusPatterns, f1: FatigueAnalysis, f2: FatigueAnalysis)
    requires d1 <= d2 && FatigueLevel(f1) <= FatigueLevel(f2)
    ensures EstimateBreak(d2, p, f2).recommendedBreak <= EstimateBreak(d1, p, f1).recommendedBreak
  {
    var k1, k2 := BreakKindFor(FatigueLevel(f1)), BreakKindFor(FatigueLevel(f2));
    assert WorkSpan(k2) <= WorkSpan(k1);
  }
}
