/** The score widget's own rules: the colour of a score and the insights
    and recommendations it derives from the most recent frames. */
module ScoreWidget {
  import opened Util
  import opened Format
  import opened ScoringData
  import opened ScoringEngine
  import opened HumanCentered
  import opened Reporting

  // ---------------------------------------------------------------
  // Score colour
  // ---------------------------------------------------------------

  /** Green, light green, amber, orange, red. */
  const ScoreColors: seq<string> := ["#4CAF50", "#8BC34A", "#FFC107", "#FF9800", "#F44336"]

  /** `get_score_color`: the reporter's five bands, as colours. */
  function ScoreColor(score: real): (c: string)
    ensures c == ScoreColors[ScoreBand(score)]
  {
    if score >= 90.0 then "#4CAF50"
    else if score >= 75.0 then "#8BC34A"
    else if score >= 60.0 then "#FFC107"
    else if score >= 45.0 then "#FF9800"
    else "#F44336"
  }

  /** Two scores get the same colour exactly when the reporter gives them
      the same description. */
  lemma ColorMatchesDescription(a: real, b: real)
    ensures ScoreColor(a) == ScoreColor(b) <==> ScoreDescription(a) == ScoreDescription(b)
  {
    var i, j := ScoreBand(a), ScoreBand(b);
    assert ScoreColors[i] == ScoreColors[j] <==> i == j;
    assert ScoreDescriptions[i] == ScoreDescriptions[j] <==> i == j;
  }

  // ---------------------------------------------------------------
  // The recent window
  // ---------------------------------------------------------------

  const RecentFrameWindow := 60

  /** `frames_history[-60:]`: the last 60 frames, or all of them when
      there are fewer. */
  function RecentWindow(history: seq<FrameData>): (r: seq<FrameData>)
    ensures |r| == if |history| < RecentFrameWindow then |history| else RecentFrameWindow
    ensures r == history[|history| - |r|..]
  {
    if |history| < RecentFrameWindow then history else history[|history| - RecentFrameWindow..]
  }

  // ---------------------------------------------------------------
  // Recent insights
  // ---------------------------------------------------------------

  /** `fatigue_analysis.get("looking_away_ratio", 0)` */
  function LookingAwayRatio(f: FatigueAnalysis): real
  {
    if f.Fatigue? then f.lookingAwayRatio else 0.0
  }

  const StrongFocusPrefix := "üü¢ Strong focus: "
  const ModerateFocusPrefix := "üü° Moderate focus: "
  const LowFocusPrefix := "üî¥ Low focus: "
  const VeryConsistentInsight := "üëç Very consistent focus"
  const FluctuatingInsight := "‚ö†Ô∏è Focus is fluctuating frequently"
  const SignsOfFatigueInsight := "üò¥ Signs of fatigue - consider a break"
  const EyeStrainInsight := "üîÑ Some eye strain detected"
  const LookingAwayPrefix := "üëÄ Looking away "
  const NoIssuesInsight := "‚úÖ No issues detected - good focus"

  /** Strong above 0.85, moderate above 0.6, low otherwise. */
  function FocusLevel(avg: real): (k: nat)
    ensures k < 3
    ensures k == 0 <==> avg > 0.85
    ensures k == 1 <==> 0.6 < avg <= 0.85
    ensures k == 2 <==> avg <= 0.6
  {
    if avg > 0.85 then 0 else if avg > 0.6 then 1 else 2
  }

  /** The one focus line: its level's prefix, the average as a whole
      percentage, and "% attentive". */
  function FocusLine(avg: real): (line: string)
    ensures line == [StrongFocusPrefix, ModerateFocusPrefix, LowFocusPrefix][FocusLevel(avg)]
      + FixedPoint(avg * 100.0, 0) + "% attentive"
  {
    var pct := FixedPoint(avg * 100.0, 0) + "% attentive";
    if avg > 0.85 then StrongFocusPrefix + pct
    else if avg > 0.6 then ModerateFocusPrefix + pct
    else LowFocusPrefix + pct
  }

  /** The lines from the focus pattern: none when the window was too
      short, else the focus line and at most one consistency line. */
  function PatternInsights(patterns: FocusPatterns): (r: seq<string>)
    ensures patterns.InsufficientData? <==> r == []
    ensures patterns.Patterns? ==> 1 <= |r| <= 2 && r[0] == FocusLine(patterns.averageFocus)
    ensures patterns.Patterns? ==>
      (|r| == 2 <==> patterns.consistency > 0.85 || patterns.consistency < 0.5)
    ensures patterns.Patterns? && patterns.consistency > 0.85 ==> r[1] == VeryConsistentInsight
    ensures patterns.Patterns? && patterns.consistency < 0.5 ==> r[1] == FluctuatingInsight
  {
    if patterns.InsufficientData? then []
    else
      [FocusLine(patterns.averageFocus)]
      + (if patterns.consistency > 0.85 then [VeryConsistentInsight]
         else if patterns.consistency < 0.5 then [FluctuatingInsight]
         else [])
  }

  function FatigueInsights(level: real): (r: seq<string>)
    ensures |r| <= 1 && (r != [] <==> level > 0.3)
    ensures level > 0.6 ==> r == [SignsOfFatigueInsight]
    ensures 0.3 < level <= 0.6 ==> r == [EyeStrainInsight]
  {
    if level > 0.6 then [SignsOfFatigueInsight]
    else if level > 0.3 then [EyeStrainInsight]
    else []
  }

  /** The looking-away line: the ratio as a whole percentage. */
  function LookingAwayLine(ratio: real): (line: string)
    ensures |line| > 7 && line[5] == 'L' && line[7] == 'o'
  {
    assert |LookingAwayPrefix| > 7 && LookingAwayPrefix[5] == 'L' && LookingAwayPrefix[7] == 'o';
    LookingAwayPrefix + FixedPoint(ratio * 100.0, 0) + "% of time"
  }

  function LookingAwayInsights(ratio: real): (r: seq<string>)
    ensures |r| <= 1 && (r != [] <==> ratio > 0.3)
    ensures ratio > 0.3 ==> r == [LookingAwayPrefix + FixedPoint(ratio * 100.0, 0) + "% of time"]
  {
    if ratio > 0.3 then [LookingAwayLine(ratio)] else []
  }

  /** `_generate_recent_insights` (its score argument is never read). */
  function RecentInsights(patterns: FocusPatterns, fatigue: FatigueAnalysis): (r: seq<string>)
    ensures 1 <= |r| <= 4
    ensures r == [NoIssuesInsight] <==>
      patterns.InsufficientData? && FatigueLevel(fatigue) <= 0.3 && LookingAwayRatio(fatigue) <= 0.3
    ensures r == [NoIssuesInsight] || r == PatternInsights(patterns)
      + FatigueInsights(FatigueLevel(fatigue)) + LookingAwayInsights(LookingAwayRatio(fatigue))
    ensures patterns.Patterns? ==> r[0] == FocusLine(patterns.averageFocus)
  {
    var found := PatternInsights(patterns) + FatigueInsights(FatigueLevel(fatigue))
      + LookingAwayInsights(LookingAwayRatio(fatigue));
    if found == [] then [NoIssuesInsight]
    else
      FirstFoundIsNotNoIssues(patterns, fatigue);
      found
  }

  /** Every line a rule can put first starts with a different character
      from the no-issues line, so that line is never mistaken for a
      finding. */
  lemma FirstFoundIsNotNoIssues(patterns: FocusPatterns, fatigue: FatigueAnalysis)
    ensures var found := PatternInsights(patterns) + FatigueInsights(FatigueLevel(fatigue))
      + LookingAwayInsights(LookingAwayRatio(fatigue));
      found != [] ==> found[0] != NoIssuesInsight
  {
    var p := PatternInsights(patterns);
    var f := FatigueInsights(FatigueLevel(fatigue));
    var l := LookingAwayInsights(LookingAwayRatio(fatigue));
    assert NoIssuesInsight[0] != '\U{F8FF}';
    if p != [] {
      var avg := patterns.averageFocus;
      assert p[0][0] == [StrongFocusPrefix, ModerateFocusPrefix, LowFocusPrefix][FocusLevel(avg)][0] == '\U{F8FF}';
      assert (p + f + l)[0] == p[0];
    } else if f != [] {
      assert f[0][0] == '\U{F8FF}';
      assert (p + f + l)[0] == f[0];
    } else if l != [] {
      assert l[0][0] == '\U{F8FF}';
      assert (p + f + l)[0] == l[0];
    }
  }

  /** Every focus line has its level's letter at position 5 and its
      level's second letter at position 7 ("Strong", "Moderate", "Low"). */
  lemma FocusLineLetters(avg: real)
    ensures var line := FocusLine(avg);
      |line| > 7 && line[5] in {'S', 'M', 'L'} && line[7] in {'r', 'd', 'w'}
  {
    var pre := [StrongFocusPrefix, ModerateFocusPrefix, LowFocusPrefix][FocusLevel(avg)];
    assert |StrongFocusPrefix| > 7 && StrongFocusPrefix[5] == 'S' && StrongFocusPrefix[7] == 'r';
    assert |ModerateFocusPrefix| > 7 && ModerateFocusPrefix[5] == 'M' && ModerateFocusPrefix[7] == 'd';
    assert |LowFocusPrefix| > 7 && LowFocusPrefix[5] == 'L' && LowFocusPrefix[7] == 'w';
    assert FocusLine(avg)[5] == pre[5] && FocusLine(avg)[7] == pre[7];
  }

  /** The consistency lines appear exactly when the pattern's consistency
      crosses their thresholds, and the looking-away line closes the list
      exactly when the ratio is above 0.3. */
  lemma RecentInsightsLines(patterns: FocusPatterns, fatigue: FatigueAnalysis)
    ensures var r := RecentInsights(patterns, fatigue);
      (VeryConsistentInsight in r <==> patterns.Patterns? && patterns.consistency > 0.85) &&
      (FluctuatingInsight in r <==> patterns.Patterns? && patterns.consistency < 0.5)
    ensures var r := RecentInsights(patterns, fatigue);
      var ratio := LookingAwayRatio(fatigue);
      ratio > 0.3 <==> r[|r| - 1] == LookingAwayLine(ratio)
  {
    var r := RecentInsights(patterns, fatigue);
    var p := PatternInsights(patterns);
    var f := FatigueInsights(FatigueLevel(fatigue));
    var l := LookingAwayInsights(LookingAwayRatio(fatigue));
    var ratio := LookingAwayRatio(fatigue);
    assert VeryConsistentInsight[5] == 'V' && VeryConsistentInsight[7] == 'r';
    assert FluctuatingInsight[7] == 'F';
    assert SignsOfFatigueInsight[7] == 'g' && EyeStrainInsight[7] == 'm';
    assert NoIssuesInsight[7] == 'i';
    if patterns.Patterns? {
      FocusLineLetters(patterns.averageFocus);
    }
    assert VeryConsistentInsight !in f && VeryConsistentInsight !in l;
    assert FluctuatingInsight !in f && FluctuatingInsight !in l;
    if r == [NoIssuesInsight] {
    } else {
      assert r == p + f + l;
      if ratio > 0.3 {
        assert r[|r| - 1] == l[0];
      } else {
        assert r[|r| - 1] in p + f;
      }
    }
  }

  /** A fatigue reading above 0.3 is reported right after the pattern
      lines: the fatigue line above 0.6, the eye-strain line up to it. */
  lemma RecentInsightsReportFatigue(patterns: FocusPatterns, fatigue: FatigueAnalysis)
    requires FatigueLevel(fatigue) > 0.3
    ensures var r := RecentInsights(patterns, fatigue);
      var k := |PatternInsights(patterns)|;
      k < |r| &&
      (FatigueLevel(fatigue) > 0.6 ==> r[k] == SignsOfFatigueInsight) &&
      (FatigueLevel(fatigue) <= 0.6 ==> r[k] == EyeStrainInsight)
  {
    var p := PatternInsights(patterns);
    var f := FatigueInsights(FatigueLevel(fatigue));
    var l := LookingAwayInsights(LookingAwayRatio(fatigue));
    assert (p + f + l)[|p|] == f[0];
  }

  // ---------------------------------------------------------------
  // Recent recommendations
  // ---------------------------------------------------------------

  const HeavyFatigueRecommendations: seq<string> := [
    "Take a 15-20 minute break", "Hydrate and stretch your neck", "Close your eyes for 20-30 seconds"]
  const EyeStrainRecommendations: seq<string> := [
    "Stand and stretch briefly", "Look away from screen for 10 seconds"]
  const LowFocusRecommendations: seq<string> := [
    "Minimize notifications and distractions", "Use a focus timer (Pomodoro technique)"]
  const InconsistentRecommendation := "Your focus is inconsistent - check your environment"
  const LookingAwayRecommendations: seq<string> := [
    "Adjust your screen position and lighting", "Make sure you're sitting comfortably"]
  const DefaultRecentRecommendations: seq<string> := [
    "Continue maintaining your focus", "Stay hydrated and take occasional breaks"]

  function FatigueRecommendations(level: real): (r: seq<string>)
    ensures level > 0.6 ==> r == HeavyFatigueRecommendations
    ensures 0.3 < level <= 0.6 ==> r == EyeStrainRecommendations
    ensures level <= 0.3 ==> r == []
  {
    if level > 0.6 then HeavyFatigueRecommendations
    else if level > 0.3 then EyeStrainRecommendations
    else []
  }

  function PatternRecommendations(patterns: FocusPatterns): (r: seq<string>)
    ensures patterns.InsufficientData? ==> r == []
    ensures patterns.Patterns? ==>
      |r| == (if patterns.averageFocus < 0.5 then 2 else 0) + (if patterns.consistency < 0.5 then 1 else 0)
    ensures patterns.Patterns? ==>
      (LowFocusRecommendations[0] in r <==> patterns.averageFocus < 0.5) &&
      (InconsistentRecommendation in r <==> patterns.consistency < 0.5)
  {
    assert LowFocusRecommendations[0][0] == 'M' && LowFocusRecommendations[1][0] == 'U';
    assert |InconsistentRecommendation| == 51 && |LowFocusRecommendations[0]| == 39;
    if patterns.InsufficientData? then []
    else
      (if patterns.averageFocus < 0.5 then LowFocusRecommendations else [])
      + (if patterns.consistency < 0.5 then [InconsistentRecommendation] else [])
  }

  /** `_generate_recent_recommendations` (its score argument is never
      read). */
  function RecentRecommendations(patterns: FocusPatterns, fatigue: FatigueAnalysis): (r: seq<string>)
    ensures 1 <= |r| <= 8
    ensures FatigueLevel(fatigue) > 0.6 ==> |r| >= 3 && r[..3] == HeavyFatigueRecommendations
    ensures 0.3 < FatigueLevel(fatigue) <= 0.6 ==> |r| >= 2 && r[..2] == EyeStrainRecommendations
    ensures r == DefaultRecentRecommendations <==>
      FatigueLevel(fatigue) <= 0.3 && LookingAwayRatio(fatigue) <= 0.3 &&
      (patterns.Patterns? ==> patterns.averageFocus >= 0.5 && patterns.consistency >= 0.5)
    ensures r == DefaultRecentRecommendations || r == FatigueRecommendations(FatigueLevel(fatigue))
      + PatternRecommendations(patterns) + (if LookingAwayRatio(fatigue) > 0.3 then LookingAwayRecommendations else [])
  {
    var f := FatigueRecommendations(FatigueLevel(fatigue));
    var p := PatternRecommendations(patterns);
    var l := if LookingAwayRatio(fatigue) > 0.3 then LookingAwayRecommendations else [];
    var found := f + p + l;
    if found == [] then DefaultRecentRecommendations
    else
      assert found[..|f|] == f;
      FirstFoundIsNotDefault(f, p, l);
      found
  }

  /** No rule's first line is the default's first line. */
  lemma FirstFoundIsNotDefault(f: seq<string>, p: seq<string>, l: seq<string>)
    requires f == [] || f == HeavyFatigueRecommendations || f == EyeStrainRecommendations
    requires p == [] || p[0] == LowFocusRecommendations[0] || p[0] == InconsistentRecommendation
    requires l == [] || l == LookingAwayRecommendations
    ensures f + p + l != [] ==> (f + p + l)[0] != DefaultRecentRecommendations[0]
  {
    var c := DefaultRecentRecommendations[0][0];
    assert c == 'C';
    if f != [] {
      assert (f + p + l)[0] == f[0];
      assert f[0][0] == 'T' || f[0][0] == 'S';
    } else if p != [] {
      assert (f + p + l)[0] == p[0];
      assert LowFocusRecommendations[0][0] == 'M' && |InconsistentRecommendation| != |DefaultRecentRecommendations[0]|;
    } else if l != [] {
      assert (f + p + l)[0] == l[0];
      assert l[0][0] == 'A';
    }
  }

  /** The low-focus, inconsistency and looking-away advice lines differ
      from every line another rule or the default can contribute. */
  lemma RecommendationLinesDistinct()
    ensures var low, odd, away := LowFocusRecommendations[0], InconsistentRecommendation, LookingAwayRecommendations[0];
      low !in HeavyFatigueRecommendations && odd !in HeavyFatigueRecommendations && away !in HeavyFatigueRecommendations &&
      low !in EyeStrainRecommendations && odd !in EyeStrainRecommendations && away !in EyeStrainRecommendations &&
      low !in LookingAwayRecommendations && odd !in LookingAwayRecommendations &&
      away !in LowFocusRecommendations && away != odd &&
      low !in DefaultRecentRecommendations && odd !in DefaultRecentRecommendations && away !in DefaultRecentRecommendations
  {
    var low, odd, away := LowFocusRecommendations[0], InconsistentRecommendation, LookingAwayRecommendations[0];
    assert low[0] == 'M' && low[1] == 'i' && away[0] == 'A';
    assert |odd| == 51 && |HeavyFatigueRecommendations[2]| == 33 && |LookingAwayRecommendations[0]| == 40
      && |DefaultRecentRecommendations[1]| == 40;
    assert HeavyFatigueRecommendations[0][0] == 'T' && HeavyFatigueRecommendations[1][0] == 'H'
      && HeavyFatigueRecommendations[2][0] == 'C';
    assert EyeStrainRecommendations[0][0] == 'S' && EyeStrainRecommendations[1][0] == 'L';
    assert LookingAwayRecommendations[1][0] == 'M' && LookingAwayRecommendations[1][1] == 'a';
    assert DefaultRecentRecommendations[0][0] == 'C' && DefaultRecentRecommendations[1][0] == 'S';
  }

  /** The low-focus, inconsistency and looking-away advice each appears
      exactly when its own rule fires. */
  lemma RecentRecommendationsLines(patterns: FocusPatterns, fatigue: FatigueAnalysis)
    ensures var r := RecentRecommendations(patterns, fatigue);
      (LowFocusRecommendations[0] in r <==> patterns.Patterns? && patterns.averageFocus < 0.5) &&
      (InconsistentRecommendation in r <==> patterns.Patterns? && patterns.consistency < 0.5) &&
      (LookingAwayRecommendations[0] in r <==> LookingAwayRatio(fatigue) > 0.3)
  {
    var r := RecentRecommendations(patterns, fatigue);
    var f := FatigueRecommendations(FatigueLevel(fatigue));
    var p := PatternRecommendations(patterns);
    var l := if LookingAwayRatio(fatigue) > 0.3 then LookingAwayRecommendations else [];
    RecommendationLinesDistinct();
    if r != DefaultRecentRecommendations {
      assert r == f + p + l;
    }
  }
  // ---------------------------------------------------------------
  // The refresh step
  // ---------------------------------------------------------------

  datatype RecentAdvice = RecentAdvice(insights: seq<string>, recommendations: seq<string>)

  const NoFramesInsight := "‚Ä¢ No frames yet - start focus detection"
  const NoVideoRecommendation := "‚Ä¢ Ensure video is being captured correctly"

  /** The insight and recommendation lists of `refresh_display`, from the
      pattern and fatigue analyses of the recent window; the square root
      is a parameter. */
  function RecentAnalysis(history: seq<FrameData>, root: real -> real): (a: RecentAdvice)
    requires IsSquareRoot(root)
    ensures history == [] ==> a == RecentAdvice([NoFramesInsight], [NoVideoRecommendation])
    ensures history != [] ==>
      var recent := RecentWindow(history);
      a.insights == RecentInsights(AnalyzeFocusPatterns(recent, root), DetectFatigue(recent)) &&
      a.recommendations == RecentRecommendations(AnalyzeFocusPatterns(recent, root), DetectFatigue(recent))
    ensures |a.insights| >= 1 && |a.recommendations| >= 1
  {
    var recent := RecentWindow(history);
    if recent == [] then RecentAdvice([NoFramesInsight], [NoVideoRecommendation])
    else
      var patterns := AnalyzeFocusPatterns(recent, root);
      var fatigue := DetectFatigue(recent);
      RecentAdvice(RecentInsights(patterns, fatigue), RecentRecommendations(patterns, fatigue))
  }

  /** Only the last 60 frames matter: frames older than that never change
      the advice. */
  lemma RecentAnalysisIgnoresOlderFrames(older: seq<FrameData>, history: seq<FrameData>, root: real -> real)
    requires IsSquareRoot(root)
    requires |history| >= RecentFrameWindow
    ensures RecentAnalysis(older + history, root) == RecentAnalysis(history, root)
  {
    RecentWindowOfLonger(older, history);
  }

  lemma RecentWindowOfLonger(older: seq<FrameData>, history: seq<FrameData>)
    requires |history| >= RecentFrameWindow
    ensures RecentWindow(older + history) == RecentWindow(history)
  {
    var all := older + history;
    assert all[|all| - RecentFrameWindow..] == history[|history| - RecentFrameWindow..];
  }
}
