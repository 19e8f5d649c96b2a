/** The plain-text report of a score and its session statistics. */
module TextReport {
  import opened Util
  import opened Format
  import opened ScoringData
  import opened Reporting

  const Bullet := "  â€¢ "
  const Degree := "Â°"

  /** `"=" * 70` */
  function Rule(): (r: string)
    ensures |r| == 70 && forall i :: 0 <= i < |r| ==> r[i] == '='
  {
    seq(70, _ => '=')
  }

  function Bullets(items: seq<string>): (r: seq<string>)
    ensures |r| == |items| && forall i :: 0 <= i < |items| ==> r[i] == Bullet + items[i]
  {
    seq(|items|, i requires 0 <= i < |items| => Bullet + items[i])
  }

  /** The 11 session statistics lines. */
  function StatisticsLines(session: SessionMetrics): (r: seq<string>)
    ensures |r| == 11
  {
    ["  Total Frames:        " + ThousandsInt(session.totalFrames),
     "  Frames with Face:    " + ThousandsInt(session.framesWithFace),
     "  Attentive Frames:    " + ThousandsInt(session.totalAttentiveFrames),
     "  Looking Away Frames: " + ThousandsInt(session.totalLookingAwayFrames),
     "  Unknown Frames:      " + ThousandsInt(session.totalUnknownFrames),
     "  Total Blinks:        " + IntToString(session.totalBlinks),
     "  Avg Eye Aspect Ratio: " + FixedPoint(session.averageEar, 3),
     "  Avg Yaw (Rotation):  " + FixedPoint(session.averageYaw, 1) + Degree,
     "  Avg Pitch (Tilt):    " + FixedPoint(session.averagePitch, 1) + Degree,
     "  Average FPS:         " + FixedPoint(session.averageFps, 1),
     "  Session Duration:    " + FixedPoint(session.sessionDuration, 1) + "s ("
       + FixedPoint(session.sessionDuration / 60.0, 1) + "m)"]
  }

  /** The title and the score lines that open the report. */
  function ScoreLines(score: ProductivityScore): (r: seq<string>)
    ensures |r| == 13
    ensures r[5] == OverallLine(score.overallScore)
  {
    [Rule(), "PRODUCTIVITY ANALYSIS REPORT", Rule(), "",
     "OVERALL PRODUCTIVITY SCORE", OverallLine(score.overallScore), "",
     "COMPONENT SCORES",
     ComponentLine("  Focus:       ", score.focusScore),
     ComponentLine("  Engagement:  ", score.engagementScore),
     ComponentLine("  Stability:   ", score.stabilityScore),
     "",
     "SESSION STATISTICS"]
  }

  function ComponentLine(caption: string, value: real): string
  {
    caption + FixedPoint(value, 1) + "% " + ScoreEmoji(value)
  }

  /** The title, score and statistics lines that open the report. */
  function OpeningLines(score: ProductivityScore, session: SessionMetrics): (r: seq<string>)
    ensures |r| == 25
    ensures r[5] == OverallLine(score.overallScore)
  {
    var h := ScoreLines(score);
    h + StatisticsLines(session) + [""]
  }

  function OverallLine(overall: real): string
  {
    "  Overall: " + FixedPoint(overall, 1) + "% " + ScoreEmoji(overall)
  }

  /** A titled list: the title, one bullet per item, a blank line. */
  function Section(title: string, items: seq<string>): (r: seq<string>)
    ensures |r| == |items| + 2 && r[0] == title && r[|r| - 1] == ""
    ensures forall i :: 0 <= i < |items| ==> r[i + 1] == Bullet + items[i]
  {
    [title] + Bullets(items) + [""]
  }

  function ClosingLines(generatedAt: string): seq<string>
  {
    [Rule(), "Report generated: " + generatedAt, Rule()]
  }

  /** Everything after the statistics: the insights and recommendations
      sections and the closing lines. */
  function ReportBody(insights: seq<string>, recommendations: seq<string>, generatedAt: string): (r: seq<string>)
    ensures |r| == 7 + |insights| + |recommendations|
    ensures r[|r| - 3] == Rule() && r[|r| - 2] == "Report generated: " + generatedAt && r[|r| - 1] == Rule()
  {
    Section("INSIGHTS", insights) + (Section("RECOMMENDATIONS", recommendations) + ClosingLines(generatedAt))
  }

  /** The lines of `generate_text_report`, before joining; the time of
      generation (already formatted) is a parameter. */
  function ReportLines(score: ProductivityScore, session: SessionMetrics, generatedAt: string): (r: seq<string>)
    ensures |r| == 32 + |score.insights| + |score.recommendations|
    ensures r[5] == OverallLine(score.overallScore)
    ensures r[|r| - 3] == Rule() && r[|r| - 2] == "Report generated: " + generatedAt && r[|r| - 1] == Rule()
  {
    OpeningLines(score, session) + ReportBody(score.insights, score.recommendations, generatedAt)
  }

  /** Where the insights sit in the report body. */
  lemma BodyListsInsights(insights: seq<string>, recommendations: seq<string>, generatedAt: string)
    ensures var r := ReportBody(insights, recommendations, generatedAt);
      r[0] == "INSIGHTS" && forall i :: 0 <= i < |insights| ==> r[1 + i] == Bullet + insights[i]
  {
    var b := Section("INSIGHTS", insights);
    var rest := Section("RECOMMENDATIONS", recommendations) + ClosingLines(generatedAt);
    forall i | 0 <= i < |b|
      ensures (b + rest)[i] == b[i]
    {
      PrefixAt(b, rest, i);
    }
  }

  /** Where the recommendations sit in the report body. */
  lemma BodyListsRecommendations(insights: seq<string>, recommendations: seq<string>, generatedAt: string)
    ensures var r := ReportBody(insights, recommendations, generatedAt);
      r[|insights| + 2] == "RECOMMENDATIONS" &&
      forall j :: 0 <= j < |recommendations| ==> r[|insights| + 3 + j] == Bullet + recommendations[j]
  {
    var b := Section("INSIGHTS", insights);
    var c := Section("RECOMMENDATIONS", recommendations);
    var d := ClosingLines(generatedAt);
    MiddleAt(b, c, d, 0);
    forall j | 0 <= j < |recommendations|
      ensures (b + (c + d))[|insights| + 3 + j] == Bullet + recommendations[j]
    {
      MiddleAt(b, c, d, j + 1);
    }
  }

  /** The middle part of a concatenation starts right after the first. */
  lemma MiddleAt<T>(b: seq<T>, c: seq<T>, d: seq<T>, j: int)
    requires 0 <= j < |c|
    ensures (b + (c + d))[|b| + j] == c[j]
  {
    assert (c + d)[j] == c[j];
  }

  /** Every insight appears, bulleted and in order, under the INSIGHTS
      title, and every recommendation under RECOMMENDATIONS. */
  lemma ReportListsItems(score: ProductivityScore, session: SessionMetrics, generatedAt: string)
    ensures var r := ReportLines(score, session, generatedAt);
      r[25] == "INSIGHTS" && r[27 + |score.insights|] == "RECOMMENDATIONS" &&
      (forall i :: 0 <= i < |score.insights| ==> r[26 + i] == Bullet + score.insights[i]) &&
      (forall j :: 0 <= j < |score.recommendations| ==>
        r[28 + |score.insights| + j] == Bullet + score.recommendations[j])
  {
    var a := OpeningLines(score, session);
    var body := ReportBody(score.insights, score.recommendations, generatedAt);
    var r := ReportLines(score, session, generatedAt);
    BodyListsInsights(score.insights, score.recommendations, generatedAt);
    BodyListsRecommendations(score.insights, score.recommendations, generatedAt);
    forall t | 0 <= t < |body|
      ensures r[25 + t] == body[t]
    {
      SuffixAt(a, body, t);
    }
  }

  /** The second part of a concatenation starts right after the first. */
  lemma SuffixAt<T>(a: seq<T>, b: seq<T>, t: int)
    requires 0 <= t < |b|
    ensures (a + b)[|a| + t] == b[t]
  {
  }

  /** The first part of a concatenation keeps its positions. */
  lemma PrefixAt<T>(a: seq<T>, b: seq<T>, t: int)
    requires 0 <= t < |a|
    ensures (a + b)[t] == a[t]
  {
  }

  /** `generate_text_report`: the lines joined with newlines. */
  function Report(score: ProductivityScore, session: SessionMetrics, generatedAt: string): string
  {
    Join(ReportLines(score, session, generatedAt), "\n")
  }
}
