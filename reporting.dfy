/** Presentation of a score: the five-band description and emoji, the
    whole-percent display strings, and the CSV export row and header. */
module Reporting {
  import opened Util
  import opened Format
  import opened ScoringData

  // ---------------------------------------------------------------
  // Score bands
  // ---------------------------------------------------------------

  /** The band of a score: 0 from 90 up, 1 from 75, 2 from 60, 3 from 45,
      4 below 45; each threshold belongs to the higher band. */
  function ScoreBand(score: real): (b: nat)
    ensures b < 5
    ensures b == 0 <==> score >= 90.0
    ensures b == 1 <==> 75.0 <= score < 90.0
    ensures b == 2 <==> 60.0 <= score < 75.0
    ensures b == 3 <==> 45.0 <= score < 60.0
    ensures b == 4 <==> score < 45.0
  {
    if score >= 90.0 then 0
    else if score >= 75.0 then 1
    else if score >= 60.0 then 2
    else if score >= 45.0 then 3
    else 4
  }

  /** A higher score never falls in a worse band. */
  lemma ScoreBandMonotone(a: real, b: real)
    requires a <= b
    ensures ScoreBand(b) <= ScoreBand(a)
  {
  }

  const ScoreDescriptions: seq<string> := ["Excellent", "Good", "Acceptable", "Fair", "Needs Improvement"]

  const ScoreEmojis: seq<string> := ["ğŸŒŸ", "âœ…", "ğŸ‘", "âš\U{A0}ï¸", "âŒ"]

  /** `_get_score_description` */
  function ScoreDescription(score: real): (d: string)
    ensures d == ScoreDescriptions[ScoreBand(score)]
  {
    if score >= 90.0 then "Excellent"
    else if score >= 75.0 then "Good"
    else if score >= 60.0 then "Acceptable"
    else if score >= 45.0 then "Fair"
    else "Needs Improvement"
  }

  /** `_get_score_emoji` */
  function ScoreEmoji(score: real): (e: string)
    ensures e == ScoreEmojis[ScoreBand(score)]
  {
    if score >= 90.0 then ScoreEmojis[0]
    else if score >= 75.0 then ScoreEmojis[1]
    else if score >= 60.0 then ScoreEmojis[2]
    else if score >= 45.0 then ScoreEmojis[3]
    else ScoreEmojis[4]
  }

  /** Description and emoji use the same five bands: two scores share a
      description exactly when they share an emoji. */
  lemma DescriptionMatchesEmoji(a: real, b: real)
    ensures ScoreDescription(a) == ScoreDescription(b) <==> ScoreEmoji(a) == ScoreEmoji(b)
  {
    var i, j := ScoreBand(a), ScoreBand(b);
    assert ScoreDescriptions[i] == ScoreDescriptions[j] <==> i == j;
    assert ScoreEmojis[i] == ScoreEmojis[j] <==> i == j;
  }

  // ---------------------------------------------------------------
  // Display strings
  // ---------------------------------------------------------------

  /** `f"{x:.0f}%"` */
  function WholePercent(x: real): string
  {
    FixedPoint(x, 0) + "%"
  }

  /** For a non-negative score the display is its value rounded to a
      whole number (half to even), in digits, followed by '%'. */
  lemma WholePercentDenotes(x: real)
    requires x >= 0.0
    ensures var s := WholePercent(x);
      |s| >= 2 && s[|s| - 1] == '%' &&
      (forall i :: 0 <= i < |s| - 1 ==> IsDigit(s[i])) &&
      DigitsValue(s[..|s| - 1]) == RoundHalfEven(x)
  {
    var m := ScaledMagnitude(x, 0);
    ScaledWhole(x);
    assert IntPart(m, 0) == m;
    var q := NatToString(m);
    assert FixedPoint(x, 0) == q;
    assert WholePercent(x)[..|WholePercent(x)| - 1] == q;
    NatToStringRoundTrip(m);
  }

  datatype ScoreDisplay = ScoreDisplay(
    overall: string, focus: string, engagement: string, stability: string,
    overallDescription: string, focusDescription: string,
    engagementDescription: string, stabilityDescription: string)

  /** `format_score_display` */
  function FormatScoreDisplay(score: ProductivityScore): (d: ScoreDisplay)
    ensures d.overall == WholePercent(score.overallScore)
    ensures d.focus == WholePercent(score.focusScore)
    ensures d.engagement == WholePercent(score.engagementScore)
    ensures d.stability == WholePercent(score.stabilityScore)
    ensures d.overallDescription == ScoreDescriptions[ScoreBand(score.overallScore)]
    ensures d.focusDescription == ScoreDescriptions[ScoreBand(score.focusScore)]
    ensures d.engagementDescription == ScoreDescriptions[ScoreBand(score.engagementScore)]
    ensures d.stabilityDescription == ScoreDescriptions[ScoreBand(score.stabilityScore)]
  {
    ScoreDisplay(
      WholePercent(score.overallScore), WholePercent(score.focusScore),
      WholePercent(score.engagementScore), WholePercent(score.stabilityScore),
      ScoreDescription(score.overallScore), ScoreDescription(score.focusScore),
      ScoreDescription(score.engagementScore), ScoreDescription(score.stabilityScore))
  }

  /** `format_insights`: the score's own list. */
  function FormatInsights(score: ProductivityScore): seq<string>
  {
    score.insights
  }

  /** `format_recommendations`: the score's own list. */
  function FormatRecommendations(score: ProductivityScore): seq<string>
  {
    score.recommendations
  }

  // ---------------------------------------------------------------
  // CSV export
  // ---------------------------------------------------------------

  const CsvHeaderNames: seq<string> := [
    "timestamp", "overall_score", "focus_score", "engagement_score", "stability_score",
    "total_frames", "frames_with_face", "attentive_frames", "looking_away_frames",
    "average_ear", "average_yaw", "average_pitch", "average_fps", "session_duration"]

  /** `get_csv_header` */
  function CsvHeader(): string
  {
    Join(CsvHeaderNames, ",")
  }

  /** The header splits back into its 14 column names. */
  lemma CsvHeaderColumns()
    ensures Split(CsvHeader(), ',') == CsvHeaderNames && |CsvHeaderNames| == 14
  {
    SplitJoin(CsvHeaderNames, ',');
  }

  /** One numeric CSV value: a real with a fixed number of decimals
      (`f"{x:.d}"`), or an integer (`str(n)`). */
  datatype Cell = Fixed(x: real, decimals: nat) | Int(n: int)

  function CellText(c: Cell): (t: string)
    ensures ',' !in t
  {
    match c
    case Fixed(x, d) =>
      FixedPointAvoids(x, d, ',');
      CountCharZero(FixedPoint(x, d), ',');
      FixedPoint(x, d)
    case Int(n) =>
      IntToStringAvoids(n, ',');
      CountCharZero(IntToString(n), ',');
      IntToString(n)
  }

  /** The 13 numeric values of one export row, in header order. */
  function CsvCells(score: ProductivityScore, session: SessionMetrics): (cs: seq<Cell>)
    ensures |cs| == |CsvHeaderNames| - 1
  {
    [Fixed(score.overallScore, 1), Fixed(score.focusScore, 1),
     Fixed(score.engagementScore, 1), Fixed(score.stabilityScore, 1),
     Int(session.totalFrames), Int(session.framesWithFace),
     Int(session.totalAttentiveFrames), Int(session.totalLookingAwayFrames),
     Fixed(session.averageEar, 3), Fixed(session.averageYaw, 1), Fixed(session.averagePitch, 1),
     Fixed(session.averageFps, 1), Fixed(session.sessionDuration, 1)]
  }

  /** The 14 values of one export row; the timestamp (`isoformat` of the
      clock) is a parameter. */
  function CsvFields(score: ProductivityScore, session: SessionMetrics, timestamp: string): (fs: seq<string>)
    ensures |fs| == |CsvHeaderNames| && fs[0] == timestamp
    ensures forall i :: 1 <= i < |fs| ==> ',' !in fs[i]
  {
    var cs := CsvCells(score, session);
    [timestamp] + seq(|cs|, i requires 0 <= i < |cs| => CellText(cs[i]))
  }

  /** `generate_csv_row` */
  function CsvRow(score: ProductivityScore, session: SessionMetrics, timestamp: string): string
  {
    Join(CsvFields(score, session, timestamp), ",")
  }

  /** A row splits back into its values, one per header column, as long
      as the timestamp holds no comma (an ISO timestamp never does). */
  lemma CsvRowColumns(score: ProductivityScore, session: SessionMetrics, timestamp: string)
    requires ',' !in timestamp
    ensures Split(CsvRow(score, session, timestamp), ',') == CsvFields(score, session, timestamp)
    ensures |Split(CsvRow(score, session, timestamp), ',')| == |Split(CsvHeader(), ',')|
  {
    SplitJoin(CsvFields(score, session, timestamp), ',');
    CsvHeaderColumns();
  }
}
