/** The public scoring interface: a frame history that grows one frame at
    a time, and the queries that score it. */
module Scoring {
  import opened ScoringData
  import opened ScoringEngine
  import opened HumanCentered
  import opened Reporting
  import opened TextReport

  /** `get_health_tips`: ten fixed tips. */
  const HealthTips: seq<string> := [
    "ğŸ“– Follow the 20-20-20 rule: Every 20 minutes, look at something 20 feet away for 20 seconds",
    "ğŸ’§ Stay hydrated - dehydration affects focus and eye health",
    "ğŸªŸ Ensure proper lighting - reduce glare and eye strain",
    "ğŸ›‹ï¸ Adjust your monitor to eye level to maintain good posture",
    "â° Use the Pomodoro technique: 25 minutes work, 5 minutes break",
    "ğŸš¶ Take regular breaks to walk and stretch",
    "ğŸ˜´ Ensure 7-9 hours of sleep for optimal productivity",
    "ğŸ§ Use background music or white noise if it helps focus",
    "ğŸ§˜ Try deep breathing exercises during breaks",
    "ğŸ“µ Minimize distractions - phone, notifications, etc."]

  /** The dictionary returned by `get_insights`. */
  datatype InsightsReport = InsightsReport(
    score: ProductivityScore,
    session: SessionMetrics,
    display: ScoreDisplay,
    insights: seq<string>,
    recommendations: seq<string>,
    feedback: seq<string>,
    patterns: FocusPatterns,
    fatigue: FatigueAnalysis,
    breakAdvice: BreakAdvice,
    healthTips: seq<string>)

  class ProductivityScoring {
    const engine: Engine
    var framesHistory: seq<FrameData>

    /** A scorer with the default weights and no frames. */
    constructor ()
      ensures engine == DefaultEngine && framesHistory == []
    {
      engine := DefaultEngine;
      framesHistory := [];
    }

    /** `add_frame`: one frame more at the end, nothing else changes. */
    method AddFrame(frame: FrameData)
      modifies this
      ensures framesHistory == old(framesHistory) + [frame]
    {
      framesHistory := framesHistory + [frame];
    }

    /** `add_frame_from_pipeline`: the converted frame is added. */
    method AddFrameFromPipeline(output: PipelineOutput)
      modifies this
      ensures framesHistory == old(framesHistory) + [FromPipelineOutput(output)]
    {
      AddFrame(FromPipelineOutput(output));
    }

    /** `get_current_score`: the engine's score of the whole history. */
    method GetCurrentScore() returns (score: ProductivityScore)
      ensures score == OverallScore(engine, framesHistory)
      ensures 0.0 <= score.overallScore <= 100.0
    {
      score := OverallScore(engine, framesHistory);
    }

    /** `get_session_metrics` */
    method GetSessionMetrics() returns (session: SessionMetrics)
      ensures session == SessionMetricsOf(framesHistory)
    {
      session := SessionMetricsOf(framesHistory);
    }

    /** `get_formatted_display` */
    method GetFormattedDisplay() returns (display: ScoreDisplay)
      ensures display == FormatScoreDisplay(OverallScore(engine, framesHistory))
    {
      var score := GetCurrentScore();
      display := FormatScoreDisplay(score);
    }

    /** `get_insights`: the personalised feedback is driven by the overall
        score and the break advice by the session duration; the square
        root is a parameter. */
    method GetInsights(root: real -> real) returns (r: InsightsReport)
      requires IsSquareRoot(root)
      ensures r.score == OverallScore(engine, framesHistory)
      ensures r.session == SessionMetricsOf(framesHistory)
      ensures r.patterns == AnalyzeFocusPatterns(framesHistory, root)
      ensures r.fatigue == DetectFatigue(framesHistory)
      ensures r.feedback == PersonalizedFeedback(r.patterns, r.fatigue, r.score.overallScore)
      ensures r.breakAdvice == EstimateBreak(r.session.sessionDuration, r.patterns, r.fatigue)
      ensures r.display == FormatScoreDisplay(r.score)
      ensures r.insights == r.score.insights && r.recommendations == r.score.recommendations
      ensures r.healthTips == HealthTips
    {
      var score := GetCurrentScore();
      var session := GetSessionMetrics();
      var patterns := AnalyzeFocusPatterns(framesHistory, root);
      var fatigue := DetectFatigue(framesHistory);
      var feedback := PersonalizedFeedback(patterns, fatigue, score.overallScore);
      var breakAdvice := EstimateBreak(session.sessionDuration, patterns, fatigue);
      r := InsightsReport(score, session, FormatScoreDisplay(score), FormatInsights(score),
                          FormatRecommendations(score), feedback, patterns, fatigue, breakAdvice, HealthTips);
    }

    /** `get_text_report`; the time of generation is a parameter. */
    method GetTextReport(generatedAt: string) returns (text: string)
      ensures text == Report(OverallScore(engine, framesHistory), SessionMetricsOf(framesHistory), generatedAt)
    {
      var score := GetCurrentScore();
      var session := GetSessionMetrics();
      text := Report(score, session, generatedAt);
    }

    /** `export_csv_row`; the timestamp is a parameter. */
    method ExportCsvRow(timestamp: string) returns (row: string)
      ensures row == CsvRow(OverallScore(engine, framesHistory), SessionMetricsOf(framesHistory), timestamp)
    {
      var score := GetCurrentScore();
      var session := GetSessionMetrics();
      row := CsvRow(score, session, timestamp);
    }

    /** `reset`: the history is emptied. */
    method Reset()
      modifies this
      ensures framesHistory == []
    {
      framesHistory := [];
    }
  }

  /** Adding an attentive frame never lowers the current focus score. */
  method AttentiveFrameKeepsFocus(s: ProductivityScoring, frame: FrameData)
    requires frame.primary.Some? && frame.primary.value.attention == Attentive
    modifies s
    ensures s.framesHistory == old(s.framesHistory) + [frame]
    ensures FocusScore(s.framesHistory).0 >= FocusScore(old(s.framesHistory)).0
  {
    s.AddFrame(frame);
    FocusAppendAttentive(old(s.framesHistory), frame);
  }

  /** After a reset the score is the all-zero empty score. */
  method ResetGivesEmptyScore(s: ProductivityScoring) returns (score: ProductivityScore)
    modifies s
    ensures s.framesHistory == []
    ensures score == EmptyScore
  {
    s.Reset();
    score := s.GetCurrentScore();
  }
}
