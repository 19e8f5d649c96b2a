# Focus detection, productivity scoring and task scheduling in Dafny

This project models the core of a desktop focus assistant. The assistant
watches a webcam and tracks faces across frames. It turns eye and mouth
measurements into blink and yawn events and labels each face attentive,
looking away or eyes closed. It scores a working session from the frames it
has collected. Around that sits a small task scheduler that estimates task
durations and flags distracting windows.

The model has one module per source file:

- `FocusAnalyzer` (focus_analyzer.dfy) and `FocusTrack` (focus_track.dfy): the per-frame tracker.
  - `FocusAnalyzer` holds the map of tracks, matches detections to tracks by IoU, prunes stale tracks and picks the primary face.
  - `FocusTrack` holds the per-track step: pose smoothing, the attention label, and the blink and yawn event machines.
- `EyeAnalysis`: the eye aspect ratio, the open/closed decision, the landmark index sets and the coarse gaze.
- `HeadPose`: the guard logic of the head-pose estimator (box validation, neutral poses, pixel clamping, the roll guard).
- `ScoringData`: the scoring records, and the conversion of pipeline output into frames.
- `ScoringEngine`: focus, engagement, stability, fatigue and overall scores, session aggregates, and insight and recommendation lines.
- `HumanCentered`: 30-frame focus windows, consistency and trend, the fatigue estimate, feedback lines and break advice.
- `Reporting`, `TextReport` and `Format`: score bands, display strings, the CSV export and the plain-text report, with Python's number formatting written out.
- `Scoring`: the scoring facade, a class holding the append-only frame history.
- `ScoreWidget`: the widget's score colour, and the insights and recommendations of the last 60 frames.
- Task scheduling:
  - `SchedulingData`: the `Task` record.
  - `Scheduling`: the scheduler class.
  - `NlpParser`: the cached duration estimate.
  - `GeminiMcp`: the client's fallback heuristics.
  - `FeedbackLoop`: the throttled distraction watcher.
  - `OpenApps`: application display names.
  - `FocusMonitor`: the non-concentration alert loop.
- `InspectYawn`: the yawn-event inspection script's grouping and transition counts.
- `Util`: shared helpers (options, results, clamps, sums, string functions after Python's str methods).

Code that updates objects in place is modelled as classes with `modifies` clauses:
- the tracker;
- the frame history;
- the scheduler and its tasks;
- the distraction watcher;
- the alert loop.

Each such method's `ensures` ties the new state to a specification function. Everything else is modelled as functions, with lemmas for the properties the code promises.

Clock readings, the remote model's replies and results of foreign libraries enter as parameters. These include detector boxes, pose and eye estimates, the Euclidean distance, `atan2` and the square root. Measurements are `real`.

## Model

| member | source | states |
|---|---|---|
| EyeAnalysis.EyeIndices | src/focus_detection/eye_analysis.py:42-52 | MediaPipe indices from 468 points, InsightFace from 106, none below 106; six indices per eye, all within the landmark count |
| EyeAnalysis.MaxIndex | src/focus_detection/eye_analysis.py:55 | the largest index of the list: bounds every entry and is one of them |
| EyeAnalysis.Select | src/focus_detection/eye_analysis.py:58-59 | the rows at the given indices, in index order |
| EyeAnalysis.EyeLandmarksFromFace | src/focus_detection/eye_analysis.py:29-60 | an error exactly when the array is not N×2 or wider; two all-zero eyes below 106 points; otherwise the six points of each eye at the layout's indices |
| EyeAnalysis.EarOf | src/focus_detection/eye_analysis.py:83-85 | the ratio is never negative, is 0 when the eye width is 0, and otherwise times 2·C gives A + B |
| EyeAnalysis.EyeAspectRatio | src/focus_detection/eye_analysis.py:63-86 | an error exactly when the eye does not have six points; otherwise (‖p2 p6‖ + ‖p3 p5‖) / (2·‖p1 p4‖), non-negative and 0 when p1 = p4 |
| EyeAnalysis.TestEyesOpenAndClosed | tests/focus_detection/test_eye_analysis.py:19-60 | the test's open eye has EAR 0.5 and is open, its closed eye EAR 0.05 and is closed, at the default threshold 0.20 |
| EyeAnalysis.MinOf | src/focus_detection/eye_analysis.py:97-98 | the minimum of the coordinates: below every one and equal to one |
| EyeAnalysis.MaxOf | src/focus_detection/eye_analysis.py:97-98 | the maximum of the coordinates: above every one and equal to one |
| EyeAnalysis.Xs | src/focus_detection/eye_analysis.py:95 | the x column of the eye points |
| EyeAnalysis.Ys | src/focus_detection/eye_analysis.py:96 | the y column of the eye points |
| EyeAnalysis.RangeRatio | src/focus_detection/eye_analysis.py:103-107 | the position of the mean inside a non-empty range lies in [0, 1] |
| EyeAnalysis.Quantise | src/focus_detection/eye_analysis.py:109-123 | the low side exactly below 0.35, the high side exactly above 0.65, centre exactly in between (both bounds inclusive); when both sides name the same direction, that direction exactly off centre |
| EyeAnalysis.CoarseGaze | src/focus_detection/eye_analysis.py:88-128 | "center" when the box has no width or no height; otherwise the horizontal reading when off-centre, else the vertical one |
| EyeAnalysis.ZeroEyeGazesCenter | src/focus_detection/eye_analysis.py:100-101 | the all-zero eye (the missing-data value) gazes "center" |
| EyeAnalysis.TestGazeLeft | tests/focus_detection/test_eye_analysis.py:79-107 | the test's left-shifted eye gazes "left" |
| EyeAnalysis.TestGazeRight | tests/focus_detection/test_eye_analysis.py:88-113 | the test's right-shifted eye gazes "right" |
| EyeAnalysis.LowRatioGazes | src/focus_detection/eye_analysis.py:110-111 | an eye with a box and a horizontal ratio below 0.35 gazes left, whatever the vertical ratio |
| EyeAnalysis.HighRatioGazes | src/focus_detection/eye_analysis.py:112-113 | an eye with a box and a horizontal ratio above 0.65 gazes right, whatever the vertical ratio |
| EyeAnalysis.ReadEye | src/focus_detection/eye_analysis.py:168-186 | the eye's EAR (non-negative), open exactly when the EAR reaches the threshold, and its coarse gaze |
| EyeAnalysis.GetEye | src/focus_detection/eye_analysis.py:146-151 | six points: the zero eye exactly when the largest index is out of range, else the indexed rows |
| EyeAnalysis.Analyze | src/focus_detection/eye_analysis.py:130-188 | an error exactly when the array is not N×2 or wider; each eye open exactly when its EAR reaches the threshold |
| EyeAnalysis.AnalyzeReadsFaceEyes | src/focus_detection/eye_analysis.py:130-188 | `analyze` reads exactly the eyes that `get_eye_landmarks_from_face` extracts |
| EyeAnalysis.FewLandmarksReadClosed | src/focus_detection/eye_analysis.py:161-175 | below 106 points both eyes read EAR 0, closed under a positive threshold, gazing "center" |
| FeedbackLoop.DistractionWatcher.constructor | src/scheduling/feedback_loop.py:16-20 | a new watcher has a 60-second interval and a last check at time 0 |
| FeedbackLoop.DistractionWatcher.MaybeWarn | src/scheduling/feedback_loop.py:22-61 | under 60 s since the last check: None and the last check time kept; otherwise the last check becomes now before the check runs, and the result is the check's report, or None when the check or the warning raised |
| FeedbackLoop.DistractionWatcher.CheckDistractionsSync | src/scheduling/feedback_loop.py:63-79 | the check's report, with no throttle and the last check time untouched |
| FeedbackLoop.ThrottledWithinAMinute | src/scheduling/feedback_loop.py:32-35 | of two periodic calls less than a minute apart, the second returns None, and the recorded check time is the first call's |
| NlpParser.DurationEstimator.constructor | src/scheduling/nlp_parser.py:6-7 | the estimator uses the given client |
| NlpParser.DurationEstimator.EstimateTaskDuration | src/scheduling/nlp_parser.py:9-15 | an estimate already on the given task is returned unchanged; otherwise the client's estimate is stored on the given task and returned; afterwards the given task holds the returned value |
| NlpParser.EstimateTwice | src/scheduling/nlp_parser.py:9-15 | the cached estimate makes the call idempotent: a second call returns the first call's value whatever the client answers |
| FocusTrack.Overlap | src/focus_detection/focus_analyzer.py:181-186 | the overlap of two intervals, floored at 0, is no longer than either interval |
| FocusTrack.Area | src/focus_detection/focus_analyzer.py:188-189 | a box's area, with width and height floored at 0, is never negative |
| FocusTrack.Intersection | src/focus_detection/focus_analyzer.py:181-187 | the intersection area is between 0 and the area of either box |
| FocusTrack.IoU | src/focus_detection/focus_analyzer.py:177-193 | IoU lies in [0, 1] and is 0 when the union has no area |
| FocusTrack.IoUSymmetric | src/focus_detection/focus_analyzer.py:177-193 | IoU does not depend on the order of the two boxes |
| FocusTrack.IoUSelf | src/focus_detection/focus_analyzer.py:177-193 | a box with width and height has IoU 1 with itself |
| FocusTrack.IoUDisjoint | src/focus_detection/focus_analyzer.py:177-193 | boxes separated along either axis have IoU 0 |
| FocusTrack.NoIntersection | src/focus_detection/focus_analyzer.py:181-187 | boxes separated along either axis have intersection area 0 |
| FocusTrack.Smooth | src/focus_detection/focus_analyzer.py:367-376 | an all-zero average takes the raw pose; otherwise each angle moves 0.4 of the way from the average to the raw angle |
| FocusTrack.SmoothBetween | src/focus_detection/focus_analyzer.py:367-376 | each smoothed angle lies between the previous average and the raw reading |
| FocusTrack.SmoothSteady | src/focus_detection/focus_analyzer.py:367-376 | a steady pose is a fixed point of the average |
| FocusTrack.Classify | src/focus_detection/focus_analyzer.py:379-387 | looking away exactly when |yaw| or |pitch| reaches its threshold; eyes closed exactly when facing forward with both eyes closed; attentive exactly when facing forward with an eye open |
| FocusTrack.TurnedHeadLooksAway | src/focus_detection/focus_analyzer.py:380-383 | with the default thresholds, a yaw or pitch of 15 degrees or more is looking away whatever the eyes do |
| FocusTrack.PushHistory | src/focus_detection/focus_analyzer.py:389 | the history grows by one up to 150 labels, then keeps the last 150 of the old history plus the new label |
| FocusTrack.EventStep | src/focus_detection/focus_analyzer.py:400-544 | the previous-signal flag becomes the signal; the count rises by one, and the last-event time becomes now, exactly when the episode qualifies; switching off clears the episode; switching on starts one now, pending exactly when attentive |
| FocusTrack.EventCountStep | src/focus_detection/focus_analyzer.py:453-456 | the count never falls, rises by at most one per frame, and only on the frame the signal switches off |
| FocusTrack.PendingNeverDecides | src/focus_detection/focus_analyzer.py:408-456 | the pending flag does not take part in deciding whether an event is counted |
| FocusTrack.NoTwoCountsInARow | src/focus_detection/focus_analyzer.py:436-467 | two consecutive frames never both count an event |
| FocusTrack.CountedAfterGap | src/focus_detection/focus_analyzer.py:453-455 | a counted event is more than the refractory gap after the previous one, and becomes the new reference time |
| FocusTrack.QuickBlinkCounted | src/focus_detection/focus_analyzer.py:402-456 | an attentive 0.1 s blink with no blink in the previous 0.2 s is counted |
| FocusTrack.LongClosureNotCounted | src/focus_detection/focus_analyzer.py:443 | eyes closed for a whole second are not counted as a blink, whatever the attention |
| FocusTrack.NewTrack | src/focus_detection/focus_analyzer.py:213-218 | a new track carries the given id, the box and the frame time as last seen, zero counts, an empty history and a zero pose average |
| FocusTrack.PoseInputs | src/focus_detection/focus_analyzer.py:220-253 | a successful estimate supplies the raw pose and caches it, and its landmarks when it has any (otherwise no landmarks and the cache kept); a failed one reuses the cached landmarks and pose, a level pose when none is cached |
| FocusTrack.EyesOf | src/focus_detection/focus_analyzer.py:258-269 | with landmarks, the eye analyser's reading; without, both eyes open with EAR 0.3 gazing centre |
| FocusTrack.Observe | src/focus_detection/focus_analyzer.py:220-573 | the track keeps its id, box and last-seen time; the eyes come from the analyser on the landmarks in use, the mouth ratio from MouthRatio on them and the track box (0 without landmarks), the mouth reads open exactly above 1.2; the attention is Classify on the smoothed pose and both eyes; the blink machine steps on "both eyes closed" and the yawn machine on "mouth open", each with that attention; the last history entry is the attention; each count rises by at most one |
| FocusTrack.MouthRegionMembers | src/focus_detection/focus_analyzer.py:297-311 | the region holds exactly the landmarks lying strictly inside the window, the box sides floored at 1 |
| FocusTrack.SpreadRatio | src/focus_detection/focus_analyzer.py:313-321 | height over width of the region's bounding box, never negative, and positive only when the width exceeds 1e-6 |
| FocusTrack.MouthRatio | src/focus_detection/focus_analyzer.py:277-344 | never negative; for 106 landmarks the ratio times the 48-54 width is the 51-57 gap, 0 at a width of at most 1e-6; otherwise 0 when fewer than 4 (478 landmarks, inner window 0.55-0.75 by 0.35-0.65) or 6 (any other layout, window 0.35-1.0 by 0.15-0.85) landmarks fall in the window, and positive only with enough of them |
| FocusTrack.MouthRegionShift | src/focus_detection/focus_analyzer.py:297-310 | moving the landmarks and the box together moves the region with them |
| FocusTrack.ExtentShift | src/focus_detection/focus_analyzer.py:313-318 | adding a constant to every coordinate keeps the distance from the smallest to the largest |
| FocusTrack.SpreadRatioShift | src/focus_detection/focus_analyzer.py:313-321 | moving every landmark by one offset keeps the spread ratio |
| FocusTrack.MouthRatioTranslation | src/focus_detection/focus_analyzer.py:277-344 | the mouth ratio does not change when all landmarks and the face box move by the same offset (for 106 landmarks, given a distance unchanged by such a move) |
| FocusTrack.NoLandmarksNoBlink | src/focus_detection/focus_analyzer.py:350-352 | a failed estimate with no cached landmarks reads open eyes and a closed mouth, so no blink or yawn starts and the face is never eyes-closed |
| FocusAnalyzer.BestAmong | src/focus_detection/focus_analyzer.py:195-204 | the scan returns no track with IoU 0, or a scanned track together with its IoU |
| FocusAnalyzer.BestAmongIsFirstMaximum | src/focus_detection/focus_analyzer.py:195-204 | the scan's IoU bounds every scanned track's; it finds no track exactly when no track overlaps; every earlier track overlaps strictly less |
| FocusAnalyzer.Match | src/focus_detection/focus_analyzer.py:206-207 | a match is a track whose IoU with the box is above 0.35 |
| FocusAnalyzer.MatchIsBestTrack | src/focus_detection/focus_analyzer.py:195-210 | a box matches exactly when some track overlaps it by more than 0.35, and then joins the first track of greatest IoU |
| FocusAnalyzer.SameBoxMatches | src/focus_detection/focus_analyzer.py:195-210 | a track's own box, seen again, is matched |
| FocusAnalyzer.BestMatch | src/focus_detection/focus_analyzer.py:195-204 | the matching loop computes the scan: tracks in id order, replaced only by a strictly greater IoU |
| FocusAnalyzer.Admit | src/focus_detection/focus_analyzer.py:206-218 | a matched box updates that track's box and last-seen time and keeps the next id; otherwise a new track gets the next id, which then increments |
| FocusAnalyzer.FileTrack | src/focus_detection/focus_analyzer.py:218 | filing a track under its own id keeps every track under its id and below the next id |
| FocusAnalyzer.DetectionStep | src/focus_detection/focus_analyzer.py:168-617 | a detection without a box is skipped with no output; otherwise one face is reported; the next id grows by at most one; no track is lost; a new track has the old next id |
| FocusAnalyzer.StepCounts | src/focus_detection/focus_analyzer.py:168-617 | one detection raises an existing track's blink and yawn counts by at most one and never lowers them |
| FocusAnalyzer.Detect | src/focus_detection/focus_analyzer.py:168-617 | the detections in order keep the tracks well formed; the next id never goes back; new tracks have ids between the old and new next id; at most one face per detection |
| FocusAnalyzer.DetectCountsGrow | src/focus_detection/focus_analyzer.py:168-617 | during a frame a surviving track's counts never fall and grow by at most one per detection |
| FocusAnalyzer.Pruned | src/focus_detection/focus_analyzer.py:620-631 | the tracks kept are exactly those that are not stale, unchanged (a last-seen time of 0 is never stale) |
| FocusAnalyzer.SeenTracksSurvive | src/focus_detection/focus_analyzer.py:623 | a track seen in this frame is not pruned |
| FocusAnalyzer.ArgMax | src/focus_detection/focus_analyzer.py:128 | the first index of the greatest value |
| FocusAnalyzer.SelectPrimary | src/focus_detection/focus_analyzer.py:123-128 | None exactly when there are no faces; otherwise the first face of greatest (unclamped) box area |
| FocusAnalyzer.Frame | src/focus_detection/focus_analyzer.py:133-645 | no detections: an empty output and tracks untouched; otherwise the tracks after all detections, pruned; the face count is the number of detections, and 0 when no primary face is found; with detections, every processed face is returned exactly when all faces were asked for, and otherwise the primary is absent exactly when no face was processed and else is the face the primary-face rule selects |
| FocusAnalyzer.IdsNeverReused | src/focus_detection/focus_analyzer.py:213-214 | every track opened in a frame gets an id no earlier track had, and the next id never goes back |
| FocusAnalyzer.Analyzer.constructor | src/focus_detection/focus_analyzer.py:113-118 | a new analyzer has no tracks, next id 0 and frame counter 0 |
| FocusAnalyzer.Analyzer.AnalyzeFrame | src/focus_detection/focus_analyzer.py:133-645 | the frame counter increments and the new tracks and output are those of `Frame` on the old tracks |
| FocusAnalyzer.Analyzer.AdmitBox | src/focus_detection/focus_analyzer.py:195-218 | the matching loop's best track with the new box and time when its IoU exceeds 0.35, else a new track with the next id: the track and next id `Admit` gives |
| FocusAnalyzer.Analyzer.ProcessDetection | src/focus_detection/focus_analyzer.py:168-617 | the loop body changes the tracks and next id as `DetectionStep` does |
| FocusAnalyzer.Analyzer.PruneStale | src/focus_detection/focus_analyzer.py:620-631 | the tracks become exactly the unpruned ones; the next id and frame counter are unchanged |
| FocusMonitor.Begin | src/scheduling/tracker.py:26-27 | the loop starts with no alert active |
| FocusMonitor.Step | src/scheduling/tracker.py:34-44 | a concentrating reading restarts the non-concentration clock at its time and clears the alert; otherwise the start time is kept and the alert is active exactly when it was already or it fires now (6.0 s or more without concentration) |
| FocusMonitor.Run | src/scheduling/tracker.py:29-46 | one alert flag per iteration |
| FocusMonitor.QuietWhileActive | src/scheduling/tracker.py:38-44 | while an alert is active, readings without concentration fire nothing and leave it active |
| FocusMonitor.RunAppend | src/scheduling/tracker.py:29-46 | running two stretches of readings one after the other is running them together |
| FocusMonitor.NoSecondAlertWithoutConcentration | src/scheduling/tracker.py:34-44 | after an alert fires, no further alert fires until a concentrating reading arrives |
| FocusMonitor.AlertAfterSixSeconds | src/scheduling/tracker.py:38-44 | from a fresh start, 5 s without concentration fire nothing and 6 s fire the alert |
| FocusMonitor.FocusTracker.constructor | src/scheduling/tracker.py:16-18 | a new tracker is running |
| FocusMonitor.FocusTracker.Stop | src/scheduling/tracker.py:20-22 | after `stop` the tracker is not running |
| FocusMonitor.FocusTracker.MonitoringLoop | src/scheduling/tracker.py:24-46 | a running tracker's loop emits exactly the alerts of `Run` from the start time and ends in its state; a stopped tracker runs no iteration |
| Format.NatToString | src/scoring/reporting.py:154 | `str(n)`: at least one decimal digit, with no leading zero |
| Format.NatToStringRoundTrip | src/scoring/reporting.py:154 | reading the digits of `str(n)` back gives n |
| Format.IntToString | src/scoring/reporting.py:144-154 | `str(i)`: a minus sign and the digits of -i for negatives, the digits of i otherwise |
| Format.IntToStringAvoids | src/scoring/reporting.py:144-154 | `str(i)` holds only a sign and digits, so no comma |
| Format.RoundHalfEven | src/scoring/reporting.py:140-152 | the rounding used by fixed-point formatting: within 0.5 of the value, and even on a tie |
| Format.ScaledMagnitude | src/scoring/reporting.py:140-152 | the printed digits are |x|·10^d rounded half to even |
| Format.ScaledWhole | src/scoring/reporting.py:32-35 | with no decimals, the digits of a non-negative value are the value rounded half to even |
| Format.FixedTextDenotes | src/scoring/reporting.py:140-152 | a fixed-point text with d > 0 is a sign for negatives, the integer digits, a point and exactly d digits, and its digits read back as the rounded magnitude |
| Format.FixedTextAvoids | src/scoring/reporting.py:140-154 | a fixed-point text holds only a sign, digits and a point, so no comma or newline |
| Format.FixedPointAvoids | src/scoring/reporting.py:140-154 | `f"{x:.Nf}"` never contains a comma or newline |
| Format.Percent1 | src/scoring/human_centered.py:234 | `f"{x:.1%}"` ends in '%' after at least a digit, a point and a decimal |
| Format.ThousandsAvoids | src/scoring/reporting.py:96-100 | `f"{n:,}"` holds only digits and commas |
| Format.ThousandsIntAvoids | src/scoring/reporting.py:96-100 | `f"{i:,}"` holds only a sign, digits and commas |
| Format.ThousandsDropCommas | src/scoring/reporting.py:96-100 | removing the separators from `f"{n:,}"` gives back `str(n)` |
| Reporting.ScoreBand | src/scoring/reporting.py:185-194 | five bands, each threshold (90, 75, 60, 45) inclusive in the higher band |
| Reporting.ScoreBandMonotone | src/scoring/reporting.py:185-194 | a higher score never falls in a worse band |
| Reporting.ScoreDescription | src/scoring/reporting.py:182-194 | the description of the score's band |
| Reporting.ScoreEmoji | src/scoring/reporting.py:196-208 | the emoji of the score's band |
| Reporting.DescriptionMatchesEmoji | src/scoring/reporting.py:182-208 | two scores share a description exactly when they share an emoji |
| Reporting.WholePercentDenotes | src/scoring/reporting.py:32-35 | a non-negative score displays as the digits of the score rounded half to even, followed by '%' |
| Reporting.FormatScoreDisplay | src/scoring/reporting.py:21-40 | each of the four scores as a whole percent, with the description of its band |
| Reporting.CellText | src/scoring/reporting.py:140-154 | no numeric export value contains a comma |
| Reporting.CsvCells | src/scoring/reporting.py:140-153 | thirteen numeric values, one per header column after the timestamp |
| Reporting.CsvFields | src/scoring/reporting.py:138-153 | fourteen values, the timestamp first and no comma in the others |
| Reporting.CsvHeaderColumns | src/scoring/reporting.py:156-180 | the header splits back into its fourteen column names |
| Reporting.CsvRowColumns | src/scoring/reporting.py:127-180 | a row whose timestamp has no comma splits back into its values, as many as the header has columns |
| TextReport.Rule | src/scoring/reporting.py:78 | seventy '=' characters |
| TextReport.Bullets | src/scoring/reporting.py:111-118 | one bulleted line per item, in order |
| TextReport.StatisticsLines | src/scoring/reporting.py:96-106 | eleven session statistics lines |
| TextReport.ScoreLines | src/scoring/reporting.py:78-95 | thirteen opening lines, the sixth being the overall score line |
| TextReport.OpeningLines | src/scoring/reporting.py:78-107 | twenty-five lines before the insights, the sixth being the overall score line |
| TextReport.Section | src/scoring/reporting.py:110-119 | a title, one bullet per item in order, and a blank line |
| TextReport.ReportBody | src/scoring/reporting.py:110-123 | seven lines besides the items, ending with the rule, the generation line and the rule |
| TextReport.ReportLines | src/scoring/reporting.py:66-125 | 32 lines plus one per insight and recommendation; the overall score is line 6; the report ends with the rule, the generation time and the rule |
| TextReport.BodyListsInsights | src/scoring/reporting.py:110-112 | the body opens with INSIGHTS followed by every insight bulleted, in order |
| TextReport.BodyListsRecommendations | src/scoring/reporting.py:116-118 | RECOMMENDATIONS follows the insights section, with every recommendation bulleted, in order |
| TextReport.ReportListsItems | src/scoring/reporting.py:66-125 | in the whole report every insight appears bulleted under INSIGHTS and every recommendation under RECOMMENDATIONS, in order and at fixed positions |
| ScoringData.ParseAttention | src/scoring/data_structures.py:68-72 | the lowered string's state when it is "attentive" or "looking_away", UNKNOWN exactly otherwise |
| ScoringData.ParseAttentionRoundTrip | src/scoring/data_structures.py:68-72 | parsing a state's own value gives the state back |
| ScoringData.EyesClosedIsUnknown | src/scoring/data_structures.py:68-72 | the tracker's "eyes_closed" label converts to UNKNOWN |
| ScoringData.FaceFromDict | src/scoring/data_structures.py:67-91 | the parsed attention ("unknown" when missing); every other field is the present key's value, and otherwise its default: a zero box, 0.0 for confidence, angles, ears and mar, 0 for the counts, False for the eye and mouth flags |
| ScoringData.EmptyFaceDefaults | src/scoring/data_structures.py:74-96 | a face dictionary with no keys is falsy and converts to an all-zero face with UNKNOWN attention |
| ScoringData.FromPipelineOutput | src/scoring/data_structures.py:55-136 | one face per face dictionary, in order; a primary face exactly when the primary dictionary is present and non-empty; frame id, timestamp, face count and detection flag are the present values, else 0, 0.0, 0 and False; the three timings are the debug block's present values, else 0.0, and all 0.0 without a debug block |
| ScoreWidget.ScoreColor | src/ui/widgets/score_widget.py:421-432 | the colour is the one of the score's band: green from 90, light green from 75, amber from 60, orange from 45, red below |
| ScoreWidget.ColorMatchesDescription | src/ui/widgets/score_widget.py:421-432 | two scores share a colour exactly when the reporter gives them the same description |
| ScoreWidget.RecentWindow | src/ui/widgets/score_widget.py:248 | the last 60 frames of the history, or all of them when there are fewer |
| ScoreWidget.FocusLevel | src/ui/widgets/score_widget.py:458-463 | strong exactly above 0.85, moderate exactly in (0.6, 0.85], low exactly at or below 0.6 |
| ScoreWidget.FocusLine | src/ui/widgets/score_widget.py:458-463 | the level's prefix, then the average as a whole percentage and "% attentive" |
| ScoreWidget.PatternInsights | src/ui/widgets/score_widget.py:454-468 | no line exactly when the data was insufficient; else the focus line first and a second line exactly when consistency is above 0.85 or below 0.5: the very-consistent line above 0.85, the fluctuating line below 0.5 |
| ScoreWidget.FatigueInsights | src/ui/widgets/score_widget.py:471-475 | at most one line, present exactly when the fatigue level is above 0.3: the signs-of-fatigue line above 0.6, the eye-strain line up to it |
| ScoreWidget.LookingAwayInsights | src/ui/widgets/score_widget.py:478-480 | at most one line, present exactly when the looking-away ratio is above 0.3, and then it is "Looking away ", the ratio as a whole percentage and "% of time" |
| ScoreWidget.RecentInsights | src/ui/widgets/score_widget.py:434-485 | one to four lines; only the no-issues line exactly when no rule fires, otherwise the pattern, fatigue and looking-away lines in that order; the focus line first whenever patterns were found |
| ScoreWidget.RecentInsightsLines | src/ui/widgets/score_widget.py:465-480 | the very-consistent line is present exactly when patterns were found with consistency above 0.85, the fluctuating line exactly when consistency is below 0.5, and the looking-away line is last exactly when the ratio is above 0.3 |
| ScoreWidget.FirstFoundIsNotNoIssues | src/ui/widgets/score_widget.py:451-485 | no rule's first line is the no-issues line, so that line appears only when nothing was found |
| ScoreWidget.RecentInsightsReportFatigue | src/ui/widgets/score_widget.py:471-475 | a fatigue level above 0.3 is reported right after the pattern lines: the break line above 0.6, the eye-strain line up to it |
| ScoreWidget.FatigueRecommendations | src/ui/widgets/score_widget.py:507-514 | three break lines above 0.6, two stretch lines in (0.3, 0.6], none otherwise |
| ScoreWidget.PatternRecommendations | src/ui/widgets/score_widget.py:517-525 | none for insufficient data; two lines when average focus is below 0.5 plus one when consistency is below 0.5; the minimise-notifications line is present exactly when average focus is below 0.5, the inconsistency line exactly when consistency is below 0.5 |
| ScoreWidget.RecentRecommendations | src/ui/widgets/score_widget.py:487-537 | one to eight lines led by the fatigue lines when fatigue is above 0.3; exactly the two default lines when no rule fires, otherwise the fatigue, focus and looking-away lines in that order |
| ScoreWidget.RecentRecommendationsLines | src/ui/widgets/score_widget.py:517-531 | the minimise-notifications line is present exactly when patterns were found with average focus below 0.5, the inconsistency line exactly when consistency is below 0.5, the screen-position line exactly when the looking-away ratio is above 0.3 |
| ScoreWidget.FirstFoundIsNotDefault | src/ui/widgets/score_widget.py:504-535 | no rule's first line is the default's first line |
| ScoreWidget.RecentAnalysis | src/ui/widgets/score_widget.py:240-273 | the two placeholder lines for an empty history, else the insights and recommendations of the patterns and fatigue of the recent window; never empty |
| ScoreWidget.RecentAnalysisIgnoresOlderFrames | src/ui/widgets/score_widget.py:248 | with at least 60 recent frames, older frames never change the advice |
| Scoring.ProductivityScoring.constructor | src/scoring/__init__.py:24-29 | a scorer with the default engine weights and an empty frame history |
| Scoring.ProductivityScoring.AddFrame | src/scoring/__init__.py:31-38 | the frame is appended to the history; nothing else changes |
| Scoring.ProductivityScoring.AddFrameFromPipeline | src/scoring/__init__.py:40-49 | the frame converted from the pipeline dictionary is appended |
| Scoring.ProductivityScoring.GetCurrentScore | src/scoring/__init__.py:51-58 | the engine's overall score of the whole history, between 0 and 100 |
| Scoring.ProductivityScoring.GetSessionMetrics | src/scoring/__init__.py:60-67 | the engine's session metrics of the whole history |
| Scoring.ProductivityScoring.GetFormattedDisplay | src/scoring/__init__.py:69-77 | the reporter's display of the current score |
| Scoring.ProductivityScoring.GetInsights | src/scoring/__init__.py:79-113 | every field of the report: score, session, display, the score's insights and recommendations, feedback from the patterns, fatigue and overall score, break advice from the session duration, and the ten health tips |
| Scoring.ProductivityScoring.GetTextReport | src/scoring/__init__.py:115-124 | the text report of the current score and session |
| Scoring.ProductivityScoring.ExportCsvRow | src/scoring/__init__.py:130-139 | the CSV row of the current score and session |
| Scoring.ProductivityScoring.Reset | src/scoring/__init__.py:126-128 | the history is emptied |
| Scoring.AttentiveFrameKeepsFocus | src/scoring/__init__.py:31-38 | adding a frame whose primary face is attentive never lowers the focus score |
| Scoring.ResetGivesEmptyScore | src/scoring/__init__.py:126-128 | after a reset the current score is the all-zero empty score |
| ScoringEngine.Primaries | src/scoring/productivity_score.py:252 | the face frames' primary faces: none exactly when no frame has a primary face, never more than the frames |
| ScoringEngine.PrimariesConcat | src/scoring/productivity_score.py:67 | the face-frame filter keeps order: filtering two concatenated histories filters each |
| ScoringEngine.CountAttention | src/scoring/productivity_score.py:254-255 | the number of faces in a given attention state, at most the number of faces |
| ScoringEngine.AttentionCountsDisjoint | src/scoring/productivity_score.py:254-256 | attentive and looking-away counts together never exceed the face frames, so the unknown count is never negative |
| ScoringEngine.CountEyesOpen | src/scoring/productivity_score.py:129-130 | the number of faces with at least one eye open, at most the number of faces |
| ScoringEngine.PopVariance | src/scoring/productivity_score.py:196-197 | the population variance of a non-empty series is never negative |
| ScoringEngine.MaxDelta | src/scoring/productivity_score.py:200-204 | the largest consecutive absolute change: no change exceeds it and some change equals it |
| ScoringEngine.ConstantVariance | src/scoring/productivity_score.py:196-197 | a constant series has that constant as mean and zero variance |
| ScoringEngine.ConstantMaxDelta | src/scoring/productivity_score.py:200-204 | a constant series has no consecutive change |
| ScoringEngine.NewEngine | src/scoring/productivity_score.py:32-49 | a zero weight total is a division error; otherwise the stored weights sum to one and are the given weights over their total |
| ScoringEngine.DefaultEngineIsNormalised | src/scoring/productivity_score.py:34-49 | the default weights 0.4, 0.35 and 0.25 are stored unchanged |
| ScoringEngine.FocusScore | src/scoring/productivity_score.py:51-92 | 0 with no data for no frames or no face frames; else the attentive share of face frames as a percentage, the three attention counts adding up to the face frames |
| ScoringEngine.FocusAppendAttentive | src/scoring/productivity_score.py:51-92 | one more attentive face frame never lowers the focus score |
| ScoringEngine.EarScore | src/scoring/productivity_score.py:145 | the EAR term is within 0..100, 0 at or below EAR 0.10 and 100 from 0.25 |
| ScoringEngine.EarScoreMonotone | src/scoring/productivity_score.py:145 | a larger average EAR never gives a smaller EAR term |
| ScoringEngine.EngagementScore | src/scoring/productivity_score.py:94-167 | 0 for no frames or no face frames; else within 15..100: the EAR score of the mean per-frame EAR, a blink score of 100 exactly when there was a blink and 50 otherwise, the eyes-open percentage of the face frames as the third term, and the score the 0.4/0.3/0.3 blend of the three clamped to 0..100 |
| ScoringEngine.StabilityOfSeries | src/scoring/productivity_score.py:192-237 | the mean of the four terms, within 0..100, each term max(100 - 2x, 0) of the yaw or pitch variance or largest step; 100 when nothing varies |
| ScoringEngine.StabilityScore | src/scoring/productivity_score.py:169-237 | 0 for no frames, 100 with too little data for fewer than two face frames, else the stability of the face frames' yaw and pitch series |
| ScoringEngine.StillHeadIsFullyStable | src/scoring/productivity_score.py:196-237 | a head whose yaw and pitch never change scores 100 |
| ScoringEngine.FatigueScore | src/scoring/productivity_score.py:358-459 | 0 for no face frames; else within 0..100 as the 0.25/0.20/0.30/0.15/0.10 blend of five terms: 100 minus the EAR score of the mean EAR, the blink rate over 10 to 40 per minute, the yawn rate over 0 to 2 per minute, the looking-away share, and 100 minus the stability score; rates over the duration in minutes floored at 1e-6 |
| ScoringEngine.PositiveFps | src/scoring/productivity_score.py:269 | only the positive processing rates, at most one per frame |
| ScoringEngine.SessionMetricsOf | src/scoring/productivity_score.py:239-286 | the empty session for no frames; else the frame and face-frame counts, the attentive and looking-away counts of the face frames adding up to at most their number, the blink total, the summed-EAR average, the mean yaw and pitch of the face frames (0 without one), the mean of the positive frame rates (0 without one) and the first-to-last duration |
| ScoringEngine.SessionEarMatchesEngagement | src/scoring/productivity_score.py:260-261 | the session's average EAR equals the engagement score's average EAR |
| ScoringEngine.FocusInsight | src/scoring/productivity_score.py:475-482 | one of the four focus lines: the excellent one exactly above 80, the good one exactly in (60, 80], the moderate one exactly in (40, 60], the low one exactly at or below 40 |
| ScoringEngine.EngagementInsight | src/scoring/productivity_score.py:485-490 | one of the three engagement lines; the engaged one exactly above 80, the low one exactly at or below 60 |
| ScoringEngine.StabilityInsight | src/scoring/productivity_score.py:493-498 | one of the three stability lines; the very stable one exactly above 80, the frequent-movement one exactly at or below 60 |
| ScoringEngine.Insights | src/scoring/productivity_score.py:461-504 | the no-face line for an empty session; else the focus, engagement and stability lines of the three scores, in that order, and a fourth duration line in minutes exactly when the session passed 300 s |
| ScoringEngine.Recommendations | src/scoring/productivity_score.py:506-534 | two lines per low component and one for a long unfocused session; the focus lines appear exactly below 50, the engagement lines exactly below 60, the stability lines exactly below 50, the long-session line exactly past 3600 s with focus below 70; the encouragement line alone exactly when none fires, and never beside other lines |
| ScoringEngine.Blend | src/scoring/productivity_score.py:316-340 | the weighted sum clamped to 0..100 |
| ScoringEngine.BlendBetweenComponents | src/scoring/productivity_score.py:316-340 | with normalised non-negative weights, bounds shared by the three components bound the overall score and the clamp never binds |
| ScoringEngine.OverallScore | src/scoring/productivity_score.py:288-356 | the no-frames score for an empty history; else the component scores, their weighted blend, the fatigue score among the components, and the insights and recommendations of the components and session |
| HumanCentered.WindowRatio | src/scoring/human_centered.py:45-51 | no ratio exactly when the window has no face frame; else the attentive share of its face frames, within 0..1 |
| HumanCentered.FocusWindows | src/scoring/human_centered.py:40-51 | one ratio in 0..1 per 30-frame window that holds a face; none exactly when no frame has a face; never more than the number of windows |
| HumanCentered.AllAttentiveWindows | src/scoring/human_centered.py:43-51 | when every frame has an attentive face, every window is present and fully focused |
| HumanCentered.HalfTrend | src/scoring/human_centered.py:64-70 | the later half's mean minus the earlier half's, split at len // 2, lies within -1..1 |
| HumanCentered.MeanOrZero | src/scoring/human_centered.py:67-68 | 0 for an empty half, else its mean, within 0..1 |
| HumanCentered.FlatWindowsHaveNoTrend | src/scoring/human_centered.py:64-70 | equal window ratios give a trend of 0 |
| HumanCentered.AnalyzeFocusPatterns | src/scoring/human_centered.py:26-78 | insufficient data below 10 frames or with no face frame; else the windows, their mean in 0..1, a consistency of 1 minus the windows' standard deviation capped at 1, the half trend, and the fatigue flag exactly when the trend is below -0.1 |
| HumanCentered.SteadyFocusPattern | src/scoring/human_centered.py:57-76 | equal window ratios give perfect consistency, no trend, no fatigue flag, and that ratio as the average |
| HumanCentered.DetectFatigue | src/scoring/human_centered.py:80-136 | no data for no frames, no face for no face frames, else the indicators of the face frames; the level is always within 0..1 |
| HumanCentered.FatigueOfFaces | src/scoring/human_centered.py:103-136 | the summed-EAR average, the looking-away share in 0..1, the mean pitch, the EAR and pitch indicators, the 0.4/0.4/0.2 blend clamped to 0..1, and the level's description |
| HumanCentered.AlertFacesShowNoFatigue | src/scoring/human_centered.py:103-126 | eyes with EAR at least 0.2, a level or raised head and no looking away give fatigue level 0 |
| HumanCentered.FatigueDescription | src/scoring/human_centered.py:238-249 | five bands split at 0.2, 0.4, 0.6 and 0.8, each boundary in the upper band |
| HumanCentered.BandOf | src/scoring/human_centered.py:238-249 | the band index whose name is the description |
| HumanCentered.FatigueDescriptionMonotone | src/scoring/human_centered.py:238-249 | more fatigue never gives a fresher description |
| HumanCentered.PersonalizedFeedback | src/scoring/human_centered.py:138-189 | the fatigue, consistency, trend and score groups in that order, the steady line alone exactly when none fires; between one and four lines; the break line exactly above 0.7, the mild line exactly in (0.4, 0.7], the outstanding line exactly above 85, the low line exactly below 40 |
| HumanCentered.FatigueLines | src/scoring/human_centered.py:158-162 | the break line exactly above 0.7, the mild line exactly in (0.4, 0.7], nothing otherwise |
| HumanCentered.ConsistencyLines | src/scoring/human_centered.py:165-170 | the in-the-zone line exactly above 0.9 consistency, the fluctuating line exactly below 0.5, nothing otherwise or with insufficient data |
| HumanCentered.TrendLines | src/scoring/human_centered.py:173-178 | the improving line exactly above a 0.1 trend, the declining line exactly below -0.1, nothing otherwise or with insufficient data |
| HumanCentered.ScoreLines | src/scoring/human_centered.py:181-184 | the outstanding line exactly above 85, the low line exactly below 40, nothing otherwise |
| HumanCentered.FeedbackMentionsPatterns | src/scoring/human_centered.py:164-178 | the in-the-zone, fluctuating, improving and declining lines each appear exactly when their consistency or trend condition holds |
| HumanCentered.FeedbackOrder | src/scoring/human_centered.py:155-189 | with fatigue above 0.4 the fatigue line comes first; the steady line appears only alone |
| HumanCentered.BreakKindFor | src/scoring/human_centered.py:215-223 | long exactly above 0.7, medium exactly in (0.4, 0.7], pomodoro otherwise |
| HumanCentered.EstimateBreak | src/scoring/human_centered.py:191-235 | the tier of the fatigue level; the break is the time left until the tier's 15, 20 or 25 minutes, never negative; the next break equals it; the tier's name, description and the rationale with the level as a percentage |
| HumanCentered.BreakSoonerWhenTired | src/scoring/human_centered.py:208-223 | more fatigue or a longer session never lengthens the time until the break |
| HeadPose.Trunc | src/focus_detection/head_pose.py:94 | Python's int() on a float truncates toward zero: the result is within one of the value, on the side of zero |
| HeadPose.SafeBox | src/focus_detection/head_pose.py:92-97 | no box exactly when the truncated box has no width or no height; else the truncated corners, with x1 < x2 and y1 < y2 |
| HeadPose.WholeBoxKept | src/focus_detection/head_pose.py:92-97 | a box with whole-number corners and positive width and height passes unchanged |
| HeadPose.ThinBoxRejected | src/focus_detection/head_pose.py:94-96 | corners 10.2 and 10.9 both truncate to 10, so such a box is rejected |
| HeadPose.Estimate | src/focus_detection/head_pose.py:102-136 | the neutral pose without a box; the neutral pose carrying the box when the box truncates to nothing or to under 40 pixels on a side; the backends' pose otherwise |
| HeadPose.GuardPathsAreNeutral | src/focus_detection/head_pose.py:117-138 | every guard path reports yaw, pitch and roll of 0 and no landmarks |
| HeadPose.LargeBoxUsesBackend | src/focus_detection/head_pose.py:134-140 | a valid box at least 40 pixels on each side goes to the backends |
| HeadPose.ClampPixel | src/focus_detection/head_pose.py:78-79 | min(max(v, 0), hi) lies in 0..hi when hi is non-negative, keeps a value already inside, sends a negative value to 0 and a value above hi to hi (the nearest edge), and is hi whenever hi is negative |
| HeadPose.ToPixel | src/focus_detection/head_pose.py:78-79 | the pixel of a normalised landmark lies inside the image |
| HeadPose.PixelsFromLandmarks | src/focus_detection/head_pose.py:74-81 | one pixel per landmark, in order, each the landmark's clamped pixel and inside the image |
| HeadPose.InsideLandmarkNotClamped | src/focus_detection/head_pose.py:78-79 | a landmark inside the image lands on the pixel its scaled coordinates truncate to |
| HeadPose.RollFromEyes | src/focus_detection/head_pose.py:84-89 | 0 when the eye centres are vertically aligned, else the eye-line angle, within ±180 degrees |
| HeadPose.LevelEyesNoRoll | src/focus_detection/head_pose.py:84-89 | level eyes, the right one to the right, or vertically aligned eyes give no roll |
| GeminiMcp.Connect | src/scheduling/gemini_mcp.py:9-53 | a ValueError exactly when the key is absent or empty; otherwise the client uses the remote model exactly when the model object could be created |
| GeminiMcp.Words | src/scheduling/gemini_mcp.py:85 | the number of whitespace-separated words (Python's white-space set, including the separators 0x1C-0x1F and the Unicode spaces), at most the length |
| GeminiMcp.WordsZero | src/scheduling/gemini_mcp.py:85 | no words exactly when every character is a space |
| GeminiMcp.WordsJoin | src/scheduling/gemini_mcp.py:85 | joining two texts with a space adds their word counts |
| GeminiMcp.HeuristicEstimate | src/scheduling/gemini_mcp.py:84-88 | the fallback estimate lies within 10..480 minutes |
| GeminiMcp.HeuristicEstimateValue | src/scheduling/gemini_mcp.py:84-88 | the estimate is 15 plus 0.5 per word of name and description, capped at 480 from 930 words; never below 15 |
| GeminiMcp.HeuristicEstimateMonotone | src/scheduling/gemini_mcp.py:84-88 | a description with more words never gets a shorter estimate |
| GeminiMcp.EstimateDuration | src/scheduling/gemini_mcp.py:55-88 | the remote answer when the remote model is in use and the call succeeded, else the heuristic |
| GeminiMcp.Flagged | src/scheduling/gemini_mcp.py:127-134 | the lower-cased items containing a keyword, each at most once |
| GeminiMcp.FlaggedAppend | src/scheduling/gemini_mcp.py:127-134 | the scan keeps input order: flagging a concatenation flags each part |
| GeminiMcp.FlaggedMembers | src/scheduling/gemini_mcp.py:127-134 | a string is flagged exactly when it contains a keyword and is the lower-case form of some item |
| GeminiMcp.FlagDistractions | src/scheduling/gemini_mcp.py:127-134 | the keyword loop appends exactly the flagged items, in order |
| GeminiMcp.WithoutAttached | src/scheduling/gemini_mcp.py:137-138 | exactly the flagged items in which no lower-cased attached name occurs |
| GeminiMcp.EmptyAttachedNameSilencesAll | src/scheduling/gemini_mcp.py:137-138 | an empty attached name occurs in every item, so nothing is reported |
| GeminiMcp.NoAttachedKeepsAll | src/scheduling/gemini_mcp.py:137-138 | with no attached application nothing is removed |
| GeminiMcp.HeuristicReport | src/scheduling/gemini_mcp.py:126-145 | the fixed "nothing found" reply exactly when nothing is left; else exactly the flagged items that mention no attached application |
| GeminiMcp.ReportedDistraction | src/scheduling/gemini_mcp.py:127-145 | an open window containing a keyword is reported unless it mentions an attached application |
| GeminiMcp.HeuristicDistractions | src/scheduling/gemini_mcp.py:118-145 | without the remote model, an item is reported exactly when it is a lower-cased open window containing a keyword and mentioning no attached application |
| GeminiMcp.DetectDistractions | src/scheduling/gemini_mcp.py:90-145 | the remote reply when the remote model is in use and the call succeeded, else the heuristic report; a heuristic finding carries the fixed rationale and at least one item |
| SchedulingData.StatusValuesRoundTrip | src/scheduling/data_structures.py:6-10 | each status parses back from its value, exactly the four values parse, and a parsed value is that status's value |
| SchedulingData.StatusValueInjective | src/scheduling/data_structures.py:6-10 | distinct statuses have distinct values |
| SchedulingData.Task.Create | src/scheduling/data_structures.py:12-22 | a task from id and name alone takes every default: no description, no attached applications, due, no estimate, never started or completed |
| SchedulingData.Task.constructor | src/scheduling/data_structures.py:12-22 | a new task keeps the given fields and is due, with no estimate and no start or completion time |
| Scheduling.WithStatus | src/scheduling/scheduler.py:180-182 | only tasks of the list with that status, and every such task of the list |
| Scheduling.WithStatusAppend | src/scheduling/scheduler.py:180-182 | the filter keeps list order: filtering a concatenation filters each part |
| Scheduling.Scheduler.constructor | src/scheduling/scheduler.py:19-31 | no tasks and no current task; the estimator and the watcher share the given client |
| Scheduling.Scheduler.AddTask | src/scheduling/scheduler.py:33-44 | the given task is appended and returned; nothing else changes |
| Scheduling.Scheduler.EstimateTaskDuration | src/scheduling/scheduler.py:46-62 | an existing estimate is returned as it is; otherwise the estimator's answer is stored on the given task and returned |
| Scheduling.Scheduler.StartTask | src/scheduling/scheduler.py:64-106 | the given task is in progress from now and current; with an estimate nothing is added; without one the fresh estimate is stored and reported with its message |
| Scheduling.Scheduler.CompleteTask | src/scheduling/scheduler.py:108-136 | the given task is completed at now; the current task is cleared only when it equals this task; the actual minutes are reported when the given task had been started |
| Scheduling.Scheduler.SuspendTask | src/scheduling/scheduler.py:138-154 | only the status changes, to suspended, and the result names the given task |
| Scheduling.Scheduler.CheckDistractions | src/scheduling/scheduler.py:156-167 | the watcher's unthrottled answer for the given task's attached applications |
| Scheduling.Scheduler.GetTaskById | src/scheduling/scheduler.py:169-174 | none exactly when no task has the id; else the first task with that id |
| Scheduling.Scheduler.TasksByStatus | src/scheduling/scheduler.py:180-182 | exactly the tasks with that status |
| Scheduling.CompleteCurrent | src/scheduling/scheduler.py:118-122 | completing the current task clears the current task |
| Scheduling.SuspendCurrent | src/scheduling/scheduler.py:148-154 | suspending the current task keeps it current |
| Scheduling.AddThenFind | src/scheduling/scheduler.py:169-174 | a task added with a fresh id is found by that id |
| InspectYawn.RowsWithKey | scripts/inspect_yawn_events.py:34-40 | only rows of the input with that detection id, at most all of them |
| InspectYawn.GroupedByKey | scripts/inspect_yawn_events.py:34-40 | a group exists for a key exactly when some row has it, and each group is exactly that key's rows in input order |
| InspectYawn.GroupByState | scripts/inspect_yawn_events.py:34-40 | the loop builds exactly the groups of appending each row to its key's list |
| InspectYawn.TransitionExamples | scripts/inspect_yawn_events.py:57-84 | one example exactly at an opening or a closing, none otherwise |
| InspectYawn.AnalyzeGroup | scripts/inspect_yawn_events.py:43-93 | the row count, the counters summed over consecutive row pairs, and the first ten of the examples |
| InspectYawn.StartsAndEvalsBalance | scripts/inspect_yawn_events.py:63-80 | openings minus closings is fixed by the mouth state of the first and last rows |
| InspectYawn.CountersBounded | scripts/inspect_yawn_events.py:57-84 | no counter is negative, pending openings are openings, cleared candidates are closings, and openings plus closings are fewer than the rows |
| InspectYawn.ExamplesPerTransition | scripts/inspect_yawn_events.py:63-80 | one example per opening and per closing |
| InspectYawn.IncrementsWithinTotal | scripts/inspect_yawn_events.py:70-75 | with a never-decreasing yawn count, the counted increments are at most the increase from first to last row |
| InspectYawn.ExamplesCut | scripts/inspect_yawn_events.py:92 | at most ten examples, and all of them when there are fewer than ten openings and closings |
| OpenApps.DropLast | src/scheduling/open_apps.py:15-17 | s[:-n] followed by the dropped characters gives the string back |
| OpenApps.StripSuffixes | src/scheduling/open_apps.py:13-17 | a name with none of the three suffixes is kept; a trailing ".exe" or ".app" is cut off, then a "-bin" that ends what remains; a "-bin" alone is cut off |
| OpenApps.Title | src/scheduling/open_apps.py:35 | str.title(): same length and letters, each letter the same up to case, upper-case at the start of a letter run and lower-case inside it, other characters kept |
| OpenApps.HyphensToSpaces | src/scheduling/open_apps.py:35 | each hyphen becomes a space and every other character is kept, so no hyphen is left |
| OpenApps.DefaultNameShape | src/scheduling/open_apps.py:9-35 | an unknown process's display name has the cleaned name's length, no hyphen, and an upper-case letter at the start of each word |
| OpenApps.ExecutableSuffixIgnored | src/scheduling/open_apps.py:11-17 | a program's Windows executable name cleans to the same display name as the program |
| OpenApps.CleanPlain | src/scheduling/open_apps.py:11-33 | a lower-case name without surrounding spaces or suffixes is looked up as it is |
| OpenApps.KnownPlainName | src/scheduling/open_apps.py:19-33 | a known lower-case process name without suffixes cleans to its fixed display name |
| OpenApps.EditorName | src/scheduling/open_apps.py:23-24 | the process "code" is shown as Visual Studio Code |
| OpenApps.BrowserName | src/scheduling/open_apps.py:21-22 | the process "google-chrome" is shown as Google Chrome, not title-cased |
| OpenApps.LastSegment | src/scheduling/open_apps.py:79 | s.split(sep)[-1]: a suffix of the string containing no separator, the whole string when it has none |
| OpenApps.PlainTitleCleanedWhole | src/scheduling/open_apps.py:79 | a window title with neither separator is cleaned as a whole |
| OpenApps.SegmentAfterSeparator | src/scheduling/open_apps.py:79 | the text after the last separator is the segment taken, when no separator straddles the join |

## Left out

- Face detection, expression recognition and the capture pipeline are not modelled. These are foreign model inference. Detector boxes, pose estimates and eye results are inputs to `FocusAnalyzer`.
- The MediaPipe, InsightFace and solvePnP backends of the head-pose estimator are not modelled. `HeadPose.Estimate` takes their pose as the parameter `backend`, and the model covers only the guard paths.
- The Euclidean distance, `atan2` with `degrees`, and the square root are parameters. The model assumes only what `EyeAnalysis.IsDistance`, `HeadPose.IsAtan2Degrees` and `HumanCentered.IsSquareRoot` state.
- Measurements are exact reals, so IEEE rounding is not modelled. The formatted numbers in reports round the exact value half to even.
- The tracker's debug logging and its best-effort CSV writes under /tmp are not modelled. They never affect control flow.
- Wall-clock reads are parameters. These are the frame and per-detection clock reads, scheduler times, task creation time, the report's generation time and the CSV timestamp. Times are seconds as `real`; datetimes are not modelled.
- Threads, sleeps, Qt signals and message boxes are not modelled. This covers the alert loop, the distraction watcher and the widgets. Only the state changes of one call or one iteration are modelled.
- `FocusMonitor.FocusTracker.MonitoringLoop`: a `stop` from another thread while the loop runs is not modelled, because that needs concurrency. Stopping is modelled only before the loop starts.
- Qt layout and display code, the UI windows and the entry points are not part of this model.
- Of the score widget, only the colour, the recent window and the recent insight and recommendation rules are modelled. The average and focus scores that `refresh_display` passes to those rules are never read, so the model drops them.
- The remote model call and its JSON parsing are not modelled. The reply is an `Option` input that is None when the call or the parsing fails.
- The client constructor's probing of the library is reduced to one flag: whether a model object could be created.
- `Scheduling.Scheduler.constructor` receives one connected client. In the source, the estimator and the watcher each construct their own client from the same environment key, and a missing key raises there.
- `Scheduling.Scheduler.StartTask` has no branch for a failing estimate. The estimate cannot fail in the model: the remote path falls back to the heuristic, and the heuristic is total.
- `Scheduling.Scheduler.AllTasks` returns the list of tasks itself, so it has no contract beyond its definition.
- `Reporting.FormatInsights` and `Reporting.FormatRecommendations` return the score's own lists. `Scoring.ProductivityScoring.GetInsights` states this about its report.
- Window and process enumeration in the open-applications module is not modelled. This covers psutil, wmctrl and pygetwindow, and the name lookup by process id.
- `OpenApps.CleanAppName` and `OpenApps.TitleAppName` have no contract of their own. Their properties are the lemmas listed above.
- Lower-casing and title-casing are ASCII only, so Unicode case rules are not modelled; white space follows Python's full `str.isspace()` set.
- The inspection scripts' CSV reading, printing and `main` are not modelled.
- `InspectYawn.AnalyzeGroup` assumes the `yawn_count` column already converted to an integer. A non-numeric value, on which `int()` raises, is not modelled.
- The health tips are a constant list, kept as `Scoring.HealthTips`.
