/** The yawn-event inspection script's analysis: rows of the focus event
    log grouped by detection id, and per group the mouth-open and
    mouth-close transitions counted row against previous row. Reading
    the CSV file and printing the report are not modelled. */
module InspectYawn {
  import opened Util

  /** One event-log row, with the columns the analysis reads. A column
      missing from the row is `None`; `yawnCount` is the column already
      converted to an integer. */
  datatype Row = Row(
    detectionIdx: Option<string>,
    mouthOpen: Option<string>,
    pendingYawn: Option<string>,
    yawnCount: Option<int>,
    frameId: Option<string>,
    timestamp: Option<string>,
    mar: Option<string>)

  /** A flag column holds exactly the text "True" (missing reads "False"). */
  predicate MouthOpen(r: Row) { r.mouthOpen == Some("True") }
  predicate Pending(r: Row) { r.pendingYawn == Some("True") }

  /** The yawn count, 0 when the column is missing. */
  function Yawns(r: Row): int
  {
    if r.yawnCount.Some? then r.yawnCount.value else 0
  }

  // ---------------------------------------------------------------------
  // group_by_state

  /** The rows of `rows` whose detection id is `key`, in order. */
  function RowsWithKey(rows: seq<Row>, key: Option<string>): (r: seq<Row>)
    ensures |r| <= |rows|
    ensures forall i :: 0 <= i < |r| ==> r[i] in rows && r[i].detectionIdx == key
  {
    if rows == [] then []
    else
      var rest := RowsWithKey(rows[..|rows| - 1], key);
      if rows[|rows| - 1].detectionIdx == key then rest + [rows[|rows| - 1]] else rest
  }

  /** The groups after appending each row, in turn, to its key's list. */
  function Grouped(rows: seq<Row>): map<Option<string>, seq<Row>>
  {
    if rows == [] then map[]
    else
      var g := Grouped(rows[..|rows| - 1]);
      var r := rows[|rows| - 1];
      g[r.detectionIdx := (if r.detectionIdx in g then g[r.detectionIdx] else []) + [r]]
  }

  /** Each group holds exactly the rows with its key, in their order, and
      there is a group for a key exactly when some row has it; so every
      row is in one group, its own key's. */
  lemma {:induction false} GroupedByKey(rows: seq<Row>, key: Option<string>)
    ensures key in Grouped(rows) <==> exists i :: 0 <= i < |rows| && rows[i].detectionIdx == key
    ensures key in Grouped(rows) ==> Grouped(rows)[key] == RowsWithKey(rows, key)
    ensures key !in Grouped(rows) ==> RowsWithKey(rows, key) == []
  {
    if rows != [] {
      var p := rows[..|rows| - 1];
      GroupedByKey(p, key);
      assert forall i :: 0 <= i < |p| ==> p[i] == rows[i];
      if rows[|rows| - 1].detectionIdx == key {
        assert key in Grouped(rows);
      } else if key in Grouped(rows) {
        var i :| 0 <= i < |p| && p[i].detectionIdx == key;
        assert rows[i].detectionIdx == key;
      }
    }
  }

  /** `group_by_state`: each row appended, in order, to the list of its
      detection id. */
  method GroupByState(rows: seq<Row>) returns (groups: map<Option<string>, seq<Row>>)
    ensures groups == Grouped(rows)
  {
    groups := map[];
    for i := 0 to |rows|
      invariant groups == Grouped(rows[..i])
    {
      var r := rows[i];
      var key := r.detectionIdx;
      var current := if key in groups then groups[key] else [];
      groups := groups[key := current + [r]];
      assert rows[..i + 1][..i] == rows[..i];
    }
    assert rows[..|rows|] == rows;
  }

  // ---------------------------------------------------------------------
  // analyze_group

  datatype ExampleKind = Start | Increment | EvalNoInc

  /** The value in an example: the pending flag, or the yawn increase. */
  datatype ExampleDetail = PendingFlag(pending: bool) | Increase(amount: int)

  /** An example tuple: frame id, kind, timestamp, detail, mouth ratio. */
  datatype Example = Example(
    frameId: Option<string>, kind: ExampleKind, timestamp: Option<string>,
    detail: ExampleDetail, mar: Option<string>)

  datatype Counts = Counts(
    mouthStarts: int, evals: int, increments: int,
    pendingAtStart: int, pendingCleared: int)

  /** The dictionary returned for one group. */
  datatype Summary = Summary(
    rows: int, mouthStarts: int, evals: int, increments: int,
    pendingAtStart: int, pendingCleared: int, examples: seq<Example>)

  /** The mouth opens at `r`. */
  predicate Opens(prev: Row, r: Row) { !MouthOpen(prev) && MouthOpen(r) }

  /** The mouth closes at `r`. */
  predicate Closes(prev: Row, r: Row) { MouthOpen(prev) && !MouthOpen(r) }

  /** What the transition from `prev` to `r` adds to the counters. */
  function Transition(prev: Row, r: Row): Counts
  {
    var opens := Opens(prev, r);
    var closes := Closes(prev, r);
    Counts(
      if opens then 1 else 0,
      if closes then 1 else 0,
      if closes && Yawns(r) > Yawns(prev) then Yawns(r) - Yawns(prev) else 0,
      if opens && Pending(r) then 1 else 0,
      if closes && !Pending(prev) then 1 else 0)
  }

  /** The examples the transition from `prev` to `r` records: one on an
      opening, one on a closing (an increment or an evaluation without
      one), none otherwise. */
  function TransitionExamples(prev: Row, r: Row): (e: seq<Example>)
    ensures |e| == (if Opens(prev, r) || Closes(prev, r) then 1 else 0)
  {
    if Opens(prev, r) then
      [Example(r.frameId, Start, r.timestamp, PendingFlag(Pending(r)), r.mar)]
    else if Closes(prev, r) then
      if Yawns(r) > Yawns(prev) then
        [Example(r.frameId, Increment, r.timestamp, Increase(Yawns(r) - Yawns(prev)), r.mar)]
      else
        [Example(r.frameId, EvalNoInc, r.timestamp, PendingFlag(Pending(r)), r.mar)]
    else []
  }

  function Add(a: Counts, b: Counts): Counts
  {
    Counts(a.mouthStarts + b.mouthStarts, a.evals + b.evals, a.increments + b.increments,
      a.pendingAtStart + b.pendingAtStart, a.pendingCleared + b.pendingCleared)
  }

  /** The counters over all consecutive pairs of `rs`. */
  function Tally(rs: seq<Row>): (c: Counts)
    requires |rs| > 0
  {
    if |rs| == 1 then Counts(0, 0, 0, 0, 0)
    else Add(Tally(rs[..|rs| - 1]), Transition(rs[|rs| - 2], rs[|rs| - 1]))
  }

  /** Every example recorded over `rs`, before the cut to ten. */
  function AllExamples(rs: seq<Row>): (e: seq<Example>)
    requires |rs| > 0
  {
    if |rs| == 1 then []
    else AllExamples(rs[..|rs| - 1]) + TransitionExamples(rs[|rs| - 2], rs[|rs| - 1])
  }

  /** `analyze_group`: the row count, the counters over consecutive rows,
      and the first ten examples. The group must not be empty: its first
      row seeds the previous-row values. */
  method AnalyzeGroup(rs: seq<Row>) returns (s: Summary)
    requires |rs| > 0
    ensures s.rows == |rs|
    ensures var c := Tally(rs);
      s.mouthStarts == c.mouthStarts && s.evals == c.evals && s.increments == c.increments &&
      s.pendingAtStart == c.pendingAtStart && s.pendingCleared == c.pendingCleared
    ensures var e := AllExamples(rs); s.examples == e[..if |e| < 10 then |e| else 10]
  {
    var prevMouth := MouthOpen(rs[0]);
    var prevPending := Pending(rs[0]);
    var prevYawn := Yawns(rs[0]);
    var mouthStarts, evals, increments, pendingAtStart, pendingCleared := 0, 0, 0, 0, 0;
    var examples: seq<Example> := [];
    for i := 1 to |rs|
      invariant prevMouth == MouthOpen(rs[i - 1]) && prevPending == Pending(rs[i - 1]) && prevYawn == Yawns(rs[i - 1])
      invariant Counts(mouthStarts, evals, increments, pendingAtStart, pendingCleared) == Tally(rs[..i])
      invariant examples == AllExamples(rs[..i])
    {
      var r := rs[i];
      var mouth := MouthOpen(r);
      var pending := Pending(r);
      var yawn := Yawns(r);
      if !prevMouth && mouth {
        mouthStarts := mouthStarts + 1;
        if pending {
          pendingAtStart := pendingAtStart + 1;
        }
        examples := examples + [Example(r.frameId, Start, r.timestamp, PendingFlag(pending), r.mar)];
      }
      if prevMouth && !mouth {
        evals := evals + 1;
        if yawn > prevYawn {
          increments := increments + (yawn - prevYawn);
          examples := examples + [Example(r.frameId, Increment, r.timestamp, Increase(yawn - prevYawn), r.mar)];
        } else {
          examples := examples + [Example(r.frameId, EvalNoInc, r.timestamp, PendingFlag(pending), r.mar)];
        }
        if !prevPending {
          pendingCleared := pendingCleared + 1;
        }
      }
      prevMouth := mouth;
      prevPending := pending;
      prevYawn := yawn;
      assert rs[..i + 1][..i] == rs[..i];
    }
    assert rs[..|rs|] == rs;
    var cut := if |examples| < 10 then |examples| else 10;
    s := Summary(|rs|, mouthStarts, evals, increments, pendingAtStart, pendingCleared, examples[..cut]);
  }

  // ---------------------------------------------------------------------
  // Properties of the analysis

  function Bit(b: bool): int { if b then 1 else 0 }

  /** Openings and closings alternate: their difference is fixed by the
      mouth state of the first and last rows, so it is -1, 0 or 1. */
  lemma {:induction false} StartsAndEvalsBalance(rs: seq<Row>)
    requires |rs| > 0
    ensures Tally(rs).mouthStarts - Tally(rs).evals == Bit(MouthOpen(rs[|rs| - 1])) - Bit(MouthOpen(rs[0]))
  {
    if |rs| > 1 {
      var p := rs[..|rs| - 1];
      StartsAndEvalsBalance(p);
      assert p[0] == rs[0] && p[|p| - 1] == rs[|rs| - 2];
    }
  }

  /** No counter is negative; a pending opening is an opening, and a
      missed candidate is an evaluation. */
  lemma {:induction false} CountersBounded(rs: seq<Row>)
    requires |rs| > 0
    ensures var c := Tally(rs);
      0 <= c.pendingAtStart <= c.mouthStarts && 0 <= c.pendingCleared <= c.evals &&
      0 <= c.increments && c.mouthStarts + c.evals < |rs|
  {
    if |rs| > 1 {
      CountersBounded(rs[..|rs| - 1]);
    }
  }

  /** One example is recorded per opening and per closing. */
  lemma {:induction false} ExamplesPerTransition(rs: seq<Row>)
    requires |rs| > 0
    ensures |AllExamples(rs)| == Tally(rs).mouthStarts + Tally(rs).evals
  {
    if |rs| > 1 {
      ExamplesPerTransition(rs[..|rs| - 1]);
    }
  }

  /** When the yawn count never decreases, the increments counted at
      closings are at most the total increase over the group. */
  lemma {:induction false} IncrementsWithinTotal(rs: seq<Row>)
    requires |rs| > 0
    requires forall i :: 0 < i < |rs| ==> Yawns(rs[i - 1]) <= Yawns(rs[i])
    ensures Tally(rs).increments <= Yawns(rs[|rs| - 1]) - Yawns(rs[0])
  {
    if |rs| > 1 {
      var p := rs[..|rs| - 1];
      assert forall i :: 0 <= i < |p| ==> p[i] == rs[i];
      IncrementsWithinTotal(p);
    }
  }

  /** The returned examples are at most ten, and are all of them when the
      group has fewer than ten openings and closings. */
  lemma ExamplesCut(rs: seq<Row>, s: Summary)
    requires |rs| > 0
    requires var e := AllExamples(rs); s.examples == e[..if |e| < 10 then |e| else 10]
    ensures |s.examples| <= 10
    ensures Tally(rs).mouthStarts + Tally(rs).evals < 10 ==> s.examples == AllExamples(rs)
  {
    ExamplesPerTransition(rs);
  }
}
