/** The concentration monitor: a loop that raises one alert once the user
    has not been concentrating for six seconds, and no further alert
    until concentration returns. Each iteration's reading and clock value
    are inputs; the sleep between iterations and the thread are not
    modelled. */
module FocusMonitor {

  /** Seconds of non-concentration before the alert. */
  const WarningThreshold := 6.0

  /** What one iteration sees: whether the user is concentrating, and
      the clock. */
  datatype Reading = Reading(concentrating: bool, time: real)

  /** The loop's two variables: when non-concentration began (the last
      concentrating reading, or the start), and whether an alert is
      active. */
  datatype Monitor = Monitor(start: real, alertActive: bool)

  /** The state before the first iteration. */
  function Begin(now: real): (m: Monitor)
    ensures !m.alertActive
  {
    Monitor(now, false)
  }

  /** The alert fires in this iteration. */
  predicate Fires(m: Monitor, x: Reading)
  {
    !x.concentrating && !m.alertActive && x.time - m.start >= WarningThreshold
  }

  /** One iteration: a concentrating reading restarts the clock and
      clears the alert; otherwise an inactive alert fires once the
      threshold has passed. */
  function Step(m: Monitor, x: Reading): (r: Monitor)
    ensures x.concentrating ==> r == Monitor(x.time, false)
    ensures !x.concentrating ==> r.start == m.start
    ensures r.alertActive <==> !x.concentrating && (m.alertActive || Fires(m, x))
  {
    if x.concentrating then Monitor(x.time, false)
    else if !m.alertActive && x.time - m.start >= WarningThreshold then m.(alertActive := true)
    else m
  }

  /** The iterations over `xs`: the final state and, per iteration,
      whether the alert fired. */
  function Run(m: Monitor, xs: seq<Reading>): (r: (Monitor, seq<bool>))
    ensures |r.1| == |xs|
  {
    if xs == [] then (m, [])
    else
      var prev := Run(m, xs[..|xs| - 1]);
      (Step(prev.0, xs[|xs| - 1]), prev.1 + [Fires(prev.0, xs[|xs| - 1])])
  }

  /** Once an alert is active, readings without concentration fire
      nothing and leave it active. */
  lemma {:induction false} QuietWhileActive(m: Monitor, xs: seq<Reading>)
    requires m.alertActive
    requires forall k :: 0 <= k < |xs| ==> !xs[k].concentrating
    ensures Run(m, xs).0.alertActive
    ensures forall k :: 0 <= k < |xs| ==> !Run(m, xs).1[k]
  {
    if xs != [] {
      var p := xs[..|xs| - 1];
      QuietWhileActive(m, p);
      assert forall k :: 0 <= k < |p| ==> Run(m, xs).1[k] == Run(m, p).1[k];
    }
  }

  /** Running two stretches of readings one after the other is running
      them together. */
  lemma {:induction false} RunAppend(m: Monitor, xs: seq<Reading>, ys: seq<Reading>)
    ensures Run(m, xs + ys) == (Run(Run(m, xs).0, ys).0, Run(m, xs).1 + Run(Run(m, xs).0, ys).1)
  {
    if ys == [] {
      assert xs + ys == xs;
      assert Run(m, xs).1 + [] == Run(m, xs).1;
    } else {
      var ys' := ys[..|ys| - 1];
      RunAppend(m, xs, ys');
      assert (xs + ys)[..|xs + ys| - 1] == xs + ys';
      assert (xs + ys)[|xs + ys| - 1] == ys[|ys| - 1];
      var m1 := Run(m, xs).0;
      var y := ys[|ys| - 1];
      var prev := Run(m1, ys');
      assert Run(m1, ys) == (Step(prev.0, y), prev.1 + [Fires(prev.0, y)]);
      assert Run(m, xs + ys) == (Step(prev.0, y), Run(m, xs + ys').1 + [Fires(prev.0, y)]);
      assert Run(m, xs + ys').1 + [Fires(prev.0, y)] == Run(m, xs).1 + (prev.1 + [Fires(prev.0, y)]);
    }
  }

  /** Between two alerts there is a concentrating reading: after an alert
      fires, a stretch without concentration fires no other. */
  lemma NoSecondAlertWithoutConcentration(m: Monitor, xs: seq<Reading>, x: Reading, ys: seq<Reading>)
    requires Fires(Run(m, xs).0, x)
    requires forall k :: 0 <= k < |ys| ==> !ys[k].concentrating
    ensures forall k :: |xs| < k <= |xs| + |ys| ==> !Run(m, xs + [x] + ys).1[k]
  {
    var m1 := Run(m, xs + [x]).0;
    assert (xs + [x])[..|xs + [x]| - 1] == xs;
    assert m1.alertActive;
    QuietWhileActive(m1, ys);
    RunAppend(m, xs + [x], ys);
    assert |Run(m, xs + [x]).1| == |xs| + 1;
  }

  /** Six seconds without concentration from a fresh start raise the
      alert; five do not. */
  lemma AlertAfterSixSeconds(t: real)
    ensures Run(Begin(t), [Reading(false, t + 5.0), Reading(false, t + 6.0)]).1 == [false, true]
  {
    var a := [Reading(false, t + 5.0)];
    var xs := a + [Reading(false, t + 6.0)];
    assert a[..0] == [];
    assert Run(Begin(t), a[..0]) == (Begin(t), []);
    assert !Fires(Begin(t), a[0]);
    assert Step(Begin(t), a[0]) == Begin(t);
    assert Run(Begin(t), a).0 == Begin(t);
    assert Run(Begin(t), a).1 == [false];
    assert Run(Begin(t), a) == (Begin(t), [false]);
    assert xs[..1] == a;
  }

  /** The monitor object: the loop runs while `isRunning` holds. */
  class FocusTracker {
    var isRunning: bool

    constructor ()
      ensures isRunning
    {
      isRunning := true;
    }

    /** `stop`: the loop will not begin another iteration. */
    method Stop()
      modifies this
      ensures !isRunning
    {
      isRunning := false;
    }

    /** `monitoring_loop` over the readings it sees before it is stopped:
        the alerts it emits are those of `Run` from the start time; a
        stopped tracker runs no iteration. */
    method MonitoringLoop(startTime: real, xs: seq<Reading>) returns (alerts: seq<bool>, last: Monitor)
      ensures isRunning ==> (last, alerts) == Run(Begin(startTime), xs)
      ensures !isRunning ==> alerts == [] && last == Begin(startTime)
    {
      var nonConcentrationStart := startTime;
      var isAlertActive := false;
      alerts := [];
      var i := 0;
      while isRunning && i < |xs|
        invariant 0 <= i <= |xs|
        invariant !isRunning ==> i == 0 && alerts == [] && nonConcentrationStart == startTime && !isAlertActive
        invariant isRunning ==> (Monitor(nonConcentrationStart, isAlertActive), alerts) == Run(Begin(startTime), xs[..i])
      {
        var concentratingNow := xs[i].concentrating;
        var currentTime := xs[i].time;
        var fired := false;
        if concentratingNow {
          nonConcentrationStart := currentTime;
          isAlertActive := false;
        } else if !isAlertActive {
          var nonConcentrationDuration := currentTime - nonConcentrationStart;
          if nonConcentrationDuration >= WarningThreshold {
            fired := true;
            isAlertActive := true;
          }
        }
        alerts := alerts + [fired];
        assert xs[..i + 1][..i] == xs[..i];
        i := i + 1;
      }
      if isRunning {
        assert xs[..|xs|] == xs;
      }
      last := Monitor(nonConcentrationStart, isAlertActive);
    }
  }
}
