/** The distraction watcher: a check of the open windows against the
    current task, run at most once a minute when called from the
    periodic path and without any throttle when called on demand. The
    clock, the list of open windows and the remote reply are inputs. */
module FeedbackLoop {
  import opened Util
  import opened SchedulingData
  import opened GeminiMcp

  /** Seconds between two throttled checks. */
  const CheckInterval := 60.0

  class DistractionWatcher {
    const mcp: Mcp
    const checkInterval: real
    var lastCheck: real

    /** A new watcher has never checked: its last check is at time 0. */
    constructor (mcp: Mcp)
      ensures this.mcp == mcp && checkInterval == CheckInterval && lastCheck == 0.0
    {
      this.mcp := mcp;
      checkInterval := CheckInterval;
      lastCheck := 0.0;
    }

    /** `maybe_warn`: less than the interval after the last check nothing
        happens; otherwise the check time is recorded first and the check
        runs. `raised` says that the check or the warning dialog raised,
        which yields None with the new check time kept. */
    method MaybeWarn(task: Task, now: real, openItems: seq<string>, reply: Option<DistractionReport>, raised: bool)
      returns (r: Option<DistractionReport>)
      modifies this`lastCheck
      ensures now - old(lastCheck) < checkInterval ==> r == None && lastCheck == old(lastCheck)
      ensures now - old(lastCheck) >= checkInterval ==> lastCheck == now
      ensures now - old(lastCheck) >= checkInterval ==>
        r == (if raised then None else Some(Distractions(mcp, task.attachedApps, openItems, reply)))
    {
      if now - lastCheck < checkInterval {
        return None;
      }
      lastCheck := now;
      var result := DetectDistractions(mcp, task.attachedApps, openItems, reply);
      if raised {
        r := None;
      } else {
        r := Some(result);
      }
    }

    /** `check_distractions_sync`: the check itself, with no throttle and
        without touching the last check time. */
    method CheckDistractionsSync(task: Task, openItems: seq<string>, reply: Option<DistractionReport>)
      returns (r: DistractionReport)
      ensures r == Distractions(mcp, task.attachedApps, openItems, reply)
    {
      r := DetectDistractions(mcp, task.attachedApps, openItems, reply);
    }
  }

  /** Two periodic calls less than a minute apart: the second one is
      skipped whatever the first one did. */
  method ThrottledWithinAMinute(w: DistractionWatcher, task: Task, t: real, dt: real, openItems: seq<string>,
                                reply: Option<DistractionReport>, raised: bool)
    returns (first: Option<DistractionReport>, second: Option<DistractionReport>)
    requires 0.0 <= dt < CheckInterval && w.checkInterval == CheckInterval
    requires t - w.lastCheck >= CheckInterval
    modifies w
    ensures second == None && w.lastCheck == t
  {
    first := w.MaybeWarn(task, t, openItems, reply, raised);
    second := w.MaybeWarn(task, t + dt, openItems, reply, raised);
  }
}
