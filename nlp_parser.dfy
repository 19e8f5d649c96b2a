/** The duration estimator: an estimate cached on each task. */
module NlpParser {
  import opened Util
  import opened SchedulingData
  import opened GeminiMcp

  class DurationEstimator {
    const mcp: Mcp

    constructor (mcp: Mcp)
      ensures this.mcp == mcp
    {
      this.mcp := mcp;
    }

    /** `estimate_task_duration`: an estimate already on the given task is
        returned unchanged; otherwise the client's estimate is stored on
        the given task and returned. Either way the given task has an estimate after
        the call, and it is the returned value. */
    method EstimateTaskDuration(task: Task, reply: Option<real>) returns (minutes: real)
      modifies task`estimatedMinutes
      ensures task.estimatedMinutes == Some(minutes)
      ensures old(task.estimatedMinutes).Some? ==> minutes == old(task.estimatedMinutes).value
      ensures old(task.estimatedMinutes).None? ==>
        minutes == EstimateDuration(mcp, reply, task.name, task.description)
    {
      if task.estimatedMinutes.Some? {
        return task.estimatedMinutes.value;
      }
      minutes := EstimateDuration(mcp, reply, task.name, task.description);
      task.estimatedMinutes := Some(minutes);
    }
  }

  /** The cache makes the estimate idempotent: a second call returns the
      first call's value, whatever the remote model answers then. */
  method EstimateTwice(e: DurationEstimator, task: Task, reply1: Option<real>, reply2: Option<real>)
    returns (first: real, second: real)
    modifies task
    ensures first == second && task.estimatedMinutes == Some(first)
  {
    first := e.EstimateTaskDuration(task, reply1);
    second := e.EstimateTaskDuration(task, reply2);
  }
}
