/** The scheduler: an ordered list of tasks, the current one,
    and the lifecycle moves due -> in progress -> completed or suspended.
    The wall clock and the remote model's replies are inputs. */
module Scheduling {
  import opened Util
  import opened Format
  import opened SchedulingData
  import opened GeminiMcp
  import opened NlpParser
  import opened FeedbackLoop

  /** The dictionary returned by `start_task`. */
  datatype StartResult = StartResult(
    status: string, taskName: string, taskId: int,
    messages: seq<string>, estimatedMinutes: Option<real>)

  /** The dictionary returned by `complete_task`. */
  datatype CompleteResult = CompleteResult(
    status: string, taskName: string, taskId: int,
    estimatedMinutes: Option<real>, actualMinutes: Option<real>)

  /** The dictionary returned by `suspend_task`. */
  datatype SuspendResult = SuspendResult(status: string, taskName: string, taskId: int)

  /** The message reporting a fresh estimate, rounded to whole minutes. */
  function EstimateMessage(name: string, minutes: real): string
  {
    "Gemini estimated '" + name + "': " + FixedPoint(minutes, 0) + " minutes"
  }

  /** The tasks in `tasks` with the given status, in list order. */
  function WithStatus(tasks: seq<Task>, status: TaskStatus): (r: seq<Task>)
    reads set t | t in tasks
    ensures |r| <= |tasks|
    ensures forall i :: 0 <= i < |r| ==> r[i] in tasks && r[i].status == status
    ensures forall i :: 0 <= i < |tasks| && tasks[i].status == status ==> tasks[i] in r
  {
    if tasks == [] then []
    else
      var rest := WithStatus(tasks[1..], status);
      if tasks[0].status == status then [tasks[0]] + rest else rest
  }

  /** The filter keeps list order: filtering a concatenation filters
      each part. */
  lemma {:induction false} WithStatusAppend(a: seq<Task>, b: seq<Task>, status: TaskStatus)
    ensures WithStatus(a + b, status) == WithStatus(a, status) + WithStatus(b, status)
  {
    if a == [] {
      assert a + b == b;
    } else {
      assert (a + b)[1..] == a[1..] + b;
      WithStatusAppend(a[1..], b, status);
    }
  }

  /** The first index of a task with the given id, if any. */
  predicate FirstWithId(tasks: seq<Task>, id: int, i: int)
  {
    0 <= i < |tasks| && tasks[i].id == id && forall j :: 0 <= j < i ==> tasks[j].id != id
  }

  class Scheduler {
    var tasks: seq<Task>
    var currentTask: Task?
    const estimator: DurationEstimator
    const watcher: DistractionWatcher

    /** A scheduler with no tasks and no current task. */
    constructor (mcp: Mcp)
      ensures tasks == [] && currentTask == null
      ensures estimator.mcp == mcp && watcher.mcp == mcp
    {
      tasks := [];
      currentTask := null;
      estimator := new DurationEstimator(mcp);
      watcher := new DistractionWatcher(mcp);
    }

    /** `add_task`: the given task goes to the end of the list and is returned. */
    method AddTask(task: Task) returns (added: Task)
      modifies this`tasks
      ensures tasks == old(tasks) + [task] && added == task
    {
      tasks := tasks + [task];
      added := task;
    }

    /** `estimate_task_duration`: an existing estimate is returned without
        asking the estimator; otherwise the estimator's value is stored
        on the given task. */
    method EstimateTaskDuration(task: Task, reply: Option<real>) returns (minutes: real)
      modifies task`estimatedMinutes
      ensures task.estimatedMinutes == Some(minutes)
      ensures old(task.estimatedMinutes).Some? ==> minutes == old(task.estimatedMinutes).value
      ensures old(task.estimatedMinutes).None? ==>
        minutes == EstimateDuration(estimator.mcp, reply, task.name, task.description)
    {
      if task.estimatedMinutes.Some? {
        return task.estimatedMinutes.value;
      }
      minutes := estimator.EstimateTaskDuration(task, reply);
      task.estimatedMinutes := Some(minutes);
    }

    /** `start_task`: the given task is in progress from `now` and becomes the
        current task; it is estimated (and the estimate reported) only
        when it had no estimate. */
    method StartTask(task: Task, now: real, reply: Option<real>) returns (result: StartResult)
      modifies this`currentTask, task`status, task`startedAt, task`estimatedMinutes
      ensures task.status == InProgress && task.startedAt == Some(now) && currentTask == task
      ensures task.completedAt == old(task.completedAt)
      ensures result.status == "started" && result.taskName == task.name && result.taskId == task.id
      ensures old(task.estimatedMinutes).Some? ==>
        task.estimatedMinutes == old(task.estimatedMinutes) && result.messages == [] && result.estimatedMinutes == None
      ensures old(task.estimatedMinutes).None? ==>
        var d := EstimateDuration(estimator.mcp, reply, task.name, task.description);
        task.estimatedMinutes == Some(d) && result.estimatedMinutes == Some(d) &&
        result.messages == [EstimateMessage(task.name, d)]
    {
      task.status := InProgress;
      task.startedAt := Some(now);
      currentTask := task;
      result := StartResult("started", task.name, task.id, [], None);
      if task.estimatedMinutes.None? {
        var duration := EstimateTaskDuration(task, reply);
        result := result.(messages := [EstimateMessage(task.name, duration)], estimatedMinutes := Some(duration));
      }
    }

    /** `complete_task`: the given task is completed at `now`; the current task
        is cleared only if it equals this task (field by field, as
        dataclasses compare); the actual duration in minutes is reported
        when the given task had been started. */
    method CompleteTask(task: Task, now: real) returns (result: CompleteResult)
      modifies this`currentTask, task`status, task`completedAt
      ensures task.status == Completed && task.completedAt == Some(now)
      ensures task.startedAt == old(task.startedAt) && task.estimatedMinutes == old(task.estimatedMinutes)
      ensures currentTask == if old(currentTask) != null && SameTask(old(currentTask), task) then null else old(currentTask)
      ensures result == CompleteResult("completed", task.name, task.id, task.estimatedMinutes,
        if task.startedAt.Some? then Some((now - task.startedAt.value) / 60.0) else None)
    {
      task.status := Completed;
      task.completedAt := Some(now);
      if currentTask != null && SameTask(currentTask, task) {
        currentTask := null;
      }
      var actual: Option<real> := None;
      if task.startedAt.Some? && task.completedAt.Some? {
        actual := Some((task.completedAt.value - task.startedAt.value) / 60.0);
      }
      result := CompleteResult("completed", task.name, task.id, task.estimatedMinutes, actual);
    }

    /** `suspend_task`: only the given task's status changes. */
    method SuspendTask(task: Task) returns (result: SuspendResult)
      modifies task`status
      ensures task.status == Suspended
      ensures result == SuspendResult("suspended", task.name, task.id)
    {
      task.status := Suspended;
      result := SuspendResult("suspended", task.name, task.id);
    }

    /** `check_distractions`: the watcher's unthrottled check. */
    method CheckDistractions(task: Task, openItems: seq<string>, reply: Option<DistractionReport>)
      returns (r: DistractionReport)
      ensures r == Distractions(watcher.mcp, task.attachedApps, openItems, reply)
    {
      r := watcher.CheckDistractionsSync(task, openItems, reply);
    }

    /** `get_task_by_id`: the first task with that id, or none. */
    method GetTaskById(id: int) returns (found: Task?)
      ensures found == null <==> forall i :: 0 <= i < |tasks| ==> tasks[i].id != id
      ensures found != null ==> exists i :: FirstWithId(tasks, id, i) && tasks[i] == found
    {
      for i := 0 to |tasks|
        invariant forall j :: 0 <= j < i ==> tasks[j].id != id
      {
        if tasks[i].id == id {
          assert FirstWithId(tasks, id, i);
          return tasks[i];
        }
      }
      return null;
    }

    /** `get_all_tasks` */
    function AllTasks(): seq<Task>
      reads this
    {
      tasks
    }

    /** `get_tasks_by_status`: the tasks with that status, in list order. */
    function TasksByStatus(status: TaskStatus): (r: seq<Task>)
      reads this, set t | t in tasks
      ensures forall i :: 0 <= i < |r| ==> r[i] in tasks && r[i].status == status
      ensures forall i :: 0 <= i < |tasks| && tasks[i].status == status ==> tasks[i] in r
    {
      WithStatus(tasks, status)
    }
  }

  /** Completing the current task clears the current task. */
  method CompleteCurrent(s: Scheduler, task: Task, now: real) returns (result: CompleteResult)
    requires s.currentTask == task
    modifies s, task
    ensures s.currentTask == null && task.status == Completed
  {
    result := s.CompleteTask(task, now);
  }

  /** Suspending the current task keeps it current. */
  method SuspendCurrent(s: Scheduler, task: Task) returns (result: SuspendResult)
    requires s.currentTask == task
    modifies task
    ensures s.currentTask == task && task.status == Suspended
  {
    result := s.SuspendTask(task);
  }

  /** A task added to a scheduler is found by its id unless an earlier
      task has the same id. */
  method AddThenFind(s: Scheduler, task: Task) returns (found: Task?)
    requires forall i :: 0 <= i < |s.tasks| ==> s.tasks[i].id != task.id
    modifies s
    ensures found == task
  {
    var added := s.AddTask(task);
    found := s.GetTaskById(task.id);
    assert FirstWithId(s.tasks, task.id, |s.tasks| - 1);
  }
}
