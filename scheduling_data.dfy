/** The scheduling records: the four task states and the `Task` object,
    whose status, estimate and timestamps the scheduler updates in place.
    Times are seconds on the wall clock, read by the caller. */
module SchedulingData {
  import opened Util

  datatype TaskStatus = Due | InProgress | Completed | Suspended

  /** The string value of each status (the enum derives from `str`). */
  function StatusValue(s: TaskStatus): (v: string)
  {
    match s
    case Due => "due"
    case InProgress => "in_progress"
    case Completed => "completed"
    case Suspended => "suspended"
  }

  /** `TaskStatus(v)`: the status with that value; any other string is
      rejected (the enum raises ValueError). */
  function ParseStatus(v: string): (r: Option<TaskStatus>)
  {
    if v == "due" then Some(Due)
    else if v == "in_progress" then Some(InProgress)
    else if v == "completed" then Some(Completed)
    else if v == "suspended" then Some(Suspended)
    else None
  }

  /** Exactly four values, each named by its own string, and parsing a
      value gives the status back. */
  lemma StatusValuesRoundTrip(s: TaskStatus, v: string)
    ensures ParseStatus(StatusValue(s)) == Some(s)
    ensures ParseStatus(v).Some? <==> v in {"due", "in_progress", "completed", "suspended"}
    ensures ParseStatus(v).Some? ==> StatusValue(ParseStatus(v).value) == v
  {
  }

  /** Distinct statuses have distinct values. */
  lemma StatusValueInjective(a: TaskStatus, b: TaskStatus)
    requires StatusValue(a) == StatusValue(b)
    ensures a == b
  {
    StatusValuesRoundTrip(a, "");
    StatusValuesRoundTrip(b, "");
  }

  /** `Task`: identity, name, description and attached applications are
      fixed once created; status, estimate and start/completion times
      change as a task moves through its lifecycle. */
  class Task {
    const id: int
    const name: string
    const description: string
    const attachedApps: seq<string>
    const createdAt: real
    var status: TaskStatus
    var estimatedMinutes: Option<real>
    var startedAt: Option<real>
    var completedAt: Option<real>

    /** `Task(id, name)` with every default: no description, no attached
        application, due, no estimate, never started or completed. */
    constructor Create(id: int, name: string, createdAt: real)
      ensures this.id == id && this.name == name && this.createdAt == createdAt
      ensures description == "" && attachedApps == []
      ensures status == Due && estimatedMinutes == None
      ensures startedAt == None && completedAt == None
    {
      this.id := id;
      this.name := name;
      this.createdAt := createdAt;
      description := "";
      attachedApps := [];
      status := Due;
      estimatedMinutes := None;
      startedAt := None;
      completedAt := None;
    }

    /** `Task(id, name, description, attached_apps)`: a new task is due,
        with no estimate and no start or completion time. */
    constructor (id: int, name: string, description: string, attachedApps: seq<string>, createdAt: real)
      ensures this.id == id && this.name == name && this.description == description
      ensures this.attachedApps == attachedApps && this.createdAt == createdAt
      ensures status == Due && estimatedMinutes == None
      ensures startedAt == None && completedAt == None
    {
      this.id := id;
      this.name := name;
      this.description := description;
      this.attachedApps := attachedApps;
      this.createdAt := createdAt;
      status := Due;
      estimatedMinutes := None;
      startedAt := None;
      completedAt := None;
    }
  }

  /** Dataclass equality: two tasks are equal when every field is. */
  predicate SameTask(a: Task, b: Task)
    reads a, b
  {
    a.id == b.id && a.name == b.name && a.description == b.description &&
    a.attachedApps == b.attachedApps && a.createdAt == b.createdAt &&
    a.status == b.status && a.estimatedMinutes == b.estimatedMinutes &&
    a.startedAt == b.startedAt && a.completedAt == b.completedAt
  }
}
