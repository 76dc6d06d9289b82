/** The domain records of the task manager: priorities, tasks, projects, and
    the shapes the store's operations take as arguments (a task or project
    without its generated fields, and a partial task). */
module Types {
  import opened Wrappers

  /** The four urgency levels; their order carries no behaviour. */
  datatype Priority = Low | Medium | High | Urgent

  /** Every priority, in declaration order. */
  const AllPriorities: seq<Priority> := [Low, Medium, High, Urgent]

  /** The string a priority is written as. */
  function PriorityName(p: Priority): string {
    match p
    case Low => "low"
    case Medium => "medium"
    case High => "high"
    case Urgent => "urgent"
  }

  /** The priority a string names, if it names one. */
  function ParsePriority(s: string): (r: Option<Priority>)
    ensures r.Some? ==> PriorityName(r.value) == s
  {
    if s == "low" then Some(Low)
    else if s == "medium" then Some(Medium)
    else if s == "high" then Some(High)
    else if s == "urgent" then Some(Urgent)
    else None
  }

  /** There are exactly four priorities, with four distinct names, and parsing
      a name gives back its priority. */
  lemma PriorityExactlyFour(p: Priority)
    ensures p in AllPriorities && |AllPriorities| == 4
    ensures forall i, j :: 0 <= i < j < 4 ==> PriorityName(AllPriorities[i]) != PriorityName(AllPriorities[j])
    ensures ParsePriority(PriorityName(p)) == Some(p)
  {
  }

  /** A point in time, as milliseconds on the local wall clock (the time zone
      is folded in, so that local midnight is a multiple of a day's length). */
  datatype Date = Date(millis: int)

  /** A task. `dueDate` may be absent; `createdAt`, `completed` and `priority` never are. */
  datatype Task = Task(
    id: string,
    title: string,
    completed: bool,
    priority: Priority,
    projectId: string,
    dueDate: Option<Date>,
    createdAt: Date)

  datatype Project = Project(id: string, name: string, color: string)

  /** A task without the fields the store generates (`Omit<Task, 'id' | 'createdAt'>`). */
  datatype TaskDraft = TaskDraft(
    title: string,
    completed: bool,
    priority: Priority,
    projectId: string,
    dueDate: Option<Date>)

  /** A project without its id (`Omit<Project, 'id'>`). */
  datatype ProjectDraft = ProjectDraft(name: string, color: string)

  /** `Partial<Task>`: `None` is a key that is absent. For `dueDate`,
      `Some(None)` is an explicit `null`. */
  datatype TaskPatch = TaskPatch(
    id: Option<string>,
    title: Option<string>,
    completed: Option<bool>,
    priority: Option<Priority>,
    projectId: Option<string>,
    dueDate: Option<Option<Date>>,
    createdAt: Option<Date>)

  /** The partial task with no keys. */
  const EmptyPatch: TaskPatch := TaskPatch(None, None, None, None, None, None, None)
}
