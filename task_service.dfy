/** The data-access layer of `src/services/supabase/taskService.ts`: the
    renaming between domain records and table rows, the insert and partial
    update payloads, the no-row and error checks, and the rule that seeds an
    empty project table with the default projects. The remote service is
    represented by what it returns (a `Response`), and the two tables by
    in-memory sequences of rows; a failing call is an explicit `fault`
    parameter. */
module TaskService {
  import opened Wrappers
  import opened Types
  import opened Seqs
  import opened IsoText
  import TaskContext

  /** The service's error code for "no rows". */
  const NoRowsCode: string := "PGRST116"

  datatype RemoteError = RemoteError(code: string, message: string)

  /** What a create call fails with: the service's error, or success without a row. */
  datatype ServiceError = Remote(cause: RemoteError) | NoDataReturned

  /** The `{ data, error }` pair every remote call resolves to. */
  datatype Response<T> = Response(data: Option<T>, error: Option<RemoteError>)

  datatype TaskRow = TaskRow(
    id: string,
    title: string,
    completed: bool,
    priority: Priority,
    project_id: string,
    due_date: Option<string>,
    created_at: string,
    user_id: string)

  datatype ProjectRow = ProjectRow(id: string, name: string, color: string, user_id: string)

  /** The object passed to `insert` by `createTask`: no id and no creation time. */
  datatype TaskInsert = TaskInsert(
    title: string,
    completed: bool,
    priority: Priority,
    project_id: string,
    due_date: Option<string>,
    user_id: string)

  /** The object passed to `insert` for a project: no id. */
  datatype ProjectInsert = ProjectInsert(name: string, color: string, user_id: string)

  /** A value of the update payload, as it is sent. */
  datatype Value = Text(text: string) | Flag(flag: bool) | Null

  // ------------------------------------------------------ row -> record

  /** `due_date ? new Date(due_date) : null`: a missing or empty text is no due date. */
  function DueDateFromText(due: Option<string>): (r: Option<Date>)
    ensures r.None? <==> due.None? || due.value == ""
    ensures r.Some? ==> r.value == ParseIso(due.value)
  {
    if due.Some? && due.value != "" then Some(ParseIso(due.value)) else None
  }

  /** `dueDate instanceof Date ? dueDate.toISOString() : null`. */
  function DueDateText(due: Option<Date>): (r: Option<string>)
    ensures r.Some? <==> due.Some?
    ensures DueDateFromText(r) == due
  {
    if due.Some? then IsoRoundTrip(due.value); Some(ToIso(due.value)) else None
  }

  /** The record a task row maps to: `project_id`, `due_date` and
      `created_at` renamed, every other column copied. */
  function TaskFromRow(row: TaskRow): (t: Task)
    ensures t.id == row.id && t.title == row.title && t.completed == row.completed
    ensures t.priority == row.priority && t.projectId == row.project_id
    ensures t.dueDate == DueDateFromText(row.due_date)
    ensures t.createdAt == ParseIso(row.created_at)
  {
    Task(row.id, row.title, row.completed, row.priority, row.project_id,
         DueDateFromText(row.due_date), ParseIso(row.created_at))
  }

  function ProjectFromRow(row: ProjectRow): (p: Project)
    ensures p.id == row.id && p.name == row.name && p.color == row.color
  {
    Project(row.id, row.name, row.color)
  }

  function TasksFromRows(rows: seq<TaskRow>): (r: seq<Task>)
    ensures |r| == |rows| && forall i :: 0 <= i < |rows| ==> r[i] == TaskFromRow(rows[i])
  {
    seq(|rows|, i requires 0 <= i < |rows| => TaskFromRow(rows[i]))
  }

  function ProjectsFromRows(rows: seq<ProjectRow>): (r: seq<Project>)
    ensures |r| == |rows| && forall i :: 0 <= i < |rows| ==> r[i] == ProjectFromRow(rows[i])
  {
    seq(|rows|, i requires 0 <= i < |rows| => ProjectFromRow(rows[i]))
  }

  /** The row a task is stored as, for the given owner. */
  function RowOfTask(t: Task, userId: string): TaskRow {
    TaskRow(t.id, t.title, t.completed, t.priority, t.projectId,
            DueDateText(t.dueDate), ToIso(t.createdAt), userId)
  }

  /** The mapping is lossless: a task stored as a row reads back as itself. */
  lemma TaskRowRoundTrip(t: Task, userId: string)
    ensures TaskFromRow(RowOfTask(t, userId)) == t
  {
    IsoRoundTrip(t.createdAt);
  }

  // ------------------------------------------------------------- fetching

  /** `fetchTasks`: the service's error is rethrown; no data is the empty
      list; otherwise every row, in the order returned, mapped to a task. */
  function FetchTasks(resp: Response<seq<TaskRow>>): (r: Result<seq<Task>, RemoteError>)
    ensures resp.error.Some? ==> r == Failure(resp.error.value)
    ensures resp.error.None? && resp.data.None? ==> r == Success([])
    ensures resp.error.None? && resp.data.Some? ==>
              r.Success? && |r.value| == |resp.data.value| &&
              forall i :: 0 <= i < |r.value| ==> r.value[i] == TaskFromRow(resp.data.value[i])
  {
    if resp.error.Some? then Failure(resp.error.value)
    else if resp.data.None? then Success([])
    else Success(TasksFromRows(resp.data.value))
  }

  // ------------------------------------------------------------- creating

  /** The row `createTask` inserts. */
  function TaskInsertOf(draft: TaskDraft, userId: string): (ins: TaskInsert)
    ensures ins.title == draft.title && ins.completed == draft.completed
    ensures ins.priority == draft.priority && ins.project_id == draft.projectId
    ensures ins.user_id == userId
    ensures ins.due_date.Some? <==> draft.dueDate.Some?
    ensures DueDateFromText(ins.due_date) == draft.dueDate
  {
    TaskInsert(draft.title, draft.completed, draft.priority, draft.projectId,
               DueDateText(draft.dueDate), userId)
  }

  /** The row the table holds after accepting an insert, with the id and
      creation time it assigns. */
  function StoredTaskRow(ins: TaskInsert, id: string, createdAt: Date): TaskRow {
    TaskRow(id, ins.title, ins.completed, ins.priority, ins.project_id, ins.due_date,
            ToIso(createdAt), ins.user_id)
  }

  /** What `createTask` makes of the insert's response: the error, a missing
      row, or the returned row mapped to a task. */
  function CreateTaskResult(resp: Response<TaskRow>): (r: Result<Task, ServiceError>)
    ensures resp.error.Some? ==> r == Failure(Remote(resp.error.value))
    ensures resp.error.None? && resp.data.None? ==> r == Failure(NoDataReturned)
    ensures resp.error.None? && resp.data.Some? ==> r == Success(TaskFromRow(resp.data.value))
  {
    if resp.error.Some? then Failure(Remote(resp.error.value))
    else if resp.data.None? then Failure(NoDataReturned)
    else Success(TaskFromRow(resp.data.value))
  }

  /** Draft -> inserted row -> returned task keeps every field of the draft
      and adds the table's id and creation time: the same task the store's
      `addTask` builds from those. */
  lemma CreateTaskRoundTrip(draft: TaskDraft, userId: string, id: string, createdAt: Date)
    ensures CreateTaskResult(Response(Some(StoredTaskRow(TaskInsertOf(draft, userId), id, createdAt)), None))
            == Success(TaskContext.NewTask(draft, id, createdAt))
  {
    IsoRoundTrip(createdAt);
  }

  function ProjectInsertOf(draft: ProjectDraft, userId: string): (ins: ProjectInsert)
    ensures ins.name == draft.name && ins.color == draft.color && ins.user_id == userId
  {
    ProjectInsert(draft.name, draft.color, userId)
  }

  function StoredProject(ins: ProjectInsert, id: string): ProjectRow {
    ProjectRow(id, ins.name, ins.color, ins.user_id)
  }

  /** What `createProject` makes of the insert's response. */
  function CreateProjectResult(resp: Response<ProjectRow>): (r: Result<Project, ServiceError>)
    ensures resp.error.Some? ==> r == Failure(Remote(resp.error.value))
    ensures resp.error.None? && resp.data.None? ==> r == Failure(NoDataReturned)
    ensures resp.error.None? && resp.data.Some? ==> r == Success(ProjectFromRow(resp.data.value))
  {
    if resp.error.Some? then Failure(Remote(resp.error.value))
    else if resp.data.None? then Failure(NoDataReturned)
    else Success(ProjectFromRow(resp.data.value))
  }

  /** Draft -> inserted row -> returned project is the store's new project. */
  lemma CreateProjectRoundTrip(draft: ProjectDraft, userId: string, id: string)
    ensures CreateProjectResult(Response(Some(StoredProject(ProjectInsertOf(draft, userId), id)), None))
            == Success(TaskContext.NewProject(draft, id))
  {
  }

  // ------------------------------------------------------------- updating

  /** The columns an update may send. */
  const UpdatableColumns: set<string> := {"title", "completed", "priority", "project_id", "due_date"}

  /** The payload `updateTaskById` sends for a partial task. */
  function UpdatePayload(patch: TaskPatch): (m: map<string, Value>)
    ensures m.Keys <= UpdatableColumns
    ensures "title" in m <==> patch.title.Some?
    ensures "completed" in m <==> patch.completed.Some?
    ensures "priority" in m <==> patch.priority.Some?
    ensures "project_id" in m <==> patch.projectId.Some?
    ensures "due_date" in m <==> patch.dueDate.Some?
    ensures patch.title.Some? ==> m["title"] == Text(patch.title.value)
    ensures patch.completed.Some? ==> m["completed"] == Flag(patch.completed.value)
    ensures patch.priority.Some? ==> m["priority"] == Text(PriorityName(patch.priority.value))
    ensures patch.projectId.Some? ==> m["project_id"] == Text(patch.projectId.value)
    ensures patch.dueDate.Some? && patch.dueDate.value.Some? ==>
              m["due_date"] == Text(ToIso(patch.dueDate.value.value))
    ensures patch.dueDate == Some(None) ==> m["due_date"] == Null
  {
    var m1 := if patch.title.Some? then map["title" := Text(patch.title.value)] else map[];
    var m2 := if patch.completed.Some? then m1["completed" := Flag(patch.completed.value)] else m1;
    var m3 := if patch.priority.Some? then m2["priority" := Text(PriorityName(patch.priority.value))] else m2;
    var m4 := if patch.projectId.Some? then m3["project_id" := Text(patch.projectId.value)] else m3;
    if patch.dueDate.None? then m4
    else m4["due_date" := if patch.dueDate.value.Some? then Text(ToIso(patch.dueDate.value.value)) else Null]
  }

  /** `updateTaskById`'s field-by-field construction of the payload. */
  method BuildUpdatePayload(patch: TaskPatch) returns (payload: map<string, Value>)
    ensures payload == UpdatePayload(patch)
  {
    payload := map[];
    if patch.title.Some? {
      payload := payload["title" := Text(patch.title.value)];
    }
    if patch.completed.Some? {
      payload := payload["completed" := Flag(patch.completed.value)];
    }
    if patch.priority.Some? {
      payload := payload["priority" := Text(PriorityName(patch.priority.value))];
    }
    if patch.projectId.Some? {
      payload := payload["project_id" := Text(patch.projectId.value)];
    }
    if patch.dueDate.Some? {
      payload := payload["due_date" := if patch.dueDate.value.Some? then Text(ToIso(patch.dueDate.value.value)) else Null];
    }
  }

  function TextOr(m: map<string, Value>, key: string, default: string): string {
    if key in m && m[key].Text? then m[key].text else default
  }

  /** The table's effect of an update payload on one row. A value of the
      wrong shape for its column leaves that column as it was. */
  function ApplyPayload(row: TaskRow, m: map<string, Value>): TaskRow {
    var priority :=
      if "priority" in m && m["priority"].Text? && ParsePriority(m["priority"].text).Some?
      then ParsePriority(m["priority"].text).value else row.priority;
    var due :=
      if "due_date" !in m then row.due_date
      else match m["due_date"]
        case Text(s) => Some(s)
        case Null => None
        case Flag(_) => row.due_date;
    TaskRow(
      row.id,
      TextOr(m, "title", row.title),
      if "completed" in m && m["completed"].Flag? then m["completed"].flag else row.completed,
      priority,
      TextOr(m, "project_id", row.project_id),
      due,
      row.created_at,
      row.user_id)
  }

  /** The partial task an update actually transmits: `id` and `createdAt` are never sent. */
  function Transmitted(patch: TaskPatch): TaskPatch {
    patch.(id := None, createdAt := None)
  }

  /** Sending the payload and reading the row back gives the task the store's
      merge gives, for every field the payload carries. */
  lemma PayloadAgreesWithMerge(row: TaskRow, patch: TaskPatch)
    ensures TaskFromRow(ApplyPayload(row, UpdatePayload(patch))) ==
            TaskContext.Merge(TaskFromRow(row), Transmitted(patch))
  {
    if patch.priority.Some? {
      PriorityExactlyFour(patch.priority.value);
    }
    if patch.dueDate.Some? && patch.dueDate.value.Some? {
      IsoRoundTrip(patch.dueDate.value.value);
    }
  }

  function RowHasId(id: string): TaskRow -> bool {
    (r: TaskRow) => r.id == id
  }

  function UpdatedRows(rows: seq<TaskRow>, id: string, m: map<string, Value>): (r: seq<TaskRow>)
    ensures |r| == |rows|
    ensures forall i :: 0 <= i < |rows| ==> r[i] == if rows[i].id == id then ApplyPayload(rows[i], m) else rows[i]
  {
    MapWhere(rows, RowHasId(id), (row: TaskRow) => ApplyPayload(row, m))
  }

  /** The remote update and the store's local update agree: the table's
      tasks after `updateTaskById(id, patch)` are the store's tasks after
      `updateTask(id, patch')`, where `patch'` is `patch` with its `id` and
      `createdAt` dropped: the service never sends those two keys. */
  lemma RemoteUpdateMatchesLocal(rows: seq<TaskRow>, id: string, patch: TaskPatch)
    ensures TasksFromRows(UpdatedRows(rows, id, UpdatePayload(patch))) ==
            TaskContext.UpdatedTasks(TasksFromRows(rows), id, Transmitted(patch))
  {
    var remote := TasksFromRows(UpdatedRows(rows, id, UpdatePayload(patch)));
    var local := TaskContext.UpdatedTasks(TasksFromRows(rows), id, Transmitted(patch));
    forall i | 0 <= i < |rows| ensures remote[i] == local[i] {
      PayloadAgreesWithMerge(rows[i], patch);
    }
  }

  function RowLacksId(id: string): TaskRow -> bool {
    (r: TaskRow) => r.id != id
  }

  function ProjectRowLacksId(id: string): ProjectRow -> bool {
    (r: ProjectRow) => r.id != id
  }

  /** The tasks table. */
  class TaskTable {
    var rows: seq<TaskRow>

    constructor (initial: seq<TaskRow>)
      ensures rows == initial
    {
      rows := initial;
    }

    /** `updateTaskById`: build the payload, send it; a failing call changes nothing. */
    method UpdateTaskById(id: string, patch: TaskPatch, fault: Option<RemoteError>)
      returns (r: Outcome<RemoteError>)
      modifies this
      ensures fault.Some? ==> r == Fail(fault.value) && rows == old(rows)
      ensures fault.None? ==> r == Pass && rows == UpdatedRows(old(rows), id, UpdatePayload(patch))
    {
      var payload := BuildUpdatePayload(patch);
      if fault.Some? {
        return Fail(fault.value);
      }
      rows := UpdatedRows(rows, id, payload);
      r := Pass;
    }

    /** `deleteTaskById`. */
    method DeleteTaskById(id: string, fault: Option<RemoteError>) returns (r: Outcome<RemoteError>)
      modifies this
      ensures fault.Some? ==> r == Fail(fault.value) && rows == old(rows)
      ensures fault.None? ==> r == Pass && rows == Filter(old(rows), RowLacksId(id))
    {
      if fault.Some? {
        return Fail(fault.value);
      }
      rows := Filter(rows, RowLacksId(id));
      r := Pass;
    }
  }

  // ------------------------------------------------------------ bootstrap

  /** The insert `createDefaultProjects` issues for one default: its name and
      color, the owner, and no id. */
  function DefaultInsert(p: Project, userId: string): (ins: ProjectInsert)
    ensures ins.name == p.name && ins.color == p.color && ins.user_id == userId
  {
    ProjectInsertOf(ProjectDraft(p.name, p.color), userId)
  }

  /** The rows the defaults become, with the ids the table assigns from `serial` on. */
  function StoredDefaults(defaults: seq<Project>, userId: string, serial: nat): (r: seq<ProjectRow>)
    ensures |r| == |defaults|
  {
    seq(|defaults|, i requires 0 <= i < |defaults| =>
          StoredProject(DefaultInsert(defaults[i], userId), NatText(serial + i)))
  }

  /** Reading the seeded rows back gives the defaults' names and colors, in order. */
  lemma StoredDefaultsReadBack(defaults: seq<Project>, userId: string, serial: nat)
    ensures |ProjectsFromRows(StoredDefaults(defaults, userId, serial))| == |defaults|
    ensures forall i :: 0 <= i < |defaults| ==>
              ProjectsFromRows(StoredDefaults(defaults, userId, serial))[i].name == defaults[i].name &&
              ProjectsFromRows(StoredDefaults(defaults, userId, serial))[i].color == defaults[i].color
  {
  }

  /** When `fetchProjects` seeds the table: on the "no rows" error, or on a
      successful read that returns no data or an empty table. */
  predicate NeedsBootstrap(fault: Option<RemoteError>, noData: bool, rows: seq<ProjectRow>)
    ensures NeedsBootstrap(fault, noData, rows) ==> fault.None? || fault.value.code == NoRowsCode
    ensures fault.None? && !noData && rows != [] ==> !NeedsBootstrap(fault, noData, rows)
  {
    (fault.Some? && fault.value.code == NoRowsCode) || (fault.None? && (noData || rows == []))
  }

  /** The projects table. Ids of inserted rows are drawn from a counter. */
  class ProjectTable {
    var rows: seq<ProjectRow>
    var nextSerial: nat

    constructor (initial: seq<ProjectRow>, serial: nat)
      ensures rows == initial && nextSerial == serial
    {
      rows := initial;
      nextSerial := serial;
    }

    /** An insert that succeeds, appending the row with a table-assigned id. */
    method Insert(ins: ProjectInsert) returns (row: ProjectRow)
      modifies this
      ensures row == StoredProject(ins, NatText(old(nextSerial)))
      ensures rows == old(rows) + [row] && nextSerial == old(nextSerial) + 1
    {
      row := StoredProject(ins, NatText(nextSerial));
      rows := rows + [row];
      nextSerial := nextSerial + 1;
    }

    /** `createDefaultProjects`: one insert per default, in order. */
    method CreateDefaultProjects(userId: string, defaults: seq<Project>)
      modifies this
      ensures rows == old(rows) + StoredDefaults(defaults, userId, old(nextSerial))
      ensures nextSerial == old(nextSerial) + |defaults|
    {
      ghost var before := rows;
      ghost var serial := nextSerial;
      for i := 0 to |defaults|
        invariant |rows| == |before| + i && rows[..|before|] == before
        invariant nextSerial == serial + i
        invariant forall k :: 0 <= k < i ==>
                    rows[|before| + k] == StoredProject(DefaultInsert(defaults[k], userId), NatText(serial + k))
      {
        var _ := Insert(DefaultInsert(defaults[i], userId));
      }
      assert rows == before + StoredDefaults(defaults, userId, serial);
    }

    /** `fetchProjects`. `fault` is the error of the first read, if it fails,
        and `noData` says that the first read returned neither an error nor
        data; the re-read after seeding is taken to succeed and return the rows. */
    method FetchProjects(userId: string, defaults: seq<Project>, fault: Option<RemoteError>, noData: bool)
      returns (r: Result<seq<Project>, RemoteError>)
      requires defaults != [] || rows != [] || (fault.Some? && fault.value.code != NoRowsCode)
      modifies this
      decreases if NeedsBootstrap(fault, noData, rows) then 1 else 0
      ensures !NeedsBootstrap(fault, noData, old(rows)) ==> rows == old(rows) && nextSerial == old(nextSerial)
      ensures NeedsBootstrap(fault, noData, old(rows)) ==>
                rows == old(rows) + StoredDefaults(defaults, userId, old(nextSerial)) &&
                nextSerial == old(nextSerial) + |defaults|
      ensures fault.Some? && fault.value.code != NoRowsCode ==> r == Failure(fault.value)
      ensures (fault.None? || fault.value.code == NoRowsCode) ==> r == Success(ProjectsFromRows(rows))
    {
      if fault.Some? {
        if fault.value.code == NoRowsCode {
          CreateDefaultProjects(userId, defaults);
          r := FetchProjects(userId, defaults, None, false);
        } else {
          r := Failure(fault.value);
        }
        return;
      }
      if noData || rows == [] {
        CreateDefaultProjects(userId, defaults);
        r := FetchProjects(userId, defaults, None, false);
        return;
      }
      r := Success(ProjectsFromRows(rows));
    }

    /** `deleteProjectById`. */
    method DeleteProjectById(id: string, fault: Option<RemoteError>) returns (r: Outcome<RemoteError>)
      modifies this`rows
      ensures fault.Some? ==> r == Fail(fault.value) && rows == old(rows)
      ensures fault.None? ==> r == Pass && rows == Filter(old(rows), ProjectRowLacksId(id))
    {
      if fault.Some? {
        return Fail(fault.value);
      }
      rows := Filter(rows, ProjectRowLacksId(id));
      r := Pass;
    }
  }

  /** A first load against an empty projects table seeds it with the
      defaults and returns them (names and colors, in order); a second load
      inserts nothing more and returns the same projects. `stored` is the
      table's rows after both loads: exactly one seeded row per default. */
  method LoadTwiceSeedsOnce(userId: string, defaults: seq<Project>)
    returns (first: Result<seq<Project>, RemoteError>, second: Result<seq<Project>, RemoteError>, stored: seq<ProjectRow>)
    requires defaults != []
    ensures stored == StoredDefaults(defaults, userId, 0)
    ensures first == Success(ProjectsFromRows(stored))
    ensures first.Success? && first == second
    ensures |first.value| == |defaults|
    ensures forall i :: 0 <= i < |defaults| ==>
              first.value[i].name == defaults[i].name && first.value[i].color == defaults[i].color
  {
    var table := new ProjectTable([], 0);
    first := table.FetchProjects(userId, defaults, None, false);
    ghost var seeded := table.rows;
    assert seeded == StoredDefaults(defaults, userId, 0);
    assert first == Success(ProjectsFromRows(seeded));
    StoredDefaultsReadBack(defaults, userId, 0);
    second := table.FetchProjects(userId, defaults, None, false);
    assert table.rows == seeded;
    stored := table.rows;
  }
}
