/** The in-memory task and project store of `src/contexts/TaskContext.tsx`.
    The new collections each mutator installs are computed by the pure
    functions below; the class `TaskProvider` holds the two collections and
    the notifications shown so far, and each method replaces them as the
    corresponding `setTasks`/`setProjects` call does. Generated ids and
    creation times are supplied by the caller. */
module TaskContext {
  import opened Wrappers
  import opened Types
  import opened Seqs
  import TaskUtils

  /** The projects the store starts with. */
  const DefaultProjects: seq<Project> := [
    Project("1", "Personal", "#9b87f5"),
    Project("2", "Work", "#33C3F0"),
    Project("3", "Shopping", "#F97316")
  ]

  /** A user-facing notification: a title and a description. */
  datatype Toast = Toast(title: string, description: string)

  function Quoted(s: string): string {
    "\"" + s + "\""
  }

  function HasTaskId(id: string): Task -> bool {
    (t: Task) => t.id == id
  }

  function LacksTaskId(id: string): Task -> bool {
    (t: Task) => t.id != id
  }

  function LacksProjectId(id: string): Project -> bool {
    (p: Project) => p.id != id
  }

  /** Ids are pairwise distinct (something the caller of `AddTask` must see to,
      since the store does not check it). */
  ghost predicate UniqueTaskIds(tasks: seq<Task>) {
    forall i, j :: 0 <= i < j < |tasks| ==> tasks[i].id != tasks[j].id
  }

  // ---------------------------------------------------------------- tasks

  /** The draft part of a task: everything but `id` and `createdAt`. */
  function DraftOf(t: Task): TaskDraft {
    TaskDraft(t.title, t.completed, t.priority, t.projectId, t.dueDate)
  }

  /** `{ ...draft, id, createdAt }`. */
  function NewTask(draft: TaskDraft, id: string, createdAt: Date): (t: Task)
    ensures t.id == id && t.createdAt == createdAt
    ensures DraftOf(t) == draft
  {
    Task(id, draft.title, draft.completed, draft.priority, draft.projectId, draft.dueDate, createdAt)
  }

  /** `{ ...task, ...patch }`: every key present in the patch overrides, every
      other field is kept. */
  function Merge(t: Task, patch: TaskPatch): (r: Task)
    ensures r.id == patch.id.GetOr(t.id)
    ensures r.title == patch.title.GetOr(t.title)
    ensures r.completed == patch.completed.GetOr(t.completed)
    ensures r.priority == patch.priority.GetOr(t.priority)
    ensures r.projectId == patch.projectId.GetOr(t.projectId)
    ensures r.dueDate == patch.dueDate.GetOr(t.dueDate)
    ensures r.createdAt == patch.createdAt.GetOr(t.createdAt)
  {
    Task(
      patch.id.GetOr(t.id),
      patch.title.GetOr(t.title),
      patch.completed.GetOr(t.completed),
      patch.priority.GetOr(t.priority),
      patch.projectId.GetOr(t.projectId),
      patch.dueDate.GetOr(t.dueDate),
      patch.createdAt.GetOr(t.createdAt))
  }

  function MergeWith(patch: TaskPatch): Task -> Task {
    (t: Task) => Merge(t, patch)
  }

  function Toggle(t: Task): Task {
    t.(completed := !t.completed)
  }

  /** The tasks after `updateTask(id, patch)`: same length and order, the
      patch merged into each task with that id, every other task unchanged. */
  function UpdatedTasks(tasks: seq<Task>, id: string, patch: TaskPatch): (r: seq<Task>)
    ensures |r| == |tasks|
    ensures forall i :: 0 <= i < |tasks| ==>
              r[i] == if tasks[i].id == id then Merge(tasks[i], patch) else tasks[i]
  {
    MapWhere(tasks, HasTaskId(id), MergeWith(patch))
  }

  /** The tasks after `toggleTaskCompletion(id)`: only `completed` flips, and
      only on the tasks with that id. */
  function ToggledTasks(tasks: seq<Task>, id: string): (r: seq<Task>)
    ensures |r| == |tasks|
    ensures forall i :: 0 <= i < |tasks| ==>
              r[i] == if tasks[i].id == id then tasks[i].(completed := !tasks[i].completed) else tasks[i]
  {
    MapWhere(tasks, HasTaskId(id), Toggle)
  }

  /** The tasks after `deleteTask(id)`: every task with that id removed, the
      others kept in order. */
  function RemainingTasks(tasks: seq<Task>, id: string): (r: seq<Task>)
    ensures forall t :: t in r <==> t in tasks && t.id != id
    ensures IsSubsequence(r, tasks)
    ensures |r| == Count(tasks, LacksTaskId(id))
  {
    FilterIsSelection(tasks, LacksTaskId(id));
    Filter(tasks, LacksTaskId(id))
  }

  /** The notification `addTask` shows: titled "Task created", its description opening with the quoted title. */
  function TaskCreatedToast(draft: TaskDraft): (r: Toast)
    ensures r.title == "Task created" && Quoted(draft.title) <= r.description
  {
    Toast("Task created", Quoted(draft.title) + " has been added to your tasks.")
  }

  /** The notifications `deleteTask(id)` shows: one naming the first task
      with that id, or none when no task has it. */
  function TaskDeletedToasts(tasks: seq<Task>, id: string): (r: seq<Toast>)
    ensures r == [] <==> forall i :: 0 <= i < |tasks| ==> tasks[i].id != id
    ensures r != [] ==> exists k :: 0 <= k < |tasks| && tasks[k].id == id &&
                         (forall j :: 0 <= j < k ==> tasks[j].id != id) &&
                         r == [Toast("Task deleted", Quoted(tasks[k].title) + " has been removed.")]
  {
    match Find(tasks, HasTaskId(id))
    case None => []
    case Some(t) => [Toast("Task deleted", Quoted(t.title) + " has been removed.")]
  }

  // ------------------------------------------------------------- projects

  function NewProject(draft: ProjectDraft, id: string): (p: Project)
    ensures p.id == id && p.name == draft.name && p.color == draft.color
  {
    Project(id, draft.name, draft.color)
  }

  /** The projects after `deleteProject(id)`. */
  function RemainingProjects(projects: seq<Project>, id: string): (r: seq<Project>)
    ensures forall p :: p in r <==> p in projects && p.id != id
    ensures IsSubsequence(r, projects)
    ensures |r| == Count(projects, LacksProjectId(id))
  {
    FilterIsSelection(projects, LacksProjectId(id));
    Filter(projects, LacksProjectId(id))
  }

  /** The notification `addProject` shows: titled "Project created", its description opening with the quoted name. */
  function ProjectCreatedToast(draft: ProjectDraft): (r: Toast)
    ensures r.title == "Project created" && Quoted(draft.name) <= r.description
  {
    Toast("Project created", Quoted(draft.name) + " has been added to your projects.")
  }

  /** The notifications `deleteProject(id)` shows: one naming the first
      project with that id, or none when no project has it. */
  function ProjectDeletedToasts(projects: seq<Project>, id: string): (r: seq<Toast>)
    ensures r == [] <==> forall i :: 0 <= i < |projects| ==> projects[i].id != id
    ensures r != [] ==> exists k :: 0 <= k < |projects| && projects[k].id == id &&
                         (forall j :: 0 <= j < k ==> projects[j].id != id) &&
                         r == [Toast("Project deleted", Quoted(projects[k].name) + " has been removed.")]
  {
    match TaskUtils.ProjectById(projects, id)
    case None => []
    case Some(p) => [Toast("Project deleted", Quoted(p.name) + " has been removed.")]
  }

  // ----------------------------------------------------------------- store

  class TaskProvider {
    var tasks: seq<Task>
    var projects: seq<Project>
    /** Every notification shown, oldest first. */
    var notifications: seq<Toast>

    /** The initial state: no tasks, the three default projects. */
    constructor ()
      ensures tasks == [] && projects == DefaultProjects && notifications == []
    {
      tasks := [];
      projects := DefaultProjects;
      notifications := [];
    }

    /** `addTask(draft)`, with the generated id and creation time supplied. */
    method AddTask(draft: TaskDraft, id: string, createdAt: Date)
      modifies this`tasks, this`notifications
      ensures tasks == old(tasks) + [NewTask(draft, id, createdAt)]
      ensures notifications == old(notifications) + [TaskCreatedToast(draft)]
    {
      tasks := tasks + [NewTask(draft, id, createdAt)];
      notifications := notifications + [TaskCreatedToast(draft)];
    }

    method UpdateTask(id: string, patch: TaskPatch)
      modifies this`tasks
      ensures tasks == UpdatedTasks(old(tasks), id, patch)
    {
      tasks := UpdatedTasks(tasks, id, patch);
    }

    method DeleteTask(id: string)
      modifies this`tasks, this`notifications
      ensures tasks == RemainingTasks(old(tasks), id)
      ensures notifications == old(notifications) + TaskDeletedToasts(old(tasks), id)
      ensures (forall i :: 0 <= i < |old(tasks)| ==> old(tasks)[i].id != id) ==>
                tasks == old(tasks) && notifications == old(notifications)
    {
      var newTasks := RemainingTasks(tasks, id);
      notifications := notifications + TaskDeletedToasts(tasks, id);
      assert (forall i :: 0 <= i < |tasks| ==> tasks[i].id != id) ==> newTasks == tasks by {
        if forall i :: 0 <= i < |tasks| ==> tasks[i].id != id {
          DeleteAbsentTask(tasks, id);
        }
      }
      tasks := newTasks;
    }

    method ToggleTaskCompletion(id: string)
      modifies this`tasks
      ensures tasks == ToggledTasks(old(tasks), id)
    {
      tasks := ToggledTasks(tasks, id);
    }

    /** `addProject(draft)`, with the generated id supplied. */
    method AddProject(draft: ProjectDraft, id: string)
      modifies this`projects, this`notifications
      ensures projects == old(projects) + [NewProject(draft, id)]
      ensures notifications == old(notifications) + [ProjectCreatedToast(draft)]
    {
      projects := projects + [NewProject(draft, id)];
      notifications := notifications + [ProjectCreatedToast(draft)];
    }

    method DeleteProject(id: string)
      modifies this`projects, this`notifications
      ensures projects == RemainingProjects(old(projects), id)
      ensures notifications == old(notifications) + ProjectDeletedToasts(old(projects), id)
      ensures (forall i :: 0 <= i < |old(projects)| ==> old(projects)[i].id != id) ==>
                projects == old(projects) && notifications == old(notifications)
    {
      var newProjects := RemainingProjects(projects, id);
      notifications := notifications + ProjectDeletedToasts(projects, id);
      assert (forall i :: 0 <= i < |projects| ==> projects[i].id != id) ==> newProjects == projects by {
        if forall i :: 0 <= i < |projects| ==> projects[i].id != id {
          FilterAllSatisfy(projects, LacksProjectId(id));
        }
      }
      projects := newProjects;
    }

    /** `getTasksByProject`: a read-only query. */
    function TasksByProject(projectId: string): (r: seq<Task>)
      reads this
      ensures forall t :: t in r <==> t in tasks && t.projectId == projectId
      ensures IsSubsequence(r, tasks)
      ensures |r| == Count(tasks, TaskUtils.InProject(projectId))
    {
      TaskUtils.TasksByProject(tasks, projectId)
    }

    /** `getTasksByPriority`: a read-only query. */
    function TasksByPriority(priority: Priority): (r: seq<Task>)
      reads this
      ensures forall t :: t in r <==> t in tasks && t.priority == priority
      ensures IsSubsequence(r, tasks)
      ensures |r| == Count(tasks, TaskUtils.HasPriority(priority))
    {
      TaskUtils.TasksByPriority(tasks, priority)
    }

    /** `getProject`: the first project with that id, or none iff there is none. */
    function GetProject(id: string): (r: Option<Project>)
      reads this
      ensures r.None? <==> forall i :: 0 <= i < |projects| ==> projects[i].id != id
      ensures r.Some? ==> exists k :: 0 <= k < |projects| && projects[k] == r.value && r.value.id == id &&
                                     forall j :: 0 <= j < k ==> projects[j].id != id
    {
      TaskUtils.ProjectById(projects, id)
    }
  }

  // ---------------------------------------------------------------- lemmas

  /** Toggling twice gives back the original tasks. */
  lemma ToggleTwice(tasks: seq<Task>, id: string)
    ensures ToggledTasks(ToggledTasks(tasks, id), id) == tasks
  {
  }

  /** An update whose patch only sets `completed` changes nothing else. */
  lemma CompletedOnlyUpdate(tasks: seq<Task>, id: string, c: bool, i: int)
    requires 0 <= i < |tasks|
    ensures UpdatedTasks(tasks, id, EmptyPatch.(completed := Some(c)))[i] ==
            if tasks[i].id == id then tasks[i].(completed := c) else tasks[i]
  {
  }

  /** Updating with the empty patch changes nothing. */
  lemma EmptyUpdate(tasks: seq<Task>, id: string)
    ensures UpdatedTasks(tasks, id, EmptyPatch) == tasks
  {
    var r := UpdatedTasks(tasks, id, EmptyPatch);
    assert forall i :: 0 <= i < |tasks| ==> r[i] == tasks[i];
  }

  /** Deleting an id no task has leaves the tasks as they are. */
  lemma DeleteAbsentTask(tasks: seq<Task>, id: string)
    requires forall i :: 0 <= i < |tasks| ==> tasks[i].id != id
    ensures RemainingTasks(tasks, id) == tasks
  {
    FilterAllSatisfy(tasks, LacksTaskId(id));
  }

  /** Deleting the same id a second time changes nothing. */
  lemma DeleteTwice(tasks: seq<Task>, id: string)
    ensures RemainingTasks(RemainingTasks(tasks, id), id) == RemainingTasks(tasks, id)
  {
    FilterIdempotent(tasks, LacksTaskId(id));
  }

  lemma {:induction false} CountUniqueId(tasks: seq<Task>, id: string)
    requires UniqueTaskIds(tasks)
    ensures Count(tasks, HasTaskId(id)) <= 1
    ensures Count(tasks, HasTaskId(id)) == 1 <==> exists i :: 0 <= i < |tasks| && tasks[i].id == id
  {
    if tasks != [] {
      CountUniqueId(tasks[1..], id);
      if tasks[0].id == id {
        assert forall i :: 0 <= i < |tasks[1..]| ==> tasks[1..][i].id != id by {
          forall i | 0 <= i < |tasks[1..]| ensures tasks[1..][i].id != id {
            assert tasks[1..][i] == tasks[i + 1];
          }
        }
      }
      assert (exists i :: 0 <= i < |tasks| && tasks[i].id == id) <==>
             tasks[0].id == id || exists i :: 0 <= i < |tasks[1..]| && tasks[1..][i].id == id by {
        if exists i :: 0 <= i < |tasks| && tasks[i].id == id {
          var i :| 0 <= i < |tasks| && tasks[i].id == id;
          if i > 0 { assert tasks[1..][i - 1].id == id; }
        }
      }
    }
  }

  /** With distinct ids, deleting an existing id removes exactly one task. */
  lemma DeleteRemovesOne(tasks: seq<Task>, id: string)
    requires UniqueTaskIds(tasks)
    requires exists i :: 0 <= i < |tasks| && tasks[i].id == id
    ensures |RemainingTasks(tasks, id)| == |tasks| - 1
  {
    FilterIsSelection(tasks, LacksTaskId(id));
    CountUniqueId(tasks, id);
    CountComplement(tasks, HasTaskId(id), LacksTaskId(id));
  }

  /** A task added under a fresh id shows up exactly once among the tasks of its project. */
  lemma AddedTaskInProjectOnce(tasks: seq<Task>, draft: TaskDraft, id: string, createdAt: Date)
    requires forall i :: 0 <= i < |tasks| ==> tasks[i].id != id
    ensures multiset(TaskUtils.TasksByProject(tasks + [NewTask(draft, id, createdAt)], draft.projectId))
              [NewTask(draft, id, createdAt)] == 1
  {
    var t := NewTask(draft, id, createdAt);
    var p := TaskUtils.InProject(draft.projectId);
    FilterAppend(tasks, [t], p);
    FilterMultiset(tasks, p, t);
    assert t !in tasks;
    assert Filter([t], p) == [t];
  }

  /** The store's defaults and the utility module's seed list are the same projects. */
  lemma DefaultsAgree()
    ensures DefaultProjects == TaskUtils.DefaultProjects
  {
  }
}
