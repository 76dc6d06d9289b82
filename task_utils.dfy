/** The pure query helpers and the seed projects of `src/utils/taskUtils.ts`. */
module TaskUtils {
  import opened Wrappers
  import opened Types
  import opened Seqs

  function InProject(projectId: string): Task -> bool {
    (t: Task) => t.projectId == projectId
  }

  function HasPriority(priority: Priority): Task -> bool {
    (t: Task) => t.priority == priority
  }

  function HasProjectId(id: string): Project -> bool {
    (p: Project) => p.id == id
  }

  /** The tasks of one project: exactly those whose `projectId` matches, in their order. */
  function TasksByProject(tasks: seq<Task>, projectId: string): (r: seq<Task>)
    ensures forall t :: t in r <==> t in tasks && t.projectId == projectId
    ensures IsSubsequence(r, tasks)
    ensures |r| == Count(tasks, InProject(projectId))
  {
    FilterIsSelection(tasks, InProject(projectId));
    Filter(tasks, InProject(projectId))
  }

  /** The tasks of one priority: exactly those with that priority, in their order. */
  function TasksByPriority(tasks: seq<Task>, priority: Priority): (r: seq<Task>)
    ensures forall t :: t in r <==> t in tasks && t.priority == priority
    ensures IsSubsequence(r, tasks)
    ensures |r| == Count(tasks, HasPriority(priority))
  {
    FilterIsSelection(tasks, HasPriority(priority));
    Filter(tasks, HasPriority(priority))
  }

  /** The first project with the given id, or `None` exactly when no project has it. */
  function ProjectById(projects: seq<Project>, id: string): (r: Option<Project>)
    ensures r.None? <==> forall i :: 0 <= i < |projects| ==> projects[i].id != id
    ensures r.Some? ==> exists k :: 0 <= k < |projects| && projects[k] == r.value && r.value.id == id &&
                                   forall j :: 0 <= j < k ==> projects[j].id != id
  {
    Find(projects, HasProjectId(id))
  }

  /** The seed projects. */
  const DefaultProjects: seq<Project> := [
    Project("1", "Personal", "#9b87f5"),
    Project("2", "Work", "#33C3F0"),
    Project("3", "Shopping", "#F97316")
  ]

  /** Three seed projects with distinct ids. */
  lemma DefaultProjectsDistinct()
    ensures |DefaultProjects| == 3
    ensures forall i, j :: 0 <= i < j < |DefaultProjects| ==> DefaultProjects[i].id != DefaultProjects[j].id
  {
  }

  /** Filtering a project's tasks again by the same project changes nothing. */
  lemma TasksByProjectIdempotent(tasks: seq<Task>, projectId: string)
    ensures TasksByProject(TasksByProject(tasks, projectId), projectId) == TasksByProject(tasks, projectId)
  {
    FilterIdempotent(tasks, InProject(projectId));
  }

  /** Filtering a priority's tasks again by the same priority changes nothing. */
  lemma TasksByPriorityIdempotent(tasks: seq<Task>, priority: Priority)
    ensures TasksByPriority(TasksByPriority(tasks, priority), priority) == TasksByPriority(tasks, priority)
  {
    FilterIdempotent(tasks, HasPriority(priority));
  }

  /** The four priority filters partition the tasks: together they hold every
      task exactly as often as `tasks` does, so their lengths add up to
      `|tasks|`, and no task is in two of them. */
  lemma PriorityPartition(tasks: seq<Task>)
    ensures multiset(TasksByPriority(tasks, Low)) + multiset(TasksByPriority(tasks, Medium)) +
            multiset(TasksByPriority(tasks, High)) + multiset(TasksByPriority(tasks, Urgent))
            == multiset(tasks)
    ensures |TasksByPriority(tasks, Low)| + |TasksByPriority(tasks, Medium)| +
            |TasksByPriority(tasks, High)| + |TasksByPriority(tasks, Urgent)| == |tasks|
    ensures forall t, p, q :: p != q && t in TasksByPriority(tasks, p) ==> t !in TasksByPriority(tasks, q)
  {
    var l, m, h, u := TasksByPriority(tasks, Low), TasksByPriority(tasks, Medium),
                      TasksByPriority(tasks, High), TasksByPriority(tasks, Urgent);
    forall t: Task
      ensures (multiset(l) + multiset(m) + multiset(h) + multiset(u))[t] == multiset(tasks)[t]
    {
      FilterMultiset(tasks, HasPriority(Low), t);
      FilterMultiset(tasks, HasPriority(Medium), t);
      FilterMultiset(tasks, HasPriority(High), t);
      FilterMultiset(tasks, HasPriority(Urgent), t);
    }
    assert multiset(l) + multiset(m) + multiset(h) + multiset(u) == multiset(tasks);
    assert |multiset(l) + multiset(m) + multiset(h) + multiset(u)| == |l| + |m| + |h| + |u|;
  }
}
