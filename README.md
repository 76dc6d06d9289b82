# Task manager core, modelled in Dafny

A model of the logic of a small personal task manager: tasks with a
priority, an optional due date and a completion flag, grouped into coloured
projects. It covers

- the domain records (`Types`, from `src/types/task.ts`);
- the in-memory task/project store (`TaskContext`, from
  `src/contexts/TaskContext.tsx`): a class `TaskProvider` holding `tasks`,
  `projects` and the notifications shown, whose methods replace the
  collections the way the store's `setTasks`/`setProjects` updaters do, with
  the new collections computed by pure functions;
- the query helpers and seed projects (`TaskUtils`, from
  `src/utils/taskUtils.ts`);
- the dashboard's "today" / "upcoming" filters and tab selection
  (`Dashboard`, from `src/pages/Dashboard.tsx`);
- the data-access layer's field mapping, insert and partial-update
  payloads, error and no-row checks, and the rule that seeds an empty
  project table with the default projects (`TaskService`, from
  `src/services/supabase/taskService.ts`).

Generic `filter` / `find` / selective `map` over sequences live in `Seqs`,
with the lemmas the rest builds on (a filter is an order-preserving
subsequence holding exactly the matching elements, with their
multiplicities, and is idempotent). `IsoText` stands in for the date/ISO-text
conversion.

Modelling choices:

- Ids and creation times that the source draws from `Math.random` and
  `new Date()` are parameters of the operations. Nothing makes them unique;
  lemmas that need fresh or distinct ids say so in their `requires`.
- A `Date` is a count of local wall-clock milliseconds, so day truncation
  (`setHours(0, 0, 0, 0)`) is rounding down to a multiple of 86 400 000 and
  `setDate(getDate() + 7)` adds seven days' worth.
- Date text (`toISOString` / `new Date(text)`) is a decimal rendering of
  that count. What the model relies on is proved of it: the text is never
  empty and reads back to the same date.
- The remote service is represented by what a call returns (`Response`,
  holding optional data and an optional error). The two tables are in-memory
  sequences of rows (`TaskTable`, `ProjectTable`), and a failing call is an
  explicit `fault` argument.
- The store follows the code. `addTask` and `addProject` append at the end.
  The store never calls the data-access layer. It has no sign-in loading,
  no sign-out reset and no rollback.

## Model

| member | source | states |
|---|---|---|
| Types.ParsePriority | src/types/task.ts:2 | a string parses to a priority only if it is that priority's name |
| Types.PriorityExactlyFour | src/types/task.ts:2 | there are exactly the four priorities low, medium, high, urgent, with distinct names, each parsing back to itself |
| TaskUtils.TasksByProject | src/utils/taskUtils.ts:4-6 | exactly the tasks whose projectId matches, as an order-preserving subsequence, as many as there are matching tasks |
| TaskUtils.TasksByPriority | src/utils/taskUtils.ts:8-10 | exactly the tasks of that priority, as an order-preserving subsequence, as many as there are matching tasks |
| TaskUtils.ProjectById | src/utils/taskUtils.ts:12-14 | the first project with that id; none iff no project has it |
| TaskUtils.DefaultProjectsDistinct | src/utils/taskUtils.ts:16-20 | the seed list has three projects with pairwise distinct ids |
| TaskUtils.TasksByProjectIdempotent | src/utils/taskUtils.ts:4-6 | filtering a project's tasks again by that project gives the same list |
| TaskUtils.TasksByPriorityIdempotent | src/utils/taskUtils.ts:8-10 | filtering a priority's tasks again by that priority gives the same list |
| TaskUtils.PriorityPartition | src/utils/taskUtils.ts:8-10 | the four priority lists together hold every task exactly as often as the input does, their lengths sum to the number of tasks, and no task is in two of them |
| TaskContext.DefaultsAgree | src/contexts/TaskContext.tsx:20-24 | the store's default projects are the utility module's seed projects: ids 1, 2, 3 named Personal, Work, Shopping with colors #9b87f5, #33C3F0, #F97316 |
| TaskContext.TaskProvider.constructor | src/contexts/TaskContext.tsx:29-30 | the store starts with no tasks, the default projects and no notifications |
| TaskContext.NewTask | src/contexts/TaskContext.tsx:34-38 | the new task carries the draft's fields plus the supplied id and creation time |
| TaskContext.TaskCreatedToast | src/contexts/TaskContext.tsx:41-44 | the notification is titled "Task created" and its description opens with the quoted task title |
| TaskContext.TaskProvider.AddTask | src/contexts/TaskContext.tsx:33-45 | tasks become the old tasks, unchanged and in order, followed by exactly one new task; one "Task created" notification naming the draft's title is added; projects are untouched |
| TaskContext.AddedTaskInProjectOnce | src/contexts/TaskContext.tsx:33-40 | a task added under an id no task has appears exactly once among its project's tasks |
| TaskContext.Merge | src/contexts/TaskContext.tsx:49 | each field present in the partial task overrides, each absent one keeps the task's value |
| TaskContext.UpdatedTasks | src/contexts/TaskContext.tsx:47-51 | same length and order; tasks with the id get the partial task merged in, all others are unchanged |
| TaskContext.TaskProvider.UpdateTask | src/contexts/TaskContext.tsx:47-51 | the tasks are replaced by the updated tasks and nothing else changes |
| TaskContext.CompletedOnlyUpdate | src/contexts/TaskContext.tsx:47-51 | an update that sets only completed leaves title, priority, projectId, dueDate and the rest unchanged |
| TaskContext.EmptyUpdate | src/contexts/TaskContext.tsx:47-51 | an update with no fields leaves the tasks as they were |
| TaskContext.RemainingTasks | src/contexts/TaskContext.tsx:56 | exactly the tasks without that id, as an order-preserving subsequence as long as the number of such tasks (every occurrence kept) |
| TaskContext.TaskDeletedToasts | src/contexts/TaskContext.tsx:55-63 | one "Task deleted" notification naming a task with that id (the first), and none iff no task has the id |
| TaskContext.TaskProvider.DeleteTask | src/contexts/TaskContext.tsx:53-67 | removes every task with the id, keeping the rest in order, and shows the deletion notification; on an absent id neither tasks nor notifications change |
| TaskContext.DeleteAbsentTask | src/contexts/TaskContext.tsx:56 | deleting an id no task has leaves the tasks unchanged |
| TaskContext.DeleteTwice | src/contexts/TaskContext.tsx:56 | deleting the same id again changes nothing |
| TaskContext.DeleteRemovesOne | src/contexts/TaskContext.tsx:53-67 | with distinct ids, deleting an existing id removes exactly one task |
| TaskContext.ToggledTasks | src/contexts/TaskContext.tsx:69-75 | same length and order; tasks with the id have only completed flipped, all others are unchanged |
| TaskContext.ToggleTwice | src/contexts/TaskContext.tsx:69-75 | toggling the same id twice gives back the original tasks |
| TaskContext.TaskProvider.ToggleTaskCompletion | src/contexts/TaskContext.tsx:69-75 | the tasks are replaced by the toggled tasks and nothing else changes |
| TaskContext.NewProject | src/contexts/TaskContext.tsx:78-81 | the new project carries the draft's name and color and the supplied id |
| TaskContext.ProjectCreatedToast | src/contexts/TaskContext.tsx:83-86 | the notification is titled "Project created" and its description opens with the quoted project name |
| TaskContext.TaskProvider.AddProject | src/contexts/TaskContext.tsx:77-87 | projects grow by exactly one project at the end; one "Project created" notification is added; tasks are untouched |
| TaskContext.RemainingProjects | src/contexts/TaskContext.tsx:92 | exactly the projects without that id, as an order-preserving subsequence as long as the number of such projects (every occurrence kept) |
| TaskContext.ProjectDeletedToasts | src/contexts/TaskContext.tsx:91-99 | one "Project deleted" notification naming a project with that id (the first), and none iff no project has it |
| TaskContext.TaskProvider.DeleteProject | src/contexts/TaskContext.tsx:89-103 | removes every project with the id and notifies only if one existed; on an absent id neither projects nor notifications change; tasks are untouched |
| TaskContext.TaskProvider.TasksByProject | src/contexts/TaskContext.tsx:105-110 | a read-only query giving exactly the store's tasks of that project, in order, every occurrence kept |
| TaskContext.TaskProvider.TasksByPriority | src/contexts/TaskContext.tsx:112-117 | a read-only query giving exactly the store's tasks of that priority, in order, every occurrence kept |
| TaskContext.TaskProvider.GetProject | src/contexts/TaskContext.tsx:119-124 | the first of the store's projects with that id; none iff no project has it |
| Dashboard.StartOfDay | src/pages/Dashboard.tsx:11-12 | the midnight at or before the date, less than a day before it |
| Dashboard.AddDays | src/pages/Dashboard.tsx:17-18 | adding n days moves the day by exactly n and keeps the time of day |
| Dashboard.DueToday | src/pages/Dashboard.tsx:20-25 | the "today" callback rejects a task with no due date |
| Dashboard.DueUpcoming | src/pages/Dashboard.tsx:27-32 | the "upcoming" callback rejects a task with no due date |
| Dashboard.DueTodayIff | src/pages/Dashboard.tsx:20-25 | the "today" test holds iff the task has a due date on the same calendar day as now, whatever the time of day |
| Dashboard.DueUpcomingIff | src/pages/Dashboard.tsx:27-32 | the "upcoming" test holds iff the due day is after today and at most seven days after |
| Dashboard.TodayTasks | src/pages/Dashboard.tsx:20-25 | exactly the tasks due on today's day, as an order-preserving subsequence with every occurrence kept |
| Dashboard.UpcomingTasks | src/pages/Dashboard.tsx:27-32 | exactly the tasks due in (today, today + 7], as an order-preserving subsequence with every occurrence kept |
| Dashboard.CurrentTasks | src/pages/Dashboard.tsx:34-44 | the today list for "today", the upcoming list for "upcoming", and every task for any other tab |
| Dashboard.CurrentTasksIsSubsequence | src/pages/Dashboard.tsx:34-44 | whatever the tab, the list shown is an order-preserving subsequence of the tasks |
| Dashboard.NoDueDateInNeither | src/pages/Dashboard.tsx:21-28 | a task without a due date is in neither list |
| Dashboard.TodayUpcomingDisjoint | src/pages/Dashboard.tsx:20-32 | no task is in both lists |
| Dashboard.OutOfRangeInNeither | src/pages/Dashboard.tsx:20-32 | a task due before today, or more than seven days ahead, is in neither list |
| Dashboard.TimeOfDayIrrelevant | src/pages/Dashboard.tsx:11-32 | two moments of the same day give the same today and upcoming lists |
| IsoText.ToIso | src/services/supabase/taskService.ts:72 | a date's text is never empty, so it is never read as "no due date" |
| IsoText.ParseIso | src/services/supabase/taskService.ts:21-22 | a property of the decimal stand-in for ISO text, not of `new Date`: text reads as negative only when it starts with '-', and never as positive when it does; its partner, the read-back of `ToIso`'s text, is IsoRoundTrip |
| IsoText.IsoRoundTrip | src/services/supabase/taskService.ts:72 | reading a date's text back gives the same date |
| TaskService.DueDateFromText | src/services/supabase/taskService.ts:21 | a missing or empty due_date is no due date; any other text is read as a date |
| TaskService.DueDateText | src/services/supabase/taskService.ts:72 | a due date is sent as text, an absent one as null, and the text reads back to the same due date |
| TaskService.TaskFromRow | src/services/supabase/taskService.ts:15-23 | id, title, completed and priority are copied; project_id becomes projectId; due_date becomes dueDate (null when missing or empty); created_at is read as createdAt |
| TaskService.TaskRowRoundTrip | src/services/supabase/taskService.ts:15-23 | a task stored as a row reads back as the same task |
| TaskService.TasksFromRows | src/services/supabase/taskService.ts:15-23 | the returned rows become the same number of tasks, each the mapping of its row, in order |
| TaskService.ProjectFromRow | src/services/supabase/taskService.ts:47-51 | id, name and color are copied |
| TaskService.ProjectsFromRows | src/services/supabase/taskService.ts:47-51 | the returned rows become the same number of projects, each the mapping of its row, in order |
| TaskService.FetchTasks | src/services/supabase/taskService.ts:5-26 | an error is rethrown; no data gives the empty list; otherwise each returned row is mapped, in order |
| TaskService.TaskInsertOf | src/services/supabase/taskService.ts:72-83 | the insert carries title, completed, priority, project_id, due_date and user_id; due_date is present iff the draft has a due date and reads back to it |
| TaskService.CreateTaskResult | src/services/supabase/taskService.ts:87-101 | fails with the service's error, or with "no data" when there is no row, and otherwise returns the row mapped to a task |
| TaskService.CreateTaskRoundTrip | src/services/supabase/taskService.ts:68-101 | draft, then inserted row, then returned task keeps title, completed, priority, projectId and dueDate, and adds the table's id and creation time |
| TaskService.ProjectInsertOf | src/services/supabase/taskService.ts:136-140 | the insert carries name, color and user_id, and no id |
| TaskService.CreateProjectResult | src/services/supabase/taskService.ts:144-154 | fails with the service's error, or with "no data" when there is no row, and otherwise returns the row mapped to a project |
| TaskService.CreateProjectRoundTrip | src/services/supabase/taskService.ts:133-155 | draft, then inserted row, then returned project keeps name and color and adds the table's id |
| TaskService.UpdatePayload | src/services/supabase/taskService.ts:104-114 | a key is present iff the partial field is defined; projectId is sent as project_id and dueDate as due_date (a date as its text, null as null); no other key, so never id or createdAt |
| TaskService.BuildUpdatePayload | src/services/supabase/taskService.ts:104-114 | the field-by-field construction yields exactly that payload |
| TaskService.PayloadAgreesWithMerge | src/services/supabase/taskService.ts:104-114 | applying the payload to a row and reading it back gives the store's merge of the partial task, minus id and createdAt |
| TaskService.UpdatedRows | src/services/supabase/taskService.ts:116-119 | same rows in order; rows with the id get the payload applied, the others are unchanged |
| TaskService.RemoteUpdateMatchesLocal | src/services/supabase/taskService.ts:104-121 | the table's tasks after an update equal the store's tasks after the same update with the patch's id and createdAt dropped, since the service never sends those keys |
| TaskService.TaskTable.UpdateTaskById | src/services/supabase/taskService.ts:104-122 | on an error the error is returned and the table is unchanged; otherwise the payload is applied to the rows with the id |
| TaskService.TaskTable.DeleteTaskById | src/services/supabase/taskService.ts:124-131 | on an error the error is returned and the table is unchanged; otherwise the rows with the id are removed |
| TaskService.DefaultInsert | src/services/supabase/taskService.ts:60-64 | a default is inserted as its name, color and the user id, with no id |
| TaskService.StoredDefaultsReadBack | src/services/supabase/taskService.ts:56-66 | the seeded rows read back as projects with the defaults' names and colors, in order |
| TaskService.NeedsBootstrap | src/services/supabase/taskService.ts:33-45 | seeding happens only without an error or on the PGRST116 error, and never after a read that returned a non-empty table |
| TaskService.ProjectTable.CreateDefaultProjects | src/services/supabase/taskService.ts:56-66 | appends one row per default, in order, each holding the default's name and color, the user id and a table-assigned id |
| TaskService.ProjectTable.FetchProjects | src/services/supabase/taskService.ts:28-54 | another error is rethrown with the table unchanged; a non-empty table is returned mapped, with nothing inserted; on an empty table, a read returning no data, or the PGRST116 error the defaults are inserted in order and the table is read again |
| TaskService.ProjectTable.DeleteProjectById | src/services/supabase/taskService.ts:157-164 | on an error the error is returned and the table is unchanged; otherwise the rows with the id are removed |
| TaskService.LoadTwiceSeedsOnce | src/services/supabase/taskService.ts:28-66 | a first load of an empty table returns the defaults' names and colors, in order; a second load returns the same and inserts nothing: afterwards the table holds exactly one seeded row per default |

## Left out

- View components, routing, dialogs and loading flags are not part of this model. The same holds for the blank-title and blank-name form guards and the username check of the sign-up form.
- Toast delivery and the React context plumbing are not modelled. The store records each notification as a (title, description) pair in `notifications`. The `useTaskContext` guard that throws outside a provider is not modelled.
- Asynchronous ordering and races between calls are not modelled. Each operation runs to completion.
- Random ids and `new Date()` are not modelled; they are parameters. Uniqueness of ids is an assumption, stated where a lemma needs it.
- Time zones and daylight saving are not modelled. A day is exactly 86 400 000 local milliseconds.
- The textual format of ISO-8601 is not modelled. Invalid dates (`new Date` of unparseable text) are not modelled either.
- The Supabase client is not modelled. The remote tables are sequences of rows. The `created_at` ordering that `fetchTasks` requests is the service's job, so the model takes rows in the order returned.
- Row `priority` is typed as a priority. The source casts the column without checking it.
- A partial task whose key is present but holds `undefined` is modelled as the key being absent. In the store's spread, such a key would overwrite the field with `undefined`.
- `fetchTasks`/`fetchProjects` take a user id and never filter by it; the model does the same.
- TaskService.ProjectTable.FetchProjects: requires a non-empty default list unless the table already has rows or the first read fails with an error other than PGRST116. With no defaults and an empty table to seed, the source re-reads the empty table forever. Only the first read may fail or return no data; the re-read returns the table as it stands. The re-read and the seeding inserts are taken to succeed: the source ignores insert failures and would then recurse without end.
- The `tomorrow` value computed at src/pages/Dashboard.tsx:14-15 is never used, so it is not modelled.
