/** The date filters of the dashboard page (`src/pages/Dashboard.tsx`): the
    tasks due today, the tasks due within the next seven days, and the list
    the selected tab shows. Dates are local wall-clock milliseconds, so
    `setHours(0, 0, 0, 0)` is rounding down to a multiple of a day and
    `setDate(getDate() + n)` on a midnight adds `n` days. */
module Dashboard {
  import opened Wrappers
  import opened Types
  import opened Seqs

  const MsPerDay: int := 86_400_000

  /** The calendar day a date falls on, counted from the clock's origin. */
  function DayOf(d: Date): int {
    d.millis / MsPerDay
  }

  /** `setHours(0, 0, 0, 0)`: the midnight that starts the date's day. */
  function StartOfDay(d: Date): (r: Date)
    ensures r.millis <= d.millis < r.millis + MsPerDay
    ensures r.millis == DayOf(d) * MsPerDay
  {
    Date(DayOf(d) * MsPerDay)
  }

  /** `setDate(getDate() + n)`, with no daylight-saving shift. */
  function AddDays(d: Date, n: int): (r: Date)
    ensures DayOf(r) == DayOf(d) + n
    ensures r.millis - StartOfDay(r).millis == d.millis - StartOfDay(d).millis
  {
    Date(d.millis + n * MsPerDay)
  }

  /** The `todayTasks` test: a due date whose midnight is today's midnight. */
  predicate DueToday(t: Task, now: Date)
    ensures DueToday(t, now) ==> t.dueDate.Some?
  {
    t.dueDate.Some? && StartOfDay(t.dueDate.value).millis == StartOfDay(now).millis
  }

  /** The `upcomingTasks` test: a due midnight after today's and no later than a week from it. */
  predicate DueUpcoming(t: Task, now: Date)
    ensures DueUpcoming(t, now) ==> t.dueDate.Some?
  {
    var today := StartOfDay(now);
    var nextWeek := AddDays(today, 7);
    t.dueDate.Some? &&
    StartOfDay(t.dueDate.value).millis > today.millis &&
    StartOfDay(t.dueDate.value).millis <= nextWeek.millis
  }

  function IsDueToday(now: Date): Task -> bool {
    (t: Task) => DueToday(t, now)
  }

  function IsDueUpcoming(now: Date): Task -> bool {
    (t: Task) => DueUpcoming(t, now)
  }

  /** A task is due today iff it has a due date on the same calendar day as
      `now`, whatever the time of day of either. */
  lemma DueTodayIff(t: Task, now: Date)
    ensures DueToday(t, now) <==> t.dueDate.Some? && DayOf(t.dueDate.value) == DayOf(now)
  {
  }

  /** A task is upcoming iff its due day lies in (today, today + 7]. */
  lemma DueUpcomingIff(t: Task, now: Date)
    ensures DueUpcoming(t, now) <==>
            t.dueDate.Some? && DayOf(now) < DayOf(t.dueDate.value) <= DayOf(now) + 7
  {
  }

  function TodayTasks(tasks: seq<Task>, now: Date): (r: seq<Task>)
    ensures forall t :: t in r <==>
              t in tasks && t.dueDate.Some? && DayOf(t.dueDate.value) == DayOf(now)
    ensures IsSubsequence(r, tasks)
    ensures |r| == Count(tasks, IsDueToday(now))
  {
    FilterIsSelection(tasks, IsDueToday(now));
    assert forall t :: DueToday(t, now) <==> t.dueDate.Some? && DayOf(t.dueDate.value) == DayOf(now) by {
      forall t: Task { DueTodayIff(t, now); }
    }
    Filter(tasks, IsDueToday(now))
  }

  function UpcomingTasks(tasks: seq<Task>, now: Date): (r: seq<Task>)
    ensures forall t :: t in r <==>
              t in tasks && t.dueDate.Some? && DayOf(now) < DayOf(t.dueDate.value) <= DayOf(now) + 7
    ensures IsSubsequence(r, tasks)
    ensures |r| == Count(tasks, IsDueUpcoming(now))
  {
    FilterIsSelection(tasks, IsDueUpcoming(now));
    assert forall t :: DueUpcoming(t, now) <==>
             t.dueDate.Some? && DayOf(now) < DayOf(t.dueDate.value) <= DayOf(now) + 7 by {
      forall t: Task { DueUpcomingIff(t, now); }
    }
    Filter(tasks, IsDueUpcoming(now))
  }

  /** The list the active tab shows; anything but "today" or "upcoming" shows every task. */
  function CurrentTasks(activeTab: string, tasks: seq<Task>, now: Date): (r: seq<Task>)
    ensures activeTab == "today" ==> r == TodayTasks(tasks, now)
    ensures activeTab == "upcoming" ==> r == UpcomingTasks(tasks, now)
    ensures activeTab != "today" && activeTab != "upcoming" ==> r == tasks
  {
    match activeTab
    case "today" => TodayTasks(tasks, now)
    case "upcoming" => UpcomingTasks(tasks, now)
    case _ => tasks
  }

  /** Whatever the tab, the list shown is an order-preserving selection of the tasks. */
  lemma CurrentTasksIsSubsequence(activeTab: string, tasks: seq<Task>, now: Date)
    ensures IsSubsequence(CurrentTasks(activeTab, tasks, now), tasks)
  {
    if activeTab != "today" && activeTab != "upcoming" {
      SubsequenceReflexive(tasks);
    }
  }

  /** A task without a due date is in neither list. */
  lemma NoDueDateInNeither(tasks: seq<Task>, now: Date, t: Task)
    requires t.dueDate.None?
    ensures t !in TodayTasks(tasks, now) && t !in UpcomingTasks(tasks, now)
  {
  }

  /** No task is both due today and upcoming. */
  lemma TodayUpcomingDisjoint(tasks: seq<Task>, now: Date, t: Task)
    ensures !(t in TodayTasks(tasks, now) && t in UpcomingTasks(tasks, now))
  {
  }

  /** An overdue task, and one due more than a week ahead, is in neither list. */
  lemma OutOfRangeInNeither(tasks: seq<Task>, now: Date, t: Task)
    requires t.dueDate.Some?
    requires DayOf(t.dueDate.value) < DayOf(now) || DayOf(t.dueDate.value) > DayOf(now) + 7
    ensures t !in TodayTasks(tasks, now) && t !in UpcomingTasks(tasks, now)
  {
  }

  /** Two moments of the same day select the same tasks as "today" and as "upcoming". */
  lemma TimeOfDayIrrelevant(tasks: seq<Task>, now: Date, later: Date)
    requires DayOf(now) == DayOf(later)
    ensures TodayTasks(tasks, now) == TodayTasks(tasks, later)
    ensures UpcomingTasks(tasks, now) == UpcomingTasks(tasks, later)
  {
    FilterAgree(tasks, IsDueToday(now), IsDueToday(later));
    FilterAgree(tasks, IsDueUpcoming(now), IsDueUpcoming(later));
  }
}
