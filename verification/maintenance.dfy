/** The maintenance view: the maintenance-only task list split into pending
    and completed, the check-mark toggle, and the task the "Add Task" form
    submits. */
module Maintenance {
  import opened Optional
  import opened Dates
  import opened Seqs
  import opened Store
  import opened Types
  import AppContext

  /** The status a click on the check mark moves to: a completed task
      becomes pending, a pending one completed. */
  function Toggle(s: TaskStatus): (r: TaskStatus)
    ensures r != s
  {
    if s == Completed then TaskStatus.Pending else Completed
  }

  /** Toggling twice restores the status. */
  lemma ToggleInvolution(s: TaskStatus)
    ensures Toggle(Toggle(s)) == s
  {
  }

  /** The patch the toggle button sends: the new status and nothing else. */
  function TogglePatch(current: TaskStatus): (r: Patch<TaskPatch>)
    ensures r.id.None?
    ensures forall f: TaskFields {:trigger MergeTask(f, r.fields)} :: MergeTask(f, r.fields) == f.(status := Toggle(current))
  {
    Patch(None, NoTaskChange.(status := Some(Toggle(current))))
  }

  /** The check-mark click handed to the task store's update: every task
      with that id gets the flipped status and keeps its id and every other
      field; every other task is unchanged. */
  function ToggleTaskStatus(tasks: seq<Task>, id: int, current: TaskStatus): (r: seq<Task>)
    ensures |r| == |tasks|
    ensures forall i :: 0 <= i < |tasks| && tasks[i].id != id ==> r[i] == tasks[i]
    ensures forall i :: 0 <= i < |tasks| && tasks[i].id == id ==>
              r[i] == Record(id, tasks[i].fields.(status := Toggle(current)))
  {
    Update(tasks, id, TogglePatch(current), MergeTask)
  }

  /** Clicking the check mark twice on the same task (the second click sees
      the flipped status) gives back the original task list. */
  lemma ToggleTwiceRestores(tasks: seq<Task>, id: int, current: TaskStatus)
    requires forall i :: 0 <= i < |tasks| && tasks[i].id == id ==> tasks[i].fields.status == current
    ensures ToggleTaskStatus(ToggleTaskStatus(tasks, id, current), id, Toggle(current)) == tasks
  {
  }

  /** The tasks of type maintenance, in collection order; bill reminders
      are left out. */
  function MaintenanceTasks(tasks: seq<Task>): (r: seq<Task>)
    ensures forall i :: 0 <= i < |r| ==> r[i] in tasks && r[i].fields.kind == Maintenance
    ensures forall i :: 0 <= i < |tasks| && tasks[i].fields.kind == Maintenance ==> tasks[i] in r
    ensures |r| == Count(tasks, (t: Task) => t.fields.kind == Maintenance)
  {
    FilterLength(tasks, (t: Task) => t.fields.kind == Maintenance);
    Filter(tasks, (t: Task) => t.fields.kind == Maintenance)
  }

  /** The maintenance view keeps the tasks in collection order: computing it
      on a concatenation computes it on each part, in place. */
  lemma MaintenanceTasksKeepOrder(a: seq<Task>, b: seq<Task>)
    ensures MaintenanceTasks(a + b) == MaintenanceTasks(a) + MaintenanceTasks(b)
  {
    FilterAppend(a, b, (t: Task) => t.fields.kind == Maintenance);
  }

  /** The "Pending Tasks" column: the pending maintenance tasks, in
      collection order, each as many times as it occurs. */
  function PendingColumn(tasks: seq<Task>): (r: seq<Task>)
    ensures forall i :: 0 <= i < |r| ==>
              r[i] in tasks && r[i].fields.kind == Maintenance && r[i].fields.status == TaskStatus.Pending
    ensures forall i :: (0 <= i < |tasks| && tasks[i].fields.kind == Maintenance
              && tasks[i].fields.status == TaskStatus.Pending) ==> tasks[i] in r
    ensures |r| == Count(tasks, (t: Task) => t.fields.kind == Maintenance && t.fields.status == TaskStatus.Pending)
  {
    var isMaintenance := (t: Task) => t.fields.kind == Maintenance;
    var isPending := (t: Task) => t.fields.status == TaskStatus.Pending;
    var both := (t: Task) => t.fields.kind == Maintenance && t.fields.status == TaskStatus.Pending;
    FilterOfFilter(tasks, isMaintenance, isPending, both);
    FilterLength(tasks, both);
    Filter(MaintenanceTasks(tasks), isPending)
  }

  /** The "Completed Tasks" column: the completed maintenance tasks, in
      collection order, each as many times as it occurs. */
  function CompletedColumn(tasks: seq<Task>): (r: seq<Task>)
    ensures forall i :: 0 <= i < |r| ==>
              r[i] in tasks && r[i].fields.kind == Maintenance && r[i].fields.status == Completed
    ensures forall i :: (0 <= i < |tasks| && tasks[i].fields.kind == Maintenance
              && tasks[i].fields.status == Completed) ==> tasks[i] in r
    ensures |r| == Count(tasks, (t: Task) => t.fields.kind == Maintenance && t.fields.status == Completed)
  {
    var isMaintenance := (t: Task) => t.fields.kind == Maintenance;
    var isCompleted := (t: Task) => t.fields.status == Completed;
    var both := (t: Task) => t.fields.kind == Maintenance && t.fields.status == Completed;
    FilterOfFilter(tasks, isMaintenance, isCompleted, both);
    FilterLength(tasks, both);
    Filter(MaintenanceTasks(tasks), isCompleted)
  }

  /** The two columns partition the maintenance tasks: each is in exactly
      one column, no bill-typed task is in either, and the column lengths
      add up to the number of maintenance tasks. */
  lemma ColumnsPartition(tasks: seq<Task>)
    ensures |PendingColumn(tasks)| + |CompletedColumn(tasks)| == |MaintenanceTasks(tasks)|
    ensures forall i :: 0 <= i < |tasks| && tasks[i].fields.kind == Maintenance ==>
              (tasks[i] in PendingColumn(tasks) <==> tasks[i] !in CompletedColumn(tasks))
    ensures forall t :: t in PendingColumn(tasks) || t in CompletedColumn(tasks) ==>
              t in tasks && t.fields.kind == Maintenance
  {
    var m := MaintenanceTasks(tasks);
    FilterPartition(m, (t: Task) => t.fields.status == TaskStatus.Pending, (t: Task) => t.fields.status == Completed);
  }

  /** The task the form submits: the typed-in title and date, type
      maintenance, status pending. */
  function NewMaintenanceTask(title: string, date: Date): (r: TaskFields)
    ensures r.title == title && r.date == date
    ensures r.kind == Maintenance && r.status == TaskStatus.Pending
  {
    TaskFields(title, date, Maintenance, TaskStatus.Pending)
  }

  /** Submitting the form appends one task with the next id, which shows up
      at the bottom of the "Pending Tasks" column and nowhere else. */
  lemma SubmitTaskShowsAsPending(s: AppContext.AppState, title: string, date: Date)
    ensures var r := AppContext.Apply(s, AppContext.AddTask(NewMaintenanceTask(title, date)));
      var added := Record(|s.tasks| + 1, NewMaintenanceTask(title, date));
      && r.tasks == s.tasks + [added]
      && PendingColumn(r.tasks) == PendingColumn(s.tasks) + [added]
      && CompletedColumn(r.tasks) == CompletedColumn(s.tasks)
  {
    var added := Record(|s.tasks| + 1, NewMaintenanceTask(title, date));
    var isMaintenance := (t: Task) => t.fields.kind == Maintenance;
    var isPending := (t: Task) => t.fields.status == TaskStatus.Pending;
    var isCompleted := (t: Task) => t.fields.status == Completed;
    FilterAppend(s.tasks, [added], isMaintenance);
    assert [added][1..] == [];
    assert Filter([added], isMaintenance) == [added];
    FilterAppend(MaintenanceTasks(s.tasks), [added], isPending);
    FilterAppend(MaintenanceTasks(s.tasks), [added], isCompleted);
    assert Filter([added], isCompleted) == [];
  }
}
