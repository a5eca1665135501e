/** The front end's study planner: toggling a task, the incomplete-first /
    most-urgent-first ordering of a copy of the list, the due-date label and the
    sidebar counts. The clock is a parameter. */
module StudyPlanner {

  /** A task as the planner holds it; the due date is in milliseconds. */
  datatype PlannerTask = PlannerTask(
    id: string, title: string, subject: string, dueDate: int,
    priority: string, completed: bool, urgency: int)

  // ---------------------------------------------------------------------------
  // Toggling
  // ---------------------------------------------------------------------------

  function Toggled(t: PlannerTask, id: string): PlannerTask {
    if t.id == id then t.(completed := !t.completed) else t
  }

  /** The list with `completed` flipped on exactly the tasks carrying `id`;
      length, order and every other field are kept. */
  function ToggleTask(tasks: seq<PlannerTask>, id: string): (r: seq<PlannerTask>)
    ensures |r| == |tasks|
    ensures forall i :: 0 <= i < |tasks| ==> r[i] == tasks[i].(completed := r[i].completed)
    ensures forall i :: 0 <= i < |tasks| ==> (r[i].completed != tasks[i].completed <==> tasks[i].id == id)
  {
    seq(|tasks|, i requires 0 <= i < |tasks| => Toggled(tasks[i], id))
  }

  /** Toggling the same id twice gives back the original list. */
  lemma ToggleTwiceRestores(tasks: seq<PlannerTask>, id: string)
    ensures ToggleTask(ToggleTask(tasks, id), id) == tasks
  {
    var once := ToggleTask(tasks, id);
    var twice := ToggleTask(once, id);
    forall i | 0 <= i < |tasks| ensures twice[i] == tasks[i] {
      assert once[i].id == tasks[i].id;
    }
  }

  // ---------------------------------------------------------------------------
  // Ordering
  // ---------------------------------------------------------------------------

  /** The comparator handed to `sort`: an incomplete task before a completed
      one, otherwise the more urgent first. */
  function Compare(a: PlannerTask, b: PlannerTask): (r: int)
    ensures r < 0 <==> (!a.completed && b.completed) || (a.completed == b.completed && a.urgency > b.urgency)
    ensures r == 0 <==> a.completed == b.completed && a.urgency == b.urgency
  {
    if a.completed != b.completed then (if a.completed then 1 else -1)
    else b.urgency - a.urgency
  }

  predicate Precedes(a: PlannerTask, b: PlannerTask) {
    Compare(a, b) <= 0
  }

  /** The comparator is consistent: its sign flips with its arguments, and the
      order it induces is total and transitive. */
  lemma ComparatorConsistent(a: PlannerTask, b: PlannerTask, c: PlannerTask)
    ensures Compare(a, b) < 0 <==> Compare(b, a) > 0
    ensures Compare(a, b) == 0 <==> Compare(b, a) == 0
    ensures Precedes(a, b) || Precedes(b, a)
    ensures Precedes(a, b) && Precedes(b, c) ==> Precedes(a, c)
  {
  }

  predicate Sorted(s: seq<PlannerTask>) {
    forall i, j :: 0 <= i < j < |s| ==> Precedes(s[i], s[j])
  }

  /** Exchanges two cells of the array. */
  method Swap(a: array<PlannerTask>, i: nat, j: nat)
    requires i < a.Length && j < a.Length
    modifies a
    ensures a[..] == old(a[..])[i := old(a[j])][j := old(a[i])]
    ensures multiset(a[..]) == multiset(old(a[..]))
  {
    a[i], a[j] := a[j], a[i];
  }

  /** One pass of the insertion sort: moves a[i] left past every task that
      must come after it, so that a[..i + 1] is sorted. */
  method InsertAt(a: array<PlannerTask>, i: nat)
    requires i < a.Length && Sorted(a[..i])
    modifies a
    ensures Sorted(a[..i + 1])
    ensures multiset(a[..]) == multiset(old(a[..]))
  {
    var j := i;
    while j > 0 && Compare(a[j - 1], a[j]) > 0
      invariant 0 <= j <= i
      invariant multiset(a[..]) == multiset(old(a[..]))
      invariant forall k, l :: 0 <= k < l <= i && k != j && l != j ==> Precedes(a[k], a[l])
      invariant forall l :: j < l <= i ==> Precedes(a[j], a[l])
    {
      Swap(a, j - 1, j);
      j := j - 1;
    }
  }

  /** `[...tasks].sort(Compare)`: an insertion sort of a copy in an array. The
      result is a permutation of the input, every incomplete task comes before
      every completed one, and urgency does not increase within each group. */
  method SortTasks(tasks: seq<PlannerTask>) returns (sorted: seq<PlannerTask>)
    ensures |sorted| == |tasks| && multiset(sorted) == multiset(tasks)
    ensures Sorted(sorted)
    ensures forall i, j :: 0 <= i < |sorted| && 0 <= j < |sorted| && !sorted[i].completed && sorted[j].completed ==> i < j
    ensures forall i, j :: 0 <= i < j < |sorted| && sorted[i].completed == sorted[j].completed ==> sorted[i].urgency >= sorted[j].urgency
  {
    var a := new PlannerTask[|tasks|](i requires 0 <= i < |tasks| => tasks[i]);
    assert a[..] == tasks;
    for i := 0 to a.Length
      invariant multiset(a[..]) == multiset(tasks)
      invariant Sorted(a[..i])
    {
      InsertAt(a, i);
    }
    assert a[..a.Length] == a[..];
    sorted := a[..];
  }

  // ---------------------------------------------------------------------------
  // Due-date label
  // ---------------------------------------------------------------------------

  const DayMillis: int := 1000 * 60 * 60 * 24

  datatype DueLabel = Overdue | Today | Tomorrow | InDays(days: int)

  /** `formatDate`: the ceiling of the difference in days, then Overdue below
      zero, Today at zero, Tomorrow at one and "N days" beyond. A task due less
      than a day ago still reads Today. */
  function FormatDate(dueDate: int, now: int): (shown: DueLabel)
    ensures shown == Overdue <==> dueDate - now <= -DayMillis
    ensures shown == Today <==> -DayMillis < dueDate - now <= 0
    ensures shown == Tomorrow <==> 0 < dueDate - now <= DayMillis
    ensures shown.InDays? <==> dueDate - now > DayMillis
    ensures shown.InDays? ==> (shown.days - 1) * DayMillis < dueDate - now <= shown.days * DayMillis
  {
    var diff := -((now - dueDate) / DayMillis);
    if diff < 0 then Overdue
    else if diff == 0 then Today
    else if diff == 1 then Tomorrow
    else InDays(diff)
  }

  // ---------------------------------------------------------------------------
  // Sidebar counts
  // ---------------------------------------------------------------------------

  /** `tasks.filter(t => t.completed).length`. */
  function CompletedCount(tasks: seq<PlannerTask>): (n: nat)
    ensures n <= |tasks|
  {
    if tasks == [] then 0
    else CompletedCount(tasks[..|tasks| - 1]) + (if tasks[|tasks| - 1].completed then 1 else 0)
  }

  /** `tasks.filter(t => t.priority === 'high' && !t.completed).length`: never
      more than the tasks that are not completed. */
  function OpenHighPriorityCount(tasks: seq<PlannerTask>): (n: nat)
    ensures n + CompletedCount(tasks) <= |tasks|
  {
    if tasks == [] then 0
    else
      var last := tasks[|tasks| - 1];
      OpenHighPriorityCount(tasks[..|tasks| - 1]) + (if last.priority == "high" && !last.completed then 1 else 0)
  }

  predicate UniqueIds(tasks: seq<PlannerTask>) {
    forall i, j :: 0 <= i < j < |tasks| ==> tasks[i].id != tasks[j].id
  }

  lemma TogglePrefix(tasks: seq<PlannerTask>, id: string, n: nat)
    requires n <= |tasks|
    ensures ToggleTask(tasks, id)[..n] == ToggleTask(tasks[..n], id)
  {
  }

  /** When ids are unique, toggling one task moves the "Completed" count by
      exactly one, up or down according to that task's previous state. */
  lemma {:induction false} ToggleMovesCompletedCount(tasks: seq<PlannerTask>, k: nat)
    requires UniqueIds(tasks) && k < |tasks|
    ensures CompletedCount(ToggleTask(tasks, tasks[k].id))
         == CompletedCount(tasks) + (if tasks[k].completed then -1 else 1)
  {
    var id := tasks[k].id;
    var n := |tasks| - 1;
    var init := tasks[..n];
    var r := ToggleTask(tasks, id);
    TogglePrefix(tasks, id, n);
    assert r[..n] == ToggleTask(init, id);
    if k == n {
      assert ToggleTask(init, id) == init by {
        forall i | 0 <= i < n ensures ToggleTask(init, id)[i] == init[i] {
          assert init[i].id != id;
        }
      }
    } else {
      assert UniqueIds(init) && init[k] == tasks[k];
      ToggleMovesCompletedCount(init, k);
      assert r[n] == tasks[n];
    }
  }
}
