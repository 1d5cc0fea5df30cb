/**
 * The home screen's in-memory task list: the three filters, the count of
 * tasks waiting for sync, toggling, deleting, and the simulated sync.
 */
module Home {
  import opened Sequences
  import opened TaskModel

  /** `currentFilter: 'all' | 'pending' | 'completed'`. */
  datatype TaskFilter = All | Pending | Completed

  predicate IsPending(t: Task)
  {
    !t.isCompleted
  }

  predicate IsDone(t: Task)
  {
    t.isCompleted
  }

  /** The `pendingTasks` getter. */
  function PendingTasks(s: seq<Task>): seq<Task>
  {
    Filter(IsPending, s)
  }

  /** The `completedTasks` getter. */
  function CompletedTasks(s: seq<Task>): seq<Task>
  {
    Filter(IsDone, s)
  }

  /** What filterTasks assigns to `filteredTasks`. */
  function Filtered(s: seq<Task>, f: TaskFilter): seq<Task>
  {
    match f
    case Pending => PendingTasks(s)
    case Completed => CompletedTasks(s)
    case All => s
  }

  /** `allTasks.filter(t => !t.isSynced).length`. */
  function PendingSyncCount(s: seq<Task>): nat
  {
    |Unsynced(s)|
  }

  /** toggleTaskCompletion's in-place edits of one task. */
  function Toggled(t: Task, now: Timestamp): (r: Task)
    ensures r.id == t.id && r.isCompleted != t.isCompleted && !r.isSynced && r.updatedAt == now
    ensures r.(isCompleted := t.isCompleted, updatedAt := t.updatedAt, isSynced := t.isSynced) == t
  {
    t.(isCompleted := !t.isCompleted, updatedAt := now, isSynced := false)
  }

  /** `t => t.id !== id`. */
  function HasOtherId(id: Id): Task -> bool
  {
    (t: Task) => t.id != id
  }

  /** `allTasks.filter(t => t.id !== id)`. */
  function WithoutId(s: seq<Task>, id: Id): seq<Task>
  {
    Filter(HasOtherId(id), s)
  }

  /** The list after `forEach(task => task.isSynced = true)`. */
  function AllSynced(s: seq<Task>): (r: seq<Task>)
    ensures |r| == |s|
    ensures forall i :: 0 <= i < |s| ==> r[i] == Synced(s[i])
    decreases |s|
  {
    if s == [] then [] else AllSynced(s[..|s| - 1]) + [Synced(s[|s| - 1])]
  }

  /**
   * Each filter keeps exactly the tasks it names, every occurrence, in their
   * original order; 'all' is the whole list.
   */
  lemma FilteredExact(s: seq<Task>, f: TaskFilter, t: Task)
    ensures IsSubsequence(Filtered(s, f), s)
    ensures f == All ==> Filtered(s, f) == s
    ensures f == Pending ==> multiset(Filtered(s, f))[t] == if !t.isCompleted then multiset(s)[t] else 0
    ensures f == Completed ==> multiset(Filtered(s, f))[t] == if t.isCompleted then multiset(s)[t] else 0
  {
    match f
    case All => SubsequenceOfItself(s);
    case Pending => FilterIsSubsequence(IsPending, s); FilterCount(IsPending, s, t);
    case Completed => FilterIsSubsequence(IsDone, s); FilterCount(IsDone, s, t);
  }

  /** `pendingTasks` and `completedTasks` split `allTasks` between them. */
  lemma PendingCompletedPartition(s: seq<Task>)
    ensures multiset(PendingTasks(s)) + multiset(CompletedTasks(s)) == multiset(s)
    ensures |PendingTasks(s)| + |CompletedTasks(s)| == |s|
  {
    forall t ensures (multiset(PendingTasks(s)) + multiset(CompletedTasks(s)))[t] == multiset(s)[t] {
      FilterCount(IsPending, s, t);
      FilterCount(IsDone, s, t);
    }
    assert multiset(PendingTasks(s)) + multiset(CompletedTasks(s)) == multiset(s);
    assert |multiset(PendingTasks(s)) + multiset(CompletedTasks(s))| == |multiset(s)|;
  }

  /** Toggling one task raises the pending-sync count by one exactly when it was synced. */
  lemma ToggleCount(s: seq<Task>, i: nat, now: Timestamp)
    requires i < |s|
    ensures PendingSyncCount(s[i := Toggled(s[i], now)]) == PendingSyncCount(s) + (if s[i].isSynced then 1 else 0)
  {
    FilterLengthReplace(IsUnsynced, s, i, Toggled(s[i], now));
  }

  /** Toggling twice restores the completion flag but leaves the task unsynced. */
  lemma ToggleTwice(t: Task, now1: Timestamp, now2: Timestamp)
    ensures Toggled(Toggled(t, now1), now2) == t.(updatedAt := now2, isSynced := false)
  {
  }

  /** Deleting drops every task with that id and keeps the others, in order. */
  lemma WithoutIdExact(s: seq<Task>, id: Id, t: Task)
    ensures id !in Ids(WithoutId(s, id))
    ensures multiset(WithoutId(s, id))[t] == if t.id != id then multiset(s)[t] else 0
    ensures IsSubsequence(WithoutId(s, id), s)
  {
    FilterCount(HasOtherId(id), s, t);
    FilterIsSubsequence(HasOtherId(id), s);
  }

  lemma AllSyncedAppend(s: seq<Task>, t: Task)
    ensures AllSynced(s + [t]) == AllSynced(s) + [Synced(t)]
  {
    assert (s + [t])[..|s|] == s;
  }

  /** After the simulated sync nothing is pending, and every filter sees the synced tasks. */
  lemma {:induction false} AllSyncedClearsCount(s: seq<Task>)
    ensures PendingSyncCount(AllSynced(s)) == 0
    decreases |s|
  {
    if s != [] {
      var init, last := s[..|s| - 1], s[|s| - 1];
      AllSyncedClearsCount(init);
      FilterAppend(IsUnsynced, AllSynced(init), Synced(last));
    }
  }

  lemma {:induction false} FilterAllSynced(p: Task -> bool, s: seq<Task>)
    requires forall t :: p(Synced(t)) == p(t)
    ensures Filter(p, AllSynced(s)) == AllSynced(Filter(p, s))
    decreases |s|
  {
    if s != [] {
      var init, last := s[..|s| - 1], s[|s| - 1];
      assert s == init + [last];
      FilterAllSynced(p, init);
      AllSyncedAppend(init, last);
      FilterAppend(p, AllSynced(init), Synced(last));
      FilterAppend(p, init, last);
      assert p(Synced(last)) == p(last);
      if p(last) {
        AllSyncedAppend(Filter(p, init), last);
      } else {
        assert Filter(p, s) == Filter(p, init);
        assert Filter(p, AllSynced(s)) == Filter(p, AllSynced(init));
      }
    }
  }

  /** Marking every task synced commutes with each filter. */
  lemma FilteredAllSynced(s: seq<Task>, f: TaskFilter)
    ensures Filtered(AllSynced(s), f) == AllSynced(Filtered(s, f))
  {
    match f
    case All =>
    case Pending => FilterAllSynced(IsPending, s);
    case Completed => FilterAllSynced(IsDone, s);
  }

  /** HomePage's list state. */
  class HomePage {
    var allTasks: seq<Task>
    var filteredTasks: seq<Task>
    var currentFilter: TaskFilter
    var isOnline: bool
    var pendingSyncCount: int

    /** The counter always equals the number of unsynced tasks, and the view is the current filter's. */
    ghost predicate Valid()
      reads this
    {
      && pendingSyncCount == PendingSyncCount(allTasks)
      && filteredTasks == Filtered(allTasks, currentFilter)
    }

    constructor ()
      ensures Valid()
      ensures allTasks == [] && filteredTasks == [] && currentFilter == All
      ensures isOnline && pendingSyncCount == 0
    {
      allTasks, filteredTasks, currentFilter := [], [], All;
      isOnline, pendingSyncCount := true, 0;
    }

    /** filterTasks. */
    method FilterTasks()
      modifies this`filteredTasks
      ensures filteredTasks == Filtered(allTasks, currentFilter)
    {
      match currentFilter
      case Pending => filteredTasks := Filter(IsPending, allTasks);
      case Completed => filteredTasks := Filter(IsDone, allTasks);
      case All => filteredTasks := allTasks;
    }

    /** loadInitialData: loadTasksFromStorage, whose list is `stored`, then filterTasks. */
    method LoadInitialData(stored: seq<Task>)
      modifies this
      ensures Valid()
      ensures allTasks == stored && filteredTasks == Filtered(stored, currentFilter)
      ensures currentFilter == old(currentFilter) && isOnline == old(isOnline)
    {
      allTasks := stored;
      pendingSyncCount := |Unsynced(allTasks)|;
      FilterTasks();
    }

    /** toggleTaskCompletion on the task at index `i` of `allTasks`, at time `now`. */
    method ToggleTaskCompletion(i: nat, now: Timestamp)
      requires Valid() && i < |allTasks|
      modifies this
      ensures Valid()
      ensures allTasks == old(allTasks)[i := Toggled(old(allTasks)[i], now)]
      ensures filteredTasks == Filtered(allTasks, currentFilter)
      ensures pendingSyncCount == old(pendingSyncCount) + (if old(allTasks)[i].isSynced then 1 else 0)
      ensures currentFilter == old(currentFilter) && isOnline == old(isOnline)
    {
      var task := allTasks[i];
      task := task.(isCompleted := !task.isCompleted);
      task := task.(updatedAt := now);
      task := task.(isSynced := false);
      allTasks := allTasks[i := task];
      ToggleCount(old(allTasks), i, now);
      pendingSyncCount := |Unsynced(allTasks)|;
      FilterTasks();
    }

    /** performDeleteTask for a task with identifier `id`. */
    method PerformDeleteTask(id: Id)
      requires Valid()
      modifies this
      ensures Valid()
      ensures allTasks == WithoutId(old(allTasks), id)
      ensures filteredTasks == Filtered(allTasks, currentFilter)
      ensures currentFilter == old(currentFilter) && isOnline == old(isOnline)
    {
      allTasks := Filter(HasOtherId(id), allTasks);
      FilterTasks();
      pendingSyncCount := |Unsynced(allTasks)|;
    }

    /**
     * syncTasks: offline it does nothing; online the simulated sync flags every
     * task synced (the filtered list holds the same task objects) and zeroes the count.
     */
    method SyncTasks()
      requires Valid()
      modifies this
      ensures Valid()
      ensures !old(isOnline) ==>
        allTasks == old(allTasks) && filteredTasks == old(filteredTasks) && pendingSyncCount == old(pendingSyncCount)
      ensures old(isOnline) ==>
        allTasks == AllSynced(old(allTasks)) && filteredTasks == AllSynced(old(filteredTasks)) && pendingSyncCount == 0
      ensures currentFilter == old(currentFilter) && isOnline == old(isOnline)
    {
      if !isOnline {
        return;
      }
      allTasks := AllSynced(allTasks);
      filteredTasks := AllSynced(filteredTasks);
      AllSyncedClearsCount(old(allTasks));
      FilteredAllSynced(old(allTasks), currentFilter);
      pendingSyncCount := 0;
    }
  }
}
