/**
 * The task record shared by the server and the mobile client, and the two
 * request shapes the client declares for creating and patching a task.
 */
module TaskModel {
  import opened Wrappers
  import opened Sequences

  /** Task identifiers: client- or server-generated UUID strings. */
  type Id = string

  /**
   * ISO-8601 timestamps, compared as dates. Only their order matters to the
   * model, so they are integers.
   */
  type Timestamp = int

  /** A task. Every field is required except the description. */
  datatype Task = Task(
    id: Id,
    title: string,
    description: Option<string>,
    isCompleted: bool,
    createdAt: Timestamp,
    updatedAt: Timestamp,
    /** Whether this copy is known to match the server's. */
    isSynced: bool)

  /** What the client supplies to create a task: no id, no timestamps. */
  datatype CreateTaskDTO = CreateTaskDTO(title: string, description: Option<string>)

  /** A partial patch: the id is required, every other field is optional. */
  datatype UpdateTaskDTO = UpdateTaskDTO(
    id: Id,
    title: Option<string>,
    description: Option<string>,
    isCompleted: Option<bool>)

  /** `description || ''`. */
  function DescriptionOrEmpty(d: Option<string>): string
  {
    OrElse(d, "")
  }

  /** `{ ...t, isSynced: true }`. */
  function Synced(t: Task): Task
  {
    t.(isSynced := true)
  }

  predicate IsUnsynced(t: Task)
  {
    !t.isSynced
  }

  /** `tasks.filter(t => !t.isSynced)`. */
  function Unsynced(s: seq<Task>): seq<Task>
  {
    Filter(IsUnsynced, s)
  }

  /** The identifiers occurring in a task list. */
  function Ids(s: seq<Task>): set<Id>
  {
    set i | 0 <= i < |s| :: s[i].id
  }

  /** No identifier occurs twice. */
  predicate UniqueIds(s: seq<Task>)
  {
    forall i, j :: 0 <= i < j < |s| ==> s[i].id != s[j].id
  }

  lemma IdsAppend(s: seq<Task>, t: Task)
    ensures Ids(s + [t]) == Ids(s) + {t.id}
  {
    var s' := s + [t];
    forall id | id in Ids(s) ensures id in Ids(s') {
      var i :| 0 <= i < |s| && s[i].id == id;
      assert s'[i].id == id;
    }
    assert s'[|s|].id == t.id;
  }

  lemma IdsReplace(s: seq<Task>, k: nat, t: Task)
    requires k < |s| && s[k].id == t.id
    ensures Ids(s[k := t]) == Ids(s)
  {
    var s' := s[k := t];
    forall id | id in Ids(s) ensures id in Ids(s') {
      var i :| 0 <= i < |s| && s[i].id == id;
      assert s'[i].id == id;
    }
    forall id | id in Ids(s') ensures id in Ids(s) {
      var i :| 0 <= i < |s'| && s'[i].id == id;
      assert s[i].id == id;
    }
  }

  /** Filtering a list with unique ids keeps them unique. */
  lemma {:induction false} FilterKeepsUniqueIds(p: Task -> bool, s: seq<Task>)
    requires UniqueIds(s)
    ensures UniqueIds(Filter(p, s))
    decreases |s|
  {
    if s != [] {
      var init, last := s[..|s| - 1], s[|s| - 1];
      assert s == init + [last];
      FilterKeepsUniqueIds(p, init);
      FilterAppend(p, init, last);
      var f := Filter(p, init);
      forall i | 0 <= i < |f| ensures f[i].id != last.id {
        FilterMembership(p, init, f[i]);
        var j :| 0 <= j < |init| && init[j] == f[i];
      }
    }
  }
}
