/**
 * The HTTP task API: a process-wide task list with create, partial update,
 * delete, list and the batch reconcile behind POST /tasks/sync.
 * Identifiers and clock readings are parameters (fresh id, "now").
 */
module TaskApi {
  import opened Wrappers
  import opened Sequences
  import opened TaskModel

  /** The 404 answer of PUT and DELETE. */
  datatype ApiError = TaskNotFound

  /** Body of POST /tasks; a field left out of the JSON is None. */
  datatype CreateRequest = CreateRequest(
    title: string,
    description: Option<string>,
    isCompleted: Option<bool>,
    updatedAt: Option<Timestamp>,
    isSynced: Option<bool>)

  /** Body of PUT /tasks/:id; a field left out (or null) is None. */
  datatype PatchRequest = PatchRequest(
    title: Option<string>,
    description: Option<string>,
    isCompleted: Option<bool>,
    updatedAt: Option<Timestamp>,
    isSynced: Option<bool>)

  /** `!!x` on an optional boolean. */
  function Truthy(b: Option<bool>): bool
  {
    b == Some(true)
  }

  // ---------------------------------------------------------------- lookup

  /** `tasks.findIndex(t => t.id === id)`: the first index holding `id`, or -1. */
  function FindIndex(s: seq<Task>, id: Id): (r: int)
    ensures -1 <= r < |s|
    ensures 0 <= r ==> s[r].id == id && forall j :: 0 <= j < r ==> s[j].id != id
    ensures r == -1 ==> forall j :: 0 <= j < |s| ==> s[j].id != id
    decreases |s|
  {
    if s == [] then -1
    else if s[0].id == id then 0
    else
      var k := FindIndex(s[1..], id);
      if k == -1 then -1 else k + 1
  }

  lemma FindIndexFound(s: seq<Task>, id: Id)
    ensures FindIndex(s, id) == -1 <==> id !in Ids(s)
  {
    if id in Ids(s) {
      var i :| 0 <= i < |s| && s[i].id == id;
    }
  }

  /** The postcondition of FindIndex determines its result. */
  lemma FindIndexIs(s: seq<Task>, id: Id, k: int)
    requires -1 <= k < |s|
    requires 0 <= k ==> s[k].id == id && forall j :: 0 <= j < k ==> s[j].id != id
    requires k == -1 ==> forall j :: 0 <= j < |s| ==> s[j].id != id
    ensures FindIndex(s, id) == k
  {
  }

  lemma FindIndexAppend(s: seq<Task>, t: Task, id: Id)
    ensures FindIndex(s + [t], id) ==
      if FindIndex(s, id) >= 0 then FindIndex(s, id)
      else if t.id == id then |s| else -1
  {
    var s' := s + [t];
    var k := if FindIndex(s, id) >= 0 then FindIndex(s, id) else if t.id == id then |s| else -1;
    FindIndexIs(s', id, k);
  }

  lemma FindIndexReplace(s: seq<Task>, i: nat, t: Task, id: Id)
    requires i < |s| && s[i].id == t.id
    ensures FindIndex(s[i := t], id) == FindIndex(s, id)
  {
    FindIndexIs(s[i := t], id, FindIndex(s, id));
  }

  /** The record the store holds under `id`, if any. */
  function Lookup(s: seq<Task>, id: Id): Option<Task>
  {
    var i := FindIndex(s, id);
    if i < 0 then None else Some(s[i])
  }

  // ---------------------------------------------------------------- create, update, delete

  /** The record POST /tasks stores: defaults for every field the body leaves out. */
  function NewTask(req: CreateRequest, freshId: Id, now: Timestamp): Task
  {
    Task(freshId, req.title, Some(OrElse(req.description, "")), Truthy(req.isCompleted),
         now, OrElse(req.updatedAt, now), Truthy(req.isSynced))
  }

  /** The record PUT /tasks/:id stores in place of `t`. */
  function Patched(t: Task, p: PatchRequest, now: Timestamp): (r: Task)
    ensures r.id == t.id && r.createdAt == t.createdAt
  {
    t.(title := OrElse(p.title, t.title),
       description := if p.description.Some? then p.description else t.description,
       isCompleted := OrElse(p.isCompleted, t.isCompleted),
       updatedAt := OrElse(p.updatedAt, now),
       isSynced := OrElse(p.isSynced, t.isSynced))
  }

  /** Applying the same patch at the same instant twice is applying it once. */
  lemma PatchedIdempotent(t: Task, p: PatchRequest, now: Timestamp)
    ensures Patched(Patched(t, p, now), p, now) == Patched(t, p, now)
  {
  }

  /** A patch that supplies no field changes only updatedAt, which becomes "now". */
  lemma EmptyPatchOnlyStamps(t: Task, now: Timestamp)
    ensures Patched(t, PatchRequest(None, None, None, None, None), now) == t.(updatedAt := now)
  {
  }

  /** `splice(i, 1)` on a list of unique ids removes that id and no other. */
  lemma {:induction false} RemoveAtIds(s: seq<Task>, i: nat)
    requires UniqueIds(s) && i < |s|
    ensures UniqueIds(s[..i] + s[i + 1..])
    ensures Ids(s[..i] + s[i + 1..]) == Ids(s) - {s[i].id}
  {
    var r := s[..i] + s[i + 1..];
    assert forall j :: 0 <= j < |r| ==> r[j] == if j < i then s[j] else s[j + 1];
    forall id | id in Ids(s) - {s[i].id} ensures id in Ids(r) {
      var j :| 0 <= j < |s| && s[j].id == id;
      if j < i { assert r[j].id == id; } else { assert r[j - 1].id == id; }
    }
  }

  // ---------------------------------------------------------------- reconcile

  /** The state of the store and the `updated` answer after (part of) a batch. */
  datatype Reconciled = Reconciled(store: seq<Task>, updated: seq<Task>)

  /**
   * Last write wins, ties to the server: what the store holds under an id
   * after an incoming task with that id has been processed.
   */
  function Winner(stored: Option<Task>, incoming: Task): Task
  {
    match stored
    case None => Synced(incoming)
    case Some(s) => if incoming.updatedAt > s.updatedAt then Synced(incoming) else s
  }

  /** One iteration of the `forEach` in POST /tasks/sync. */
  function ReconcileOne(store: seq<Task>, t: Task): (r: Reconciled)
    ensures t.id !in Ids(store) ==> r == Reconciled(store + [Synced(t)], [t])
    ensures t.id in Ids(store) ==> |r.store| == |store|
    ensures forall j :: 0 <= j < |store| && store[j].id != t.id ==> r.store[j] == store[j]
    ensures forall j :: 0 <= j < |store| ==> r.store[j].id == store[j].id
    ensures r.updated == [] || r.updated == [t]
  {
    FindIndexFound(store, t.id);
    var idx := FindIndex(store, t.id);
    if idx == -1 then Reconciled(store + [Synced(t)], [t])
    else if t.updatedAt > store[idx].updatedAt then Reconciled(store[idx := Synced(t)], [t])
    else Reconciled(store, [])
  }

  /** A step changes the record under the incoming id as Winner says, and no other lookup. */
  lemma ReconcileOneLookup(store: seq<Task>, t: Task, id: Id)
    ensures Lookup(ReconcileOne(store, t).store, id) ==
      if id == t.id then Some(Winner(Lookup(store, t.id), t)) else Lookup(store, id)
  {
    var idx := FindIndex(store, t.id);
    if idx == -1 {
      FindIndexAppend(store, Synced(t), id);
    } else if t.updatedAt > store[idx].updatedAt {
      FindIndexReplace(store, idx, Synced(t), id);
    }
  }

  /** The step is reported exactly when the incoming task is new or strictly newer. */
  lemma ReconcileOneReports(store: seq<Task>, t: Task)
    ensures ReconcileOne(store, t).updated == [t] <==>
      match Lookup(store, t.id)
      case None => true
      case Some(s) => t.updatedAt > s.updatedAt
  {
    FindIndexFound(store, t.id);
  }

  /** The whole batch, processed front to back; entry i sees what entries 0..i-1 wrote. */
  function ReconcileBatch(store: seq<Task>, batch: seq<Task>): (r: Reconciled)
    ensures |store| <= |r.store|
    ensures forall j :: 0 <= j < |store| ==> r.store[j].id == store[j].id
    decreases |batch|
  {
    if batch == [] then Reconciled(store, [])
    else
      var prev := ReconcileBatch(store, batch[..|batch| - 1]);
      var step := ReconcileOne(prev.store, batch[|batch| - 1]);
      Reconciled(step.store, prev.updated + step.updated)
  }

  lemma ReconcileBatchAppend(store: seq<Task>, batch: seq<Task>, t: Task)
    ensures var prev := ReconcileBatch(store, batch);
            var step := ReconcileOne(prev.store, t);
            ReconcileBatch(store, batch + [t]) == Reconciled(step.store, prev.updated + step.updated)
  {
    assert (batch + [t])[..|batch|] == batch;
  }

  /** The answer lists inserted or overwritten tasks in batch order: a subsequence of the batch. */
  lemma {:induction false} ReconcileUpdatedIsSubsequence(store: seq<Task>, batch: seq<Task>)
    ensures IsSubsequence(ReconcileBatch(store, batch).updated, batch)
    decreases |batch|
  {
    if batch != [] {
      var init, last := batch[..|batch| - 1], batch[|batch| - 1];
      assert batch == init + [last];
      ReconcileUpdatedIsSubsequence(store, init);
      var prev := ReconcileBatch(store, init);
      if ReconcileOne(prev.store, last).updated == [] {
        assert prev.updated + [] == prev.updated;
        SubsequenceSkip(prev.updated, init, last);
      } else {
        SubsequenceKeep(prev.updated, init, last);
      }
    }
  }

  /** One step adds the incoming id and grows the list only when that id is new. */
  lemma ReconcileOneGrowth(store: seq<Task>, t: Task)
    ensures Ids(ReconcileOne(store, t).store) == Ids(store) + {t.id}
  {
    var idx := FindIndex(store, t.id);
    FindIndexFound(store, t.id);
    if idx == -1 {
      IdsAppend(store, Synced(t));
    } else if t.updatedAt > store[idx].updatedAt {
      IdsReplace(store, idx, Synced(t));
    }
  }

  /** Reconcile never loses an id and adds exactly the batch's ids. */
  lemma {:induction false} ReconcileIds(store: seq<Task>, batch: seq<Task>)
    ensures Ids(ReconcileBatch(store, batch).store) == Ids(store) + Ids(batch)
    decreases |batch|
  {
    if batch == [] {
      assert Ids(batch) == {};
    } else {
      var init, last := batch[..|batch| - 1], batch[|batch| - 1];
      assert batch == init + [last];
      IdsAppend(init, last);
      ReconcileIds(store, init);
      ReconcileOneGrowth(ReconcileBatch(store, init).store, last);
    }
  }

  /**
   * Reconcile inserts each new id once, whatever duplicates the batch holds:
   * the list grows by exactly the number of ids the store did not have.
   */
  lemma {:induction false} ReconcileLength(store: seq<Task>, batch: seq<Task>)
    ensures |ReconcileBatch(store, batch).store| == |store| + |Ids(batch) - Ids(store)|
    decreases |batch|
  {
    if batch == [] {
      assert Ids(batch) == {};
    } else {
      var init, last := batch[..|batch| - 1], batch[|batch| - 1];
      assert batch == init + [last];
      IdsAppend(init, last);
      ReconcileLength(store, init);
      ReconcileIds(store, init);
      var prev := ReconcileBatch(store, init).store;
      var before, after := Ids(init) - Ids(store), Ids(batch) - Ids(store);
      if last.id in Ids(prev) {
        assert after == before;
        assert |ReconcileOne(prev, last).store| == |prev|;
      } else {
        assert after == before + {last.id};
        assert last.id !in before;
        assert |ReconcileOne(prev, last).store| == |prev| + 1;
      }
    }
  }

  /** Reconcile keeps identifiers unique. */
  lemma {:induction false} ReconcileKeepsUniqueIds(store: seq<Task>, batch: seq<Task>)
    requires UniqueIds(store)
    ensures UniqueIds(ReconcileBatch(store, batch).store)
    decreases |batch|
  {
    if batch != [] {
      var init, last := batch[..|batch| - 1], batch[|batch| - 1];
      ReconcileKeepsUniqueIds(store, init);
      var prev := ReconcileBatch(store, init).store;
      FindIndexFound(prev, last.id);
      if last.id !in Ids(prev) {
        var next := prev + [Synced(last)];
        forall i, j | 0 <= i < j < |next| ensures next[i].id != next[j].id {
          if j == |prev| { assert prev[i].id in Ids(prev); }
        }
      }
    }
  }

  /**
   * For a batch whose ids are distinct, what the store holds afterwards under
   * an id is decided by the batch entry with that id alone (Winner), and ids
   * the batch does not mention keep their record.
   */
  lemma {:induction false} ReconcileBatchLookup(store: seq<Task>, batch: seq<Task>, id: Id)
    ensures id !in Ids(batch) ==> Lookup(ReconcileBatch(store, batch).store, id) == Lookup(store, id)
    ensures UniqueIds(batch) ==> forall j :: 0 <= j < |batch| && batch[j].id == id ==>
      Lookup(ReconcileBatch(store, batch).store, id) == Some(Winner(Lookup(store, id), batch[j]))
    decreases |batch|
  {
    if batch != [] {
      var init, last := batch[..|batch| - 1], batch[|batch| - 1];
      assert batch == init + [last];
      IdsAppend(init, last);
      ReconcileBatchLookup(store, init, id);
      var prev := ReconcileBatch(store, init).store;
      ReconcileOneLookup(prev, last, id);
      if UniqueIds(batch) && id == last.id {
        assert id !in Ids(init);
        forall j | 0 <= j < |batch| && batch[j].id == id ensures j == |batch| - 1 {
        }
      }
    }
  }

  /** Every batch entry is matched by a stored record at least as recent. */
  ghost predicate Dominates(store: seq<Task>, batch: seq<Task>)
  {
    forall j :: 0 <= j < |batch| ==>
      Lookup(store, batch[j].id).Some? && Lookup(store, batch[j].id).value.updatedAt >= batch[j].updatedAt
  }

  lemma {:induction false} ReconcileDominates(store: seq<Task>, batch: seq<Task>)
    ensures Dominates(ReconcileBatch(store, batch).store, batch)
    decreases |batch|
  {
    if batch != [] {
      var init, last := batch[..|batch| - 1], batch[|batch| - 1];
      ReconcileDominates(store, init);
      var prev := ReconcileBatch(store, init).store;
      var next := ReconcileOne(prev, last).store;
      assert next == ReconcileBatch(store, batch).store;
      forall j | 0 <= j < |batch|
        ensures Lookup(next, batch[j].id).Some? && Lookup(next, batch[j].id).value.updatedAt >= batch[j].updatedAt
      {
        ReconcileOneLookup(prev, last, batch[j].id);
        if j < |init| { assert batch[j] == init[j]; }
      }
    }
  }

  lemma {:induction false} DominatedBatchIsNoOp(store: seq<Task>, batch: seq<Task>)
    requires Dominates(store, batch)
    ensures ReconcileBatch(store, batch) == Reconciled(store, [])
    decreases |batch|
  {
    if batch != [] {
      var init, last := batch[..|batch| - 1], batch[|batch| - 1];
      assert Dominates(store, init) by {
        forall j | 0 <= j < |init| ensures Lookup(store, init[j].id).Some? && Lookup(store, init[j].id).value.updatedAt >= init[j].updatedAt {
          assert init[j] == batch[j];
        }
      }
      DominatedBatchIsNoOp(store, init);
      assert Lookup(store, last.id).Some?;
      FindIndexFound(store, last.id);
    }
  }

  /** Pushing the same batch twice leaves the store as pushing it once, and reports nothing. */
  lemma ReconcileIdempotent(store: seq<Task>, batch: seq<Task>)
    ensures var once := ReconcileBatch(store, batch).store;
            ReconcileBatch(once, batch) == Reconciled(once, [])
  {
    ReconcileDominates(store, batch);
    DominatedBatchIsNoOp(ReconcileBatch(store, batch).store, batch);
  }

  // ---------------------------------------------------------------- the server

  /** The server process, holding the module-level `tasks` array. */
  class TaskServer {
    var tasks: seq<Task>

    /** Ids stay unique: every insertion path checks for (or is given) a fresh id. */
    ghost predicate Valid()
      reads this
    {
      UniqueIds(tasks)
    }

    constructor ()
      ensures Valid() && tasks == []
    {
      tasks := [];
    }

    /** GET /tasks. */
    method List() returns (r: seq<Task>)
      requires Valid()
      ensures r == tasks && UniqueIds(r)
    {
      r := tasks;
    }

    /** POST /tasks, with uuidv4() as `freshId` and the clock as `now`. */
    method Create(req: CreateRequest, freshId: Id, now: Timestamp) returns (t: Task)
      requires Valid()
      requires freshId !in Ids(tasks)
      modifies this
      ensures Valid()
      ensures t == NewTask(req, freshId, now)
      ensures tasks == old(tasks) + [t]
    {
      t := NewTask(req, freshId, now);
      forall j | 0 <= j < |tasks| ensures tasks[j].id != freshId {
        assert tasks[j].id in Ids(tasks);
      }
      tasks := tasks + [t];
    }

    /** PUT /tasks/:id. */
    method Update(id: Id, p: PatchRequest, now: Timestamp) returns (r: Result<Task, ApiError>)
      requires Valid()
      modifies this
      ensures Valid()
      ensures id !in Ids(old(tasks)) ==> r == Err(TaskNotFound) && tasks == old(tasks)
      ensures id in Ids(old(tasks)) ==>
        var i := FindIndex(old(tasks), id);
        && tasks == old(tasks)[i := Patched(old(tasks)[i], p, now)]
        && r == Ok(tasks[i])
    {
      FindIndexFound(tasks, id);
      var idx := FindIndex(tasks, id);
      if idx == -1 {
        return Err(TaskNotFound);
      }
      tasks := tasks[idx := Patched(tasks[idx], p, now)];
      r := Ok(tasks[idx]);
    }

    /** DELETE /tasks/:id. */
    method Delete(id: Id) returns (r: Result<Task, ApiError>)
      requires Valid()
      modifies this
      ensures Valid()
      ensures id !in Ids(old(tasks)) ==> r == Err(TaskNotFound) && tasks == old(tasks)
      ensures id in Ids(old(tasks)) ==>
        var i := FindIndex(old(tasks), id);
        && r == Ok(old(tasks)[i])
        && tasks == old(tasks)[..i] + old(tasks)[i + 1..]
        && Ids(tasks) == Ids(old(tasks)) - {id}
    {
      FindIndexFound(tasks, id);
      var idx := FindIndex(tasks, id);
      if idx == -1 {
        return Err(TaskNotFound);
      }
      r := Ok(tasks[idx]);
      RemoveAtIds(tasks, idx);
      tasks := tasks[..idx] + tasks[idx + 1..];
    }

    /** POST /tasks/sync: the `forEach` over the client's batch; returns `updated`. */
    method Reconcile(batch: seq<Task>) returns (updated: seq<Task>)
      requires Valid()
      modifies this
      ensures Valid()
      ensures Reconciled(tasks, updated) == ReconcileBatch(old(tasks), batch)
    {
      updated := [];
      for i := 0 to |batch|
        invariant Reconciled(tasks, updated) == ReconcileBatch(old(tasks), batch[..i])
      {
        var clientTask := batch[i];
        var idx := FindIndex(tasks, clientTask.id);
        if idx == -1 {
          tasks := tasks + [Synced(clientTask)];
          updated := updated + [clientTask];
        } else if clientTask.updatedAt > tasks[idx].updatedAt {
          tasks := tasks[idx := Synced(clientTask)];
          updated := updated + [clientTask];
        }
        ReconcileBatchAppend(old(tasks), batch[..i], clientTask);
        assert batch[..i + 1] == batch[..i] + [clientTask];
      }
      assert batch[..|batch|] == batch;
      ReconcileKeepsUniqueIds(old(tasks), batch);
    }
  }
}
