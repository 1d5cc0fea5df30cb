/**
 * The client's synchronisation driver: push the locally unsynced tasks to
 * POST /tasks/sync, then pull GET /tasks into the local table. Each remote
 * call's fate is a parameter (Link); the local table calls always succeed.
 */
module Sync {
  import opened Wrappers
  import opened Sequences
  import opened TaskModel
  import opened TaskApi
  import opened LocalTable

  /**
   * How an HTTP exchange ends. Down: the request never reaches the server.
   * ReplyLost: the server handles it but the client sees an error.
   * Garbled: a reply arrives without the expected `updated`/`tasks` field.
   */
  datatype Link = Up | Down | ReplyLost | Garbled

  /** The rejection `firstValueFrom` rethrows. */
  datatype SyncError = RequestFailed

  /** Both sides at once: the device's table and the server's list. */
  datatype Stores = Stores(local: map<Id, Row>, remote: seq<Task>)

  /** `for (t of ts) await updateTask({ ...t, isSynced: true })`. */
  function WriteBack(rows: map<Id, Row>, ts: seq<Task>): (r: map<Id, Row>)
    ensures r.Keys == rows.Keys
    ensures TableValid(rows) ==> TableValid(r)
    decreases |ts|
  {
    if ts == [] then rows
    else UpdateRow(WriteBack(rows, ts[..|ts| - 1]), Synced(ts[|ts| - 1]))
  }

  lemma WriteBackAppend(rows: map<Id, Row>, ts: seq<Task>, t: Task)
    ensures WriteBack(rows, ts + [t]) == UpdateRow(WriteBack(rows, ts), Synced(t))
  {
    assert (ts + [t])[..|ts|] == ts;
  }

  /**
   * Writing back a list with distinct ids overwrites each row that list
   * names with the listed task (flagged synced) and leaves every other row.
   */
  lemma {:induction false} WriteBackEffect(rows: map<Id, Row>, ts: seq<Task>, k: Id)
    requires k in rows
    ensures k !in Ids(ts) ==> WriteBack(rows, ts)[k] == rows[k]
    ensures UniqueIds(ts) ==> forall i :: 0 <= i < |ts| && ts[i].id == k ==>
      WriteBack(rows, ts)[k] == Overwritten(rows[k], Synced(ts[i]))
    decreases |ts|
  {
    if ts != [] {
      var init, last := ts[..|ts| - 1], ts[|ts| - 1];
      assert ts == init + [last];
      IdsAppend(init, last);
      WriteBackEffect(rows, init, k);
      if UniqueIds(ts) && last.id == k {
        assert k !in Ids(init);
        forall i | 0 <= i < |ts| && ts[i].id == k ensures i == |ts| - 1 {
        }
      }
    }
  }

  /** Every row flagged synced. */
  function MarkAllSynced(rows: map<Id, Row>): (r: map<Id, Row>)
    ensures r.Keys == rows.Keys
    ensures forall k :: k in r ==> r[k].isSynced == 1
  {
    map k | k in rows :: rows[k].(isSynced := 1)
  }

  /** `batch` is `getTasks().filter(t => !t.isSynced)` for the table `rows`. */
  ghost predicate PushBatchOf(batch: seq<Task>, rows: map<Id, Row>)
  {
    && UniqueIds(batch)
    && Ids(batch) == (set k | k in rows && rows[k].isSynced == 0)
    && forall i :: 0 <= i < |batch| ==> batch[i].id in rows && batch[i] == DecodeRow(rows[batch[i].id])
  }

  /** The unsynced part of a listing is exactly the set of rows flagged 0, decoded. */
  lemma UnsyncedOfListing(ts: seq<Task>, rows: map<Id, Row>)
    requires TableValid(rows) && IsListing(ts, rows)
    ensures PushBatchOf(Unsynced(ts), rows)
  {
    var batch := Unsynced(ts);
    FilterKeepsUniqueIds(IsUnsynced, ts);
    forall i | 0 <= i < |batch| ensures batch[i].id in rows && batch[i] == DecodeRow(rows[batch[i].id]) {
      FilterMembership(IsUnsynced, ts, batch[i]);
    }
    forall k | k in rows && rows[k].isSynced == 0 ensures k in Ids(batch) {
      ListingHasRow(ts, rows, k);
      FilterMembership(IsUnsynced, ts, DecodeRow(rows[k]));
      var i :| 0 <= i < |batch| && batch[i] == DecodeRow(rows[k]);
    }
    forall k | k in Ids(batch) ensures k in rows && rows[k].isSynced == 0 {
      var i :| 0 <= i < |batch| && batch[i].id == k;
    }
  }

  /** Writing back the pushed batch flags every row synced and changes nothing else. */
  lemma PushWriteBackMarksAll(rows: map<Id, Row>, batch: seq<Task>)
    requires TableValid(rows) && PushBatchOf(batch, rows)
    ensures WriteBack(rows, batch) == MarkAllSynced(rows)
  {
    var after := WriteBack(rows, batch);
    forall k | k in rows ensures after[k] == rows[k].(isSynced := 1) {
      WriteBackEffect(rows, batch, k);
      if rows[k].isSynced == 0 {
        assert k in Ids(batch);
        var i :| 0 <= i < |batch| && batch[i].id == k;
      }
    }
  }

  /** Phase 1's effect on both stores. */
  function PushEffect(st: Stores, batch: seq<Task>, link: Link): Stores
  {
    if batch == [] || link == Down then st
    else
      var remote := ReconcileBatch(st.remote, batch).store;
      if link == ReplyLost then Stores(st.local, remote)
      else Stores(WriteBack(st.local, batch), remote)
  }

  /** What syncToServer resolves or rejects with. */
  function PushReply(st: Stores, batch: seq<Task>, link: Link): Result<seq<Task>, SyncError>
  {
    if batch == [] then Ok([])
    else
      match link
      case Up => Ok(ReconcileBatch(st.remote, batch).updated)
      case Garbled => Ok([])
      case Down => Err(RequestFailed)
      case ReplyLost => Err(RequestFailed)
  }

  /** Phase 2's effect on both stores. */
  function PullEffect(st: Stores, link: Link): Stores
  {
    if link == Up then Stores(WriteBack(st.local, st.remote), st.remote) else st
  }

  /** What fetchFromServer resolves or rejects with. */
  function PullReply(st: Stores, link: Link): Result<seq<Task>, SyncError>
  {
    match link
    case Up => Ok(st.remote)
    case Garbled => Ok([])
    case Down => Err(RequestFailed)
    case ReplyLost => Err(RequestFailed)
  }

  lemma IdsOfNonEmpty(s: seq<Task>)
    ensures s != [] ==> s[0].id in Ids(s)
  {
  }

  /** With nothing unsynced, push contacts nobody, changes nothing and answers []. */
  lemma NothingToPush(st: Stores, batch: seq<Task>, link: Link)
    requires PushBatchOf(batch, st.local)
    requires forall k :: k in st.local ==> st.local[k].isSynced != 0
    ensures batch == []
    ensures PushEffect(st, batch, link) == st && PushReply(st, batch, link) == Ok([])
  {
    IdsOfNonEmpty(batch);
  }

  /**
   * A push that rejects leaves the table alone; one that resolves leaves every
   * row flagged synced, the ones the server ignored included, and changes no
   * other column. The server never loses a record.
   */
  lemma PushSettlesFlags(st: Stores, batch: seq<Task>, link: Link)
    requires TableValid(st.local) && PushBatchOf(batch, st.local)
    ensures PushReply(st, batch, link).Err? ==> PushEffect(st, batch, link).local == st.local
    ensures PushReply(st, batch, link).Ok? ==> PushEffect(st, batch, link).local == MarkAllSynced(st.local)
    ensures Ids(st.remote) <= Ids(PushEffect(st, batch, link).remote)
  {
    if batch == [] {
      assert Ids(batch) == {};
      forall k | k in st.local ensures st.local[k].isSynced == 1 {
        assert k !in Ids(batch);
      }
      assert st.local == MarkAllSynced(st.local);
    } else if link != Down {
      ReconcileIds(st.remote, batch);
      if link != ReplyLost {
        PushWriteBackMarksAll(st.local, batch);
      }
    }
  }

  /**
   * Pull refreshes only rows the device already has: it adds no row, removes
   * none, overwrites each local row whose id the server lists, and leaves the
   * rest. createdAt is never taken from the server.
   */
  lemma PullRefreshes(st: Stores, k: Id)
    requires UniqueIds(st.remote) && k in st.local
    ensures PullEffect(st, Up).local.Keys == st.local.Keys
    ensures k !in Ids(st.remote) ==> PullEffect(st, Up).local[k] == st.local[k]
    ensures k in Ids(st.remote) ==>
      var s := st.remote[FindIndex(st.remote, k)];
      && PullEffect(st, Up).local[k] == Overwritten(st.local[k], Synced(s))
      && PullEffect(st, Up).local[k].createdAt == st.local[k].createdAt
      && PullEffect(st, Up).local[k].isSynced == 1
  {
    WriteBackEffect(st.local, st.remote, k);
    FindIndexFound(st.remote, k);
  }

  /**
   * End to end, both calls answered: a task edited offline ends on the server
   * as Winner says (the newer of the two copies, ties to the server), and the
   * device row ends with that copy's fields, its own createdAt, flagged synced.
   */
  lemma FullSyncLastWriteWins(st: Stores, batch: seq<Task>, k: Id)
    requires TableValid(st.local) && UniqueIds(st.remote) && PushBatchOf(batch, st.local)
    requires k in st.local && st.local[k].isSynced == 0
    ensures var after := PullEffect(PushEffect(st, batch, Up), Up);
            var w := Winner(Lookup(st.remote, k), DecodeRow(st.local[k]));
            && Lookup(after.remote, k) == Some(w)
            && after.local[k] == Overwritten(st.local[k], Synced(w))
  {
    assert k in Ids(batch);
    var i :| 0 <= i < |batch| && batch[i].id == k;
    var mid := PushEffect(st, batch, Up);
    PushWriteBackMarksAll(st.local, batch);
    ReconcileKeepsUniqueIds(st.remote, batch);
    ReconcileBatchLookup(st.remote, batch, k);
    var w := Winner(Lookup(st.remote, k), DecodeRow(st.local[k]));
    assert Lookup(mid.remote, k) == Some(w);
    FindIndexFound(mid.remote, k);
    PullRefreshes(mid, k);
  }

  /** Scenario: the device's copy is newer (or new); it reaches the server and survives locally. */
  lemma LocalNewerSurvives(st: Stores, batch: seq<Task>, k: Id)
    requires TableValid(st.local) && UniqueIds(st.remote) && PushBatchOf(batch, st.local)
    requires k in st.local && st.local[k].isSynced == 0
    requires Lookup(st.remote, k).None? || Lookup(st.remote, k).value.updatedAt < st.local[k].updatedAt
    ensures var after := PullEffect(PushEffect(st, batch, Up), Up);
            && Lookup(after.remote, k) == Some(Synced(DecodeRow(st.local[k])))
            && after.local[k] == st.local[k].(isSynced := 1)
  {
    FullSyncLastWriteWins(st, batch, k);
  }

  /** Scenario: the server's copy is as new or newer; the device's edit is overwritten. */
  lemma LocalOlderIsLost(st: Stores, batch: seq<Task>, k: Id)
    requires TableValid(st.local) && UniqueIds(st.remote) && PushBatchOf(batch, st.local)
    requires k in st.local && st.local[k].isSynced == 0
    requires Lookup(st.remote, k).Some? && Lookup(st.remote, k).value.updatedAt >= st.local[k].updatedAt
    ensures var after := PullEffect(PushEffect(st, batch, Up), Up);
            var s := Lookup(st.remote, k).value;
            && Lookup(after.remote, k) == Some(s)
            && after.local[k] == Overwritten(st.local[k], Synced(s))
  {
    FullSyncLastWriteWins(st, batch, k);
  }

  /** SyncService, over the device table and the server. */
  class SyncService {
    const local: SqliteApiFallbackService
    const remote: TaskServer

    ghost predicate Valid()
      reads this, local, remote
    {
      local.Valid() && remote.Valid()
    }

    ghost function State(): Stores
      reads this, local, remote
    {
      Stores(local.rows, remote.tasks)
    }

    constructor (local: SqliteApiFallbackService, remote: TaskServer)
      requires local.Valid() && remote.Valid()
      ensures Valid() && this.local == local && this.remote == remote
    {
      this.local := local;
      this.remote := remote;
    }

    /** The loop both phases run: `for (const t of ts) { ... await updateTask(t) }` with t flagged synced. */
    method WriteBackAll(ts: seq<Task>)
      requires local.Valid()
      modifies local
      ensures local.Valid()
      ensures local.rows == WriteBack(old(local.rows), ts)
    {
      for i := 0 to |ts|
        invariant local.Valid()
        invariant local.rows == WriteBack(old(local.rows), ts[..i])
      {
        var t := ts[i].(isSynced := true);
        local.UpdateTask(t);
        WriteBackAppend(old(local.rows), ts[..i], ts[i]);
        assert ts[..i + 1] == ts[..i] + [ts[i]];
      }
      assert ts[..|ts|] == ts;
    }

    /** syncToServer: push; `batch` is the list it posted. */
    method SyncToServer(link: Link) returns (r: Result<seq<Task>, SyncError>, ghost batch: seq<Task>)
      requires Valid()
      modifies local, remote
      ensures Valid()
      ensures PushBatchOf(batch, old(local.rows))
      ensures State() == PushEffect(old(State()), batch, link)
      ensures r == PushReply(old(State()), batch, link)
    {
      var allTasks := local.GetTasks();
      var unsynced := Unsynced(allTasks);
      UnsyncedOfListing(allTasks, local.rows);
      batch := unsynced;
      if |unsynced| == 0 {
        r := Ok([]);
        return;
      }
      if link == Down {
        r := Err(RequestFailed);
        return;
      }
      var updated := remote.Reconcile(unsynced);
      if link == ReplyLost {
        r := Err(RequestFailed);
        return;
      }
      WriteBackAll(unsynced);
      r := if link == Garbled then Ok([]) else Ok(updated);
    }

    /** fetchFromServer: pull. */
    method FetchFromServer(link: Link) returns (r: Result<seq<Task>, SyncError>)
      requires Valid()
      modifies local
      ensures Valid()
      ensures State() == PullEffect(old(State()), link)
      ensures r == PullReply(old(State()), link)
    {
      if link == Down || link == ReplyLost {
        return Err(RequestFailed);
      }
      var listed := remote.List();
      if link == Garbled {
        return Ok([]);
      }
      WriteBackAll(listed);
      r := Ok(listed);
    }

    /** fullSync: push, then pull whatever push did; both rejections are swallowed. */
    method FullSync(pushLink: Link, pullLink: Link) returns (ghost batch: seq<Task>)
      requires Valid()
      modifies local, remote
      ensures Valid()
      ensures PushBatchOf(batch, old(local.rows))
      ensures State() == PullEffect(PushEffect(old(State()), batch, pushLink), pullLink)
    {
      var pushed;
      pushed, batch := SyncToServer(pushLink);
      var pulled := FetchFromServer(pullLink);
    }
  }
}
