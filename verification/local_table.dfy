/**
 * The client's on-device `tasks` table (id TEXT PRIMARY KEY, flags stored as
 * INTEGER 0/1), as the two SQLite services use it on a native platform. The
 * table is a map from primary key to row; SQL execution and connection
 * handling are not modelled, only the table each statement leaves behind.
 */
module LocalTable {
  import opened Wrappers
  import opened TaskModel

  /** A stored row: the description is always a string, the booleans are integers. */
  datatype Row = Row(
    id: Id,
    title: string,
    description: string,
    isCompleted: int,
    createdAt: Timestamp,
    updatedAt: Timestamp,
    isSynced: int)

  datatype StoreError =
    | PrimaryKeyViolation  // INSERT of an id already in the table
    | NotNativePlatform    // SqliteService.createDB off a device

  /** `b ? 1 : 0`. */
  function EncodeFlag(b: bool): int
  {
    if b then 1 else 0
  }

  /** `!!n` on an INTEGER column. */
  function DecodeFlag(n: int): bool
  {
    n != 0
  }

  /** The values bound to the INSERT statement. */
  function EncodeRow(t: Task): Row
  {
    Row(t.id, t.title, DescriptionOrEmpty(t.description), EncodeFlag(t.isCompleted),
        t.createdAt, t.updatedAt, EncodeFlag(t.isSynced))
  }

  /** The `row => ({ ... })` mapping of getTasks. */
  function DecodeRow(r: Row): Task
  {
    Task(r.id, r.title, Some(r.description), DecodeFlag(r.isCompleted),
         r.createdAt, r.updatedAt, DecodeFlag(r.isSynced))
  }

  /** A row as the services write it: both flags 0 or 1. */
  predicate WellFormedRow(r: Row)
  {
    (r.isCompleted == 0 || r.isCompleted == 1) && (r.isSynced == 0 || r.isSynced == 1)
  }

  /** The task with its description defaulted to '' as the table stores it. */
  function Normalized(t: Task): Task
  {
    t.(description := Some(DescriptionOrEmpty(t.description)))
  }

  /** Storing then reading a task gives it back, with the description defaulted. */
  lemma DecodeEncode(t: Task)
    ensures WellFormedRow(EncodeRow(t))
    ensures DecodeRow(EncodeRow(t)) == Normalized(t)
    ensures t.description.Some? ==> DecodeRow(EncodeRow(t)) == t
  {
  }

  /** Reading then storing a well-formed row writes the same row back. */
  lemma EncodeDecode(r: Row)
    requires WellFormedRow(r)
    ensures EncodeRow(DecodeRow(r)) == r
  {
  }

  /** Every row is filed under its own id and is well-formed. */
  predicate TableValid(rows: map<Id, Row>)
  {
    forall k :: k in rows ==> rows[k].id == k && WellFormedRow(rows[k])
  }

  /** INSERT INTO tasks ...: fails on an existing primary key. */
  function InsertRow(rows: map<Id, Row>, t: Task): (r: Result<map<Id, Row>, StoreError>)
    ensures r.Err? <==> t.id in rows
    ensures r.Err? ==> r.error == PrimaryKeyViolation
    ensures r.Ok? ==> r.value.Keys == rows.Keys + {t.id} && DecodeRow(r.value[t.id]) == Normalized(t)
    ensures r.Ok? ==> forall k :: k in rows ==> r.value[k] == rows[k]
    ensures TableValid(rows) && r.Ok? ==> TableValid(r.value)
  {
    if t.id in rows then Err(PrimaryKeyViolation) else Ok(rows[t.id := EncodeRow(t)])
  }

  /** UPDATE tasks SET title, description, isCompleted, updatedAt, isSynced applied to one row. */
  function Overwritten(row: Row, t: Task): (r: Row)
    ensures r.id == row.id && r.createdAt == row.createdAt
    ensures WellFormedRow(r)
    ensures DecodeRow(r) == Normalized(t).(id := row.id, createdAt := row.createdAt)
  {
    row.(title := t.title, description := DescriptionOrEmpty(t.description),
         isCompleted := EncodeFlag(t.isCompleted), updatedAt := t.updatedAt,
         isSynced := EncodeFlag(t.isSynced))
  }

  /** UPDATE ... WHERE id=?: touches the row with that id if there is one, never adds a row. */
  function UpdateRow(rows: map<Id, Row>, t: Task): (r: map<Id, Row>)
    ensures r.Keys == rows.Keys
    ensures forall k :: k in rows && k != t.id ==> r[k] == rows[k]
    ensures t.id in rows ==> r[t.id] == Overwritten(rows[t.id], t)
    ensures TableValid(rows) ==> TableValid(r)
  {
    if t.id in rows then rows[t.id := Overwritten(rows[t.id], t)] else rows
  }

  /** DELETE FROM tasks WHERE id=?. */
  function DeleteRow(rows: map<Id, Row>, id: Id): (r: map<Id, Row>)
    ensures r.Keys == rows.Keys - {id}
    ensures forall k :: k in r ==> r[k] == rows[k]
    ensures TableValid(rows) ==> TableValid(r)
  {
    rows - {id}
  }

  /** `ts` is what SELECT * returns: every row once, decoded, in some order. */
  ghost predicate IsListing(ts: seq<Task>, rows: map<Id, Row>)
  {
    && UniqueIds(ts)
    && Ids(ts) == rows.Keys
    && forall i :: 0 <= i < |ts| ==> ts[i].id in rows && ts[i] == DecodeRow(rows[ts[i].id])
  }

  /** Every row appears in a listing, decoded. */
  lemma ListingHasRow(ts: seq<Task>, rows: map<Id, Row>, k: Id)
    requires IsListing(ts, rows) && k in rows
    ensures DecodeRow(rows[k]) in ts
  {
    var i :| 0 <= i < |ts| && ts[i].id == k;
  }

  /** Inserting a task and listing the table yields the task, description defaulted to ''. */
  lemma InsertThenList(rows: map<Id, Row>, t: Task, ts: seq<Task>)
    requires InsertRow(rows, t).Ok?
    requires IsListing(ts, InsertRow(rows, t).value)
    ensures Normalized(t) in ts
  {
    ListingHasRow(ts, InsertRow(rows, t).value, t.id);
  }

  /** SELECT * FROM tasks with the row mapping: one decoded task per row. */
  method ListRows(rows: map<Id, Row>) returns (ts: seq<Task>)
    requires TableValid(rows)
    ensures IsListing(ts, rows)
  {
    ts := [];
    var left := rows.Keys;
    while left != {}
      invariant left <= rows.Keys
      invariant UniqueIds(ts)
      invariant Ids(ts) == rows.Keys - left
      invariant forall i :: 0 <= i < |ts| ==> ts[i].id in rows && ts[i] == DecodeRow(rows[ts[i].id])
      decreases left
    {
      var k :| k in left;
      IdsAppend(ts, DecodeRow(rows[k]));
      forall i | 0 <= i < |ts| ensures ts[i].id != k {
        assert ts[i].id in Ids(ts);
      }
      ts := ts + [DecodeRow(rows[k])];
      left := left - {k};
    }
  }

  /** The native branch of SqliteApiFallbackService: the table the sync service works on. */
  class SqliteApiFallbackService {
    var rows: map<Id, Row>

    ghost predicate Valid()
      reads this
    {
      TableValid(rows)
    }

    /** Opens the table with the rows already on the device. */
    constructor (stored: map<Id, Row>)
      requires TableValid(stored)
      ensures Valid() && rows == stored
    {
      rows := stored;
    }

    method AddTask(t: Task) returns (r: Outcome<StoreError>)
      requires Valid()
      modifies this
      ensures Valid()
      ensures InsertRow(old(rows), t).Err? ==> r == Fail(PrimaryKeyViolation) && rows == old(rows)
      ensures InsertRow(old(rows), t).Ok? ==> r == Pass && rows == InsertRow(old(rows), t).value
    {
      var res := InsertRow(rows, t);
      if res.Err? {
        return Fail(res.error);
      }
      rows := res.value;
      r := Pass;
    }

    method GetTasks() returns (ts: seq<Task>)
      requires Valid()
      ensures IsListing(ts, rows)
    {
      ts := ListRows(rows);
    }

    method UpdateTask(t: Task)
      requires Valid()
      modifies this
      ensures Valid()
      ensures rows == UpdateRow(old(rows), t)
    {
      rows := UpdateRow(rows, t);
    }

    method DeleteTask(id: Id)
      requires Valid()
      modifies this
      ensures Valid()
      ensures rows == DeleteRow(old(rows), id)
    {
      rows := DeleteRow(rows, id);
    }
  }

  /**
   * SqliteService: the same table, but createDB throws off a device, and
   * every operation opens the database through createDB first.
   */
  class SqliteService {
    /** Whether a SQLite connection object exists (`this.sqlite` is non-null). */
    const native: bool
    /** Whether `this.db` is set. */
    var connected: bool
    var rows: map<Id, Row>

    ghost predicate Valid()
      reads this
    {
      TableValid(rows) && (connected ==> native)
    }

    constructor (native: bool, stored: map<Id, Row>)
      requires TableValid(stored)
      ensures Valid() && this.native == native && !connected && rows == stored
    {
      this.native := native;
      connected := false;
      rows := stored;
    }

    method CreateDB() returns (r: Outcome<StoreError>)
      requires Valid()
      modifies this
      ensures Valid() && rows == old(rows)
      ensures !native ==> r == Fail(NotNativePlatform) && connected == old(connected)
      ensures native ==> r == Pass && connected
    {
      if !native {
        return Fail(NotNativePlatform);
      }
      connected := true;
      r := Pass;
    }

    /** `if (!this.db) await this.createDB()`. */
    method Open() returns (r: Outcome<StoreError>)
      requires Valid()
      modifies this
      ensures Valid() && rows == old(rows)
      ensures r == (if native then Pass else Fail(NotNativePlatform))
      ensures r.Pass? ==> connected
    {
      if !connected {
        r := CreateDB();
      } else {
        r := Pass;
      }
    }

    method AddTask(t: Task) returns (r: Outcome<StoreError>)
      requires Valid()
      modifies this
      ensures Valid()
      ensures !native ==> r == Fail(NotNativePlatform) && rows == old(rows)
      ensures native && InsertRow(old(rows), t).Err? ==> r == Fail(PrimaryKeyViolation) && rows == old(rows)
      ensures native && InsertRow(old(rows), t).Ok? ==> r == Pass && rows == InsertRow(old(rows), t).value
    {
      r := Open();
      if r.Fail? {
        return;
      }
      var res := InsertRow(rows, t);
      if res.Err? {
        return Fail(res.error);
      }
      rows := res.value;
    }

    method GetTasks() returns (r: Result<seq<Task>, StoreError>)
      requires Valid()
      modifies this
      ensures Valid() && rows == old(rows)
      ensures !native ==> r == Err(NotNativePlatform)
      ensures native ==> r.Ok? && IsListing(r.value, rows)
    {
      var conn := Open();
      if conn.Fail? {
        return Err(conn.error);
      }
      var ts := ListRows(rows);
      r := Ok(ts);
    }

    method UpdateTask(t: Task) returns (r: Outcome<StoreError>)
      requires Valid()
      modifies this
      ensures Valid()
      ensures !native ==> r == Fail(NotNativePlatform) && rows == old(rows)
      ensures native ==> r == Pass && rows == UpdateRow(old(rows), t)
    {
      r := Open();
      if r.Fail? {
        return;
      }
      rows := UpdateRow(rows, t);
    }

    method DeleteTask(id: Id) returns (r: Outcome<StoreError>)
      requires Valid()
      modifies this
      ensures Valid()
      ensures !native ==> r == Fail(NotNativePlatform) && rows == old(rows)
      ensures native ==> r == Pass && rows == DeleteRow(old(rows), id)
    {
      r := Open();
      if r.Fail? {
        return;
      }
      rows := DeleteRow(rows, id);
    }
  }
}
