# Task sync: a Dafny model

This project models the last-write-wins task synchronisation of a to-do
application. It has two parts:

- a small Express server that keeps a task list in memory, with CRUD routes
  and a batch-reconcile route, `POST /tasks/sync`;
- an Ionic/Capacitor mobile client that keeps its tasks in an on-device
  SQLite table and synchronises with the server: push the unsynced tasks,
  then pull the server's list.

The home screen's in-memory list logic is modelled as well.

Layout, one module per source file or component:

| file | module | models |
|---|---|---|
| `wrappers.dfy` | `Wrappers` | Option / Result / Outcome |
| `sequences.dfy` | `Sequences` | `Array.prototype.filter` and subsequences, with their lemmas |
| `task_model.dfy` | `TaskModel` | `Task`, `CreateTaskDTO`, `UpdateTaskDTO` (`todoApp/src/app/models/task.model.ts`), id sets |
| `todo_api.dfy` | `TaskApi` | the server (`todo-api/index.js`): `class TaskServer` over `seq<Task>` and the reconcile specification |
| `local_table.dfy` | `LocalTable` | the SQLite `tasks` table as `map<Id, Row>`, the row codec, `class SqliteApiFallbackService` (native branch), `class SqliteService` |
| `sync_service.dfy` | `Sync` | `class SyncService`: push, pull, full sync, and the end-to-end last-write-wins lemmas |
| `home_page.dfy` | `Home` | `class HomePage`: filters, pending-sync count, toggle, delete, simulated sync |

How the model represents the source:

- A `Task` is a datatype. Only `description` is optional (an `Option`). Every
  other field is required, as in `task.model.ts`.
- `CreateTaskDTO` carries a title and an optional description. It has no id
  and no timestamps.
- `UpdateTaskDTO` requires `id`; each of its other fields is optional.
- Timestamps are integers. Only their order matters, because the source
  compares them with `new Date(a) > new Date(b)`.
- `uuidv4()` becomes a fresh-id parameter, and `new Date()` becomes a "now"
  parameter.
- Each HTTP exchange ends in one of four ways, given by the `Sync.Link`
  parameter:
  - `Up`: the request is answered normally.
  - `Down`: the request never reaches the server.
  - `ReplyLost`: the server acts on the request, but the client sees a
    rejection.
  - `Garbled`: a reply arrives without its `updated` or `tasks` field.
- The reconcile loop is specified by `TaskApi.ReconcileBatch`, a fold over
  prefixes of the batch. So a later duplicate id in one batch is compared
  against the record that an earlier entry just wrote.

Where the code and its own comments differ, the model follows the code:

- **Pull only refreshes existing rows.** Pull writes each server task
  through `updateTask`, which is `UPDATE ... WHERE id=?`. It therefore
  refreshes only rows the device already has: it inserts no row and deletes
  none. This holds even though the comment at
  `todoApp/src/app/services/sync.service.ts:58` says "update or insert".
  `Sync.PullRefreshes` states the
  behaviour as written.
- **Push marks every pushed task synced.** After a successful post, push
  marks every pushed task synced, not only those the server reports in
  `updated`.
- **The server does not keep `updatedAt` monotonic.** `PUT /tasks/:id`
  stores any `updatedAt` the client supplies, older ones included.
  Reconcile replaces the whole record, `createdAt` included, with the
  client's copy.

## Model

| member | source | states |
|---|---|---|
| `TaskApi.FindIndex` | todo-api/index.js:75 | `findIndex`: -1 when no task has the id, else the first index holding it |
| `TaskApi.FindIndexFound` | todo-api/index.js:48-49 | `findIndex` gives -1 exactly when no task holds the id, which is when PUT and DELETE answer 404 |
| `TaskApi.Patched` | todo-api/index.js:50-57 | a PUT keeps the record's id and createdAt |
| `TaskApi.PatchedIdempotent` | todo-api/index.js:50-57 | applying the same patch at the same instant twice equals applying it once |
| `TaskApi.EmptyPatchOnlyStamps` | todo-api/index.js:52-56 | a body with no field (`??` keeps every old value) changes only updatedAt, which becomes "now" |
| `TaskApi.RemoveAtIds` | todo-api/index.js:66 | `splice(idx, 1)` on a unique-id list removes exactly that id and keeps ids unique |
| `TaskApi.ReconcileOne` | todo-api/index.js:75-85 | an absent id is appended flagged synced and reported; otherwise the length is kept, no other record changes, no id moves, and at most this task is reported |
| `TaskApi.ReconcileOneLookup` | todo-api/index.js:76-84 | `Winner` is the record lines 76-84 leave under an id; after a step, the record under the incoming id is the strictly newer copy (ties keep the server's); every other id's record is unchanged |
| `TaskApi.ReconcileOneReports` | todo-api/index.js:76-84 | a task is reported exactly when its id was absent or its updatedAt is strictly newer than the stored one |
| `TaskApi.ReconcileBatch` | todo-api/index.js:73-87 | the list never shrinks, and every existing record keeps its id at its index |
| `TaskApi.ReconcileUpdatedIsSubsequence` | todo-api/index.js:73-87 | `updated` is a subsequence of the incoming batch, in input order |
| `TaskApi.ReconcileIds` | todo-api/index.js:74-86 | afterwards the ids are the old ids plus the batch's ids: nothing is removed |
| `TaskApi.ReconcileLength` | todo-api/index.js:74-86 | the list grows by exactly the number of batch ids the store did not have, duplicates in the batch included |
| `TaskApi.ReconcileKeepsUniqueIds` | todo-api/index.js:74-86 | reconcile keeps ids unique |
| `TaskApi.ReconcileBatchLookup` | todo-api/index.js:74-86 | for a batch with distinct ids, each id ends with the winner of its stored and incoming copies; ids outside the batch keep their record |
| `TaskApi.ReconcileOneGrowth` | todo-api/index.js:75-84 | one step leaves the stored ids as before plus the incoming id |
| `TaskApi.ReconcileDominates` | todo-api/index.js:80-84 | after reconcile, every batch entry is matched by a stored record at least as recent |
| `TaskApi.DominatedBatchIsNoOp` | todo-api/index.js:74-86 | a batch whose every entry is matched by a stored record at least as recent changes nothing and reports nothing |
| `TaskApi.ReconcileIdempotent` | todo-api/index.js:71-88 | reconciling the same batch again changes nothing and reports nothing |
| `TaskApi.TaskServer.constructor` | todo-api/index.js:21 | the store starts empty |
| `TaskApi.TaskServer.List` | todo-api/index.js:24-26 | GET returns the whole list, whose ids are unique |
| `TaskApi.TaskServer.Create` | todo-api/index.js:29-41 | appends exactly one task, `NewTask` (lines 31-39), with the fresh id and the defaults (description '', flags coerced, updatedAt defaulting to now); earlier tasks unchanged |
| `TaskApi.TaskServer.Update` | todo-api/index.js:45-58 | an unknown id gives not-found and no change; otherwise only the found index becomes the patched record, which is returned |
| `TaskApi.TaskServer.Delete` | todo-api/index.js:62-67 | an unknown id gives not-found and no change; otherwise removes and returns that element, keeps the others in order, and drops the id |
| `TaskApi.TaskServer.Reconcile` | todo-api/index.js:71-88 | the loop leaves the store and `updated` exactly as `ReconcileBatch` says, and ids stay unique |
| `LocalTable.DecodeEncode` | todoApp/src/app/services/sqlite-api-fallback.service.ts:51-80 | `EncodeRow` (the INSERT values, lines 52-60) and `DecodeRow` (the row mapping, lines 72-80): an encoded task is a well-formed row, and decoding it gives the task back with description defaulted to '' (unchanged if it had one) |
| `LocalTable.EncodeDecode` | todoApp/src/app/services/sqlite-api-fallback.service.ts:72-80 | decoding a 0/1 row and encoding it again writes the same row |
| `LocalTable.InsertRow` | todoApp/src/app/services/sqlite-api-fallback.service.ts:51-61 | INSERT fails with a primary-key violation exactly when the id is present; otherwise adds only that row, which decodes to the normalised task |
| `LocalTable.Overwritten` | todoApp/src/app/services/sqlite-api-fallback.service.ts:90-98 | UPDATE keeps the row's id and createdAt and takes the other five fields from the task |
| `LocalTable.UpdateRow` | todoApp/src/app/services/sqlite-api-fallback.service.ts:90-99 | `UPDATE ... WHERE id=?` adds and removes no row, rewrites only the row with that id, and is a no-op on an absent id |
| `LocalTable.DeleteRow` | todoApp/src/app/services/sqlite-api-fallback.service.ts:108-109 | removes the row with that id if present; other rows are untouched |
| `LocalTable.InsertThenList` | todoApp/src/app/services/sqlite-api-fallback.service.ts:72-80 | after an insert, listing the table yields the task with description defaulted to '' |
| `LocalTable.ListRows` | todoApp/src/app/services/sqlite-api-fallback.service.ts:70-80 | `SELECT *` with the row mapping lists every row once, decoded |
| `LocalTable.SqliteApiFallbackService.constructor` | todoApp/src/app/services/sqlite-api-fallback.service.ts:18-25 | opens the table on the rows already on the device |
| `LocalTable.SqliteApiFallbackService.AddTask` | todoApp/src/app/services/sqlite-api-fallback.service.ts:48-61 | fails and changes nothing on a duplicate id; otherwise the table becomes `InsertRow`'s |
| `LocalTable.SqliteApiFallbackService.GetTasks` | todoApp/src/app/services/sqlite-api-fallback.service.ts:67-80 | returns a listing of the table |
| `LocalTable.SqliteApiFallbackService.UpdateTask` | todoApp/src/app/services/sqlite-api-fallback.service.ts:87-99 | the table becomes `UpdateRow`'s |
| `LocalTable.SqliteApiFallbackService.DeleteTask` | todoApp/src/app/services/sqlite-api-fallback.service.ts:105-109 | the table becomes `DeleteRow`'s |
| `LocalTable.SqliteService.constructor` | todoApp/src/app/services/sqlite.service.ts:16-22 | records whether a native SQLite connection exists; no database is open yet |
| `LocalTable.SqliteService.CreateDB` | todoApp/src/app/services/sqlite.service.ts:27-54 | off a device, fails with an error and creates nothing; on a device, opens the database without touching rows |
| `LocalTable.SqliteService.Open` | todoApp/src/app/services/sqlite.service.ts:60 | `if (!this.db) await this.createDB()`: fails exactly off a device |
| `LocalTable.SqliteService.AddTask` | todoApp/src/app/services/sqlite.service.ts:59-72 | off a device, fails with no change; on one, fails on a duplicate id or inserts the encoded task |
| `LocalTable.SqliteService.GetTasks` | todoApp/src/app/services/sqlite.service.ts:77-90 | off a device, fails; on one, returns a decoded listing of every row |
| `LocalTable.SqliteService.UpdateTask` | todoApp/src/app/services/sqlite.service.ts:95-107 | off a device, fails with no change; on one, the table becomes `UpdateRow`'s |
| `LocalTable.SqliteService.DeleteTask` | todoApp/src/app/services/sqlite.service.ts:112-116 | off a device, fails with no change; on one, removes only that id |
| `Sync.WriteBack` | todoApp/src/app/services/sync.service.ts:59-61 | the write-back loop adds and removes no row and keeps the table well-formed |
| `Sync.WriteBackEffect` | todoApp/src/app/services/sync.service.ts:31-34 | for a list with distinct ids, the loop overwrites each row the list names with the listed task flagged synced, and leaves other rows unchanged |
| `Sync.MarkAllSynced` | todoApp/src/app/services/sync.service.ts:31-34 | keeps the keys and flags every row synced |
| `Sync.UnsyncedOfListing` | todoApp/src/app/services/sync.service.ts:23-24 | the pushed batch is exactly the rows whose isSynced is 0, decoded, each once |
| `Sync.PushWriteBackMarksAll` | todoApp/src/app/services/sync.service.ts:31-34 | writing back the pushed batch leaves the table as `MarkAllSynced` does: every row flagged synced with its other columns kept, whatever the server reported |
| `Sync.NothingToPush` | todoApp/src/app/services/sync.service.ts:25 | with no unsynced row, the batch is empty: neither store changes and the answer is [] |
| `Sync.PushSettlesFlags` | todoApp/src/app/services/sync.service.ts:27-45 | a rejected push leaves the table alone; a resolved one leaves every row flagged synced; the server never loses an id |
| `Sync.PullRefreshes` | todoApp/src/app/services/sync.service.ts:57-62 | pull adds and removes no local row; each row the server lists takes the server's fields, keeps its createdAt, and is flagged synced; other rows stay as they were |
| `Sync.FullSyncLastWriteWins` | todoApp/src/app/services/sync.service.ts:78-89 | after push and pull both succeed, an unsynced task's server record is the winner of the two copies (ties go to the server), and the device row holds the winner's fields flagged synced |
| `Sync.LocalNewerSurvives` | todoApp/src/app/services/sync.service.ts:78-89 | a newer or new local edit reaches the server and survives locally, flagged synced |
| `Sync.LocalOlderIsLost` | todoApp/src/app/services/sync.service.ts:78-89 | a local edit no newer than the server's copy is overwritten by the server's copy |
| `Sync.SyncService.constructor` | todoApp/src/app/services/sync.service.ts:13-16 | wires the service to the local table and the server |
| `Sync.SyncService.WriteBackAll` | todoApp/src/app/services/sync.service.ts:31-34 | the `for ... await updateTask` loop leaves the table exactly as `WriteBack` says |
| `Sync.SyncService.SyncToServer` | todoApp/src/app/services/sync.service.ts:21-46 | posts exactly the unsynced rows; both stores (`PushEffect`: the server reconciles unless the link is down, the table is written back unless the reply is lost) and the answer (`PushReply`: `updated`, `[]` for a reply without it, or the rethrown error) and the answer follow `PushEffect` and `PushReply` for the given link |
| `Sync.SyncService.FetchFromServer` | todoApp/src/app/services/sync.service.ts:51-73 | the server is unchanged; the table (`PullEffect`: written back only when the list arrives) and the answer (`PullReply`: the list, `[]` without `tasks`, or the error) and the answer follow `PullEffect` and `PullReply` for the given link |
| `Sync.SyncService.FullSync` | todoApp/src/app/services/sync.service.ts:78-89 | push then pull, the pull running whatever the push did; the final state is pull applied after push, and it returns no error |
| `Home.Toggled` | todoApp/src/app/home/home.page.ts:149-151 | toggling negates isCompleted, clears isSynced, stamps now, and touches no other field |
| `Home.AllSynced` | todoApp/src/app/home/home.page.ts:237-239 | each task, at its own index, becomes itself flagged synced: no other field changes and the length is kept |
| `Home.FilteredExact` | todoApp/src/app/home/home.page.ts:114-125 | `Filtered`, over `PendingTasks` and `CompletedTasks`: 'pending' keeps exactly the not-completed tasks and 'completed' exactly the completed ones, every occurrence, in order; 'all' is the whole list |
| `Home.PendingCompletedPartition` | todoApp/src/app/home/home.page.ts:288-294 | the getters `PendingTasks` and `CompletedTasks` partition `allTasks` |
| `Home.ToggleCount` | todoApp/src/app/home/home.page.ts:157 | after a toggle, `PendingSyncCount` (the unsynced-task count of lines 108 and 157) rises by one exactly when the task was synced |
| `Home.ToggleTwice` | todoApp/src/app/home/home.page.ts:149-151 | toggling twice restores isCompleted but leaves the task unsynced |
| `Home.WithoutIdExact` | todoApp/src/app/home/home.page.ts:203 | `WithoutId`, the delete filter, removes every task with that id and keeps each other task, in order |
| `Home.AllSyncedClearsCount` | todoApp/src/app/home/home.page.ts:237-240 | after the simulated sync, nothing is pending sync |
| `Home.FilteredAllSynced` | todoApp/src/app/home/home.page.ts:237-239 | marking all tasks synced commutes with each filter, so the filtered view stays consistent |
| `Home.HomePage.constructor` | todoApp/src/app/home/home.page.ts:16-22 | empty lists, filter 'all', online, count 0 |
| `Home.HomePage.FilterTasks` | todoApp/src/app/home/home.page.ts:114-125 | `filteredTasks` becomes the current filter's view of `allTasks` |
| `Home.HomePage.LoadInitialData` | todoApp/src/app/home/home.page.ts:46-50 | loads the stored tasks, sets the pending-sync count (line 108), and filters |
| `Home.HomePage.ToggleTaskCompletion` | todoApp/src/app/home/home.page.ts:146-158 | only the toggled index changes; the count stays equal to the unsynced tasks; the view is refiltered |
| `Home.HomePage.PerformDeleteTask` | todoApp/src/app/home/home.page.ts:200-210 | `allTasks` loses exactly that id; the view and the count are recomputed |
| `Home.HomePage.SyncTasks` | todoApp/src/app/home/home.page.ts:225-247 | offline, nothing changes; online, every task in both lists is flagged synced, the count becomes 0, and the view remains the current filter of `allTasks` |

## Left out

- HTTP transport (`HttpClient`, `firstValueFrom`, JSON bodies): a remote call is a direct call on `TaskApi.TaskServer`, and its fate is the `Link` parameter.
- The web branch of `sqlite-api-fallback.service.ts`, which only forwards to HTTP: only the native branch is modelled.
- SQLite connection handling (`isConnection`, `createConnection`, `open`, `execute`) and SQL itself: only the table each statement leaves behind is modelled. The fallback service's `createDB` does nothing in the model.
- Failures of individual local-table calls inside push and pull (a rejected `updateTask` midway through a loop): the model's table calls always succeed.
- `getTasks` in both `SqliteApiFallbackService` and `SqliteService` returning `[]` when the query yields no `values` array (`res.values?.map(...) || []`): `LocalTable.SqliteApiFallbackService.GetTasks` and `LocalTable.SqliteService.GetTasks` always return every row.
- `uuidv4()` and `new Date().toISOString()` are parameters. ISO-8601 parsing, and the NaN comparison of an invalid date, are not modelled.
- JavaScript truthiness: request fields are `Option`s of the declared types. `!!x` and `x || d` on strings, numbers or objects are not modelled. An empty-string `updatedAt` counts as supplied.
- `TaskApi.TaskServer.Create` requires the fresh id to be unused, which assumes `uuidv4()` never collides. It also requires a title, whereas the server would store a missing title as `undefined`.
- The `TaskResponse` and `TaskListResponse` wire interfaces, and the `success`/`error` JSON envelopes, are not modelled.
- Async interleaving, `setTimeout` (the simulated sync takes effect at once) and concurrent user edits during a sync.
- In `HomePage`, tasks are values. `toggleTaskCompletion` takes the task's index in `allTasks` instead of an object reference. The object sharing between `allTasks` and `filteredTasks` is reproduced only in `SyncTasks`, by flagging both lists. The `catch` that reverts a toggle is not modelled, because nothing in its `try` can fail in the model.
- `loadTasksFromStorage`'s fixed demonstration list is a parameter of `Home.HomePage.LoadInitialData`.
- The confirmation dialog of `deleteTask`, navigation, the `online`/`offline` listeners, `formatDate`, `getEmptyMessage`, `trackByTaskId`, the console logging, the task form page and the Capacitor configuration are not modelled.
