# Dorudon dictionary store — a Dafny model

Dorudon keeps a character dictionary in the browser's IndexedDB: records
`{code, im, value}` filed under a character code and one of eleven input
methods (IMs), in a single object store `dict` with three indices. This
project models the store engine in `scripts/db.js`:

- **Input methods** (`inputmethods.dfy`, module `InputMethods`): the
  `IM_*` ids and the `KNOWN_IMS` name-to-id table, proved to be a bijection
  between the eleven names and the ids 0..10. `db.js` never reads
  `KNOWN_IMS` and does not export it, so `LookupIm` states the lookup the
  table is meant for rather than modelling an existing call; it looks up only
  the table's own names (a plain JavaScript object would also answer for
  inherited members such as `"constructor"`, which the model does not).
- **Schema** (`schema.dfy`, module `Schema`): the database layout as a value
  (object stores, each with key path, key generator flag and named indices
  carrying a key path and a `unique` flag), the host's `createObjectStore` and
  `createIndex` as schema changes that fail on a name already taken, and what
  a unique index demands of a set of records.
- **Migration engine** (`migration.dfy`, module `Migration`): the step
  registry `upgradeFuncs` as a map from version to step, the version walk
  `upgradeSchema` as a pure function `Migrate` (stated over any table of
  steps, each step being the schema changes it makes before calling its
  continuation, so the engine's lemmas, including the schema a walk builds,
  hold for every registry and not just for today's single step), and the same walk run
  imperatively in the class `VersionChangeTxn`, whose methods change the
  schema in place. `UpgradeSchema` and the step `UpgradeSchema0` are mutually
  recursive exactly as in the source: the step receives the rest of the walk
  as its continuation and calls it once, after its last schema change.
- **Connection cache and transactions** (`store.dfy`, module `Store`): the
  module-level `_db` as the field `db` of class `DbModule`, with `openDb`,
  `ensureDB`, `newTxn`, `initDb`, `closeDb` and `DorudonDb.init` as methods,
  each proved against the pure `HostOpen` (the outcome of one open request)
  and `TxnReport` (what the callbacks hear).

The host (IndexedDB) is represented only by abstract outcomes: an open
request answers `OpenSuccess`, `OpenError(name)` or
`UpgradeNeeded(oldVersion, newVersion)`; a transaction ends `Complete` or
`Aborted(hostError)`. The optional JavaScript callbacks become flags
(`hasSuccessCb`, `hasFailureCb`) and the callback that fires becomes the
returned `Report` (`Succeeded`, `Failed(name)` or `Silent`).

Host behaviour the model relies on, stated here because the source leaves it
to IndexedDB: a `createObjectStore` or `createIndex` under a name already in
use throws a ConstraintError, and an exception thrown from the upgrade
handler aborts the version-change transaction; an aborted upgrade fails the
open request with `AbortError` and commits nothing; the host answers the
request for version 1 (`DB_VERSION`) with `newVersion == 1`. A conforming
IndexedDB never fires `upgradeneeded` with `oldVersion >= newVersion`: opening
version 1 of a database stored at a higher version fails the request with
`VersionError`, which the model receives as `OpenError("VersionError")` and
reports by name. The equal-version and downgrade branches of `upgradeSchema`
(scripts/db.js:81-85) are therefore unreachable in practice; they are modelled
as written.

Three points where `db.js` differs from what a reader might expect, modelled as the code has them:
`dict` is created with no options, so it has out-of-line keys and no key
generator (not auto-assigned keys); `ensureDB` does not share one in-flight
open among concurrent callers; and there is no bulk-ingest operation in
`db.js` to model.

## Model

| member | source | states |
|---|---|---|
| InputMethods.LookupIm | scripts/db.js:24-36 | a name has an id exactly when it is one of the eleven known names; the id is below 11 and names that same IM |
| InputMethods.KnownImsInRange | scripts/db.js:12-36 | the table has exactly 11 entries and every id it hands out lies in 0..10 |
| InputMethods.KnownImsInjective | scripts/db.js:12-36 | two names with the same id are the same name |
| InputMethods.KnownImsOnto | scripts/db.js:12-36 | every id 0..10 is handed out, to the name listed for it |
| Schema.ApplyOp | scripts/db.js:54-60 | a change succeeds exactly when its name is free (and, for an index, its store exists); a new store is a plain store (out-of-line keys, no key generator, no indices) under its name; a new index carries the given key path and flag on its store; every other store, the store's own key settings and its other indices are unchanged |
| Schema.ApplyOps | scripts/db.js:54-60 | a run of schema changes that succeeds keeps every store that was there |
| Migration.Migrate | scripts/db.js:73-86 | at most one step per version crossed; a walk that does not abort goes up and runs one step per version; a downgrade aborts and runs nothing (the schema a walk builds is stated by MigrateAppliesStepsInOrder) |
| Migration.MigrateRunsStepsInOrder | scripts/db.js:74-78 | the steps run are those for oldVersion, oldVersion+1, ... in increasing order, each once, none skipped; a completed walk runs exactly oldVersion..newVersion-1; an aborted upward walk ran at least one step |
| Migration.ApplyOpsAppend | scripts/db.js:74-78 | making two runs of schema changes back to back is making the first and, if it succeeds, the second from where it left off |
| Migration.MigrateAppliesStepsInOrder | scripts/db.js:74-78 | for any step table, an upward walk completes exactly when the changes of the steps oldVersion..newVersion-1, made one after another in that order, are all accepted, and then leaves exactly the schema they build |
| Migration.MigrateKeepsStores | scripts/db.js:73-86 | a walk that completes never loses an object store |
| Migration.MigrateSameVersion | scripts/db.js:81-83 | equal versions: no step, schema untouched, no abort |
| Migration.MigrateDowngrade | scripts/db.js:85 | a downgrade runs no step, leaves the schema untouched and aborts |
| Migration.Schema0OnEmpty | scripts/db.js:44-63 | step 0 on an empty database yields exactly one store `dict`, out-of-line keys, with exactly the indices `code` (non-unique), `im-code` on [im, code] (unique), `code-im` on [code, im] (unique) |
| Migration.Schema0NotReplayable | scripts/db.js:54 | with `dict` already present, step 0 is refused |
| Migration.FreshDatabaseMigration | scripts/db.js:43-89 | migrating a fresh database from 0 to DB_VERSION runs step 0 once, does not abort and yields the `dict` layout |
| Migration.PairKey | scripts/db.js:58-60 | a compound index on two fields files a record under the array of those two field values |
| Migration.DictAdmitsExactlyDistinctPairs | scripts/db.js:58-60 | the `dict` store's unique indices admit a record set if and only if no two records share a (code, im) pair |
| Migration.VersionChangeTxn.CreateObjectStore | scripts/db.js:54 | creates the store when the name is free; otherwise aborts the transaction and leaves the schema |
| Migration.VersionChangeTxn.CreateIndex | scripts/db.js:56-60 | adds the index when its name is free on an existing store; otherwise aborts the transaction and leaves the schema |
| Migration.VersionChangeTxn.Abort | scripts/db.js:85 | marks the transaction aborted and changes nothing else |
| Migration.VersionChangeTxn.UpgradeSchema | scripts/db.js:73-86 | the transaction ends in the state `Migrate` describes: same abort flag, same steps run, and, when not aborted, the same schema |
| Migration.VersionChangeTxn.UpgradeSchema0 | scripts/db.js:44-63 | makes step 0's four schema changes, stopping (aborted) at a refused one, and otherwise ends as the continuation's walk from the next version |
| Store.SuccessReport | scripts/db.js:68-71 | the success callback is heard exactly when one was given, and never as a failure |
| Store.FailureReport | scripts/db.js:115-123 | the failure callback is heard, with the given name, exactly when one was given |
| Store.AbortName | scripts/db.js:119-123 | an abort is named by the host error's name when there is one, `UnknownError` otherwise |
| Store.AbortNameFallback | scripts/db.js:119-123 | the name is `UnknownError` if and only if the host gave no error or an error of that name |
| Store.TxnReport | scripts/db.js:104-132 | success is heard iff a success callback was given, a connection exists and the transaction completed; failure iff a failure callback was given and the open failed or the transaction aborted, carrying the open's error name or the abort name |
| Store.AnsweredRequestsAreRegistered | scripts/db.js:43-89 | every upgrade the host can request for version 1 finds a registered step for each version it crosses |
| Store.HostOpen | scripts/db.js:66-94 | an open either connects (to `dorudon` at DB_VERSION) or reports an error, never both; a failed open commits nothing; a host error is passed on by name |
| Store.OpenFreshDatabase | scripts/db.js:66-94 | opening a fresh database creates the `dict` layout and connects |
| Store.OpenNewerDatabaseFails | scripts/db.js:85-93 | for the downgrade branch of `upgradeSchema` (which a conforming host never reaches, see below): when the host reports an upgrade from a version above 1, the walk aborts, the open fails with `AbortError` and the stored layout is left as it is |
| Store.DbModule.constructor | scripts/db.js:41 | the cache starts empty |
| Store.DbModule.OpenDb | scripts/db.js:66-94 | caches the connection and calls the success callback on success; calls the failure callback with the error name on failure and leaves the cache |
| Store.DbModule.EnsureDb | scripts/db.js:96-102 | with a cached connection, succeeds without opening and changes nothing; otherwise behaves as an open |
| Store.DbModule.NewTxn | scripts/db.js:104-132 | ensures a connection, asks for the transaction only once connected, and reports as `TxnReport` says |
| Store.DbModule.InitDb | scripts/db.js:134-136 | a read-only transaction over `dict` alone; the cache and the committed layout are those of the open it needed (the migrated layout after an upgrade), reported as `TxnReport` says |
| Store.DbModule.CloseDb | scripts/db.js:138-143 | the cache is empty afterwards; nothing else changes, and an empty cache stays as it was |
| Store.DbModule.Init | scripts/db.js:145-149 | the public `init` is `initDb`: the same cache, committed layout, issued transaction and report |

## Left out

- IndexedDB itself: the asynchronous open request, event objects and
  transactions are abstract outcomes given as parameters; their timing and
  ordering relative to other work are not modelled.
- The work a transaction does: `newTxn`'s `aCallback` and the object store
  handles it receives are not modelled; the only caller, `initDb`, passes none.
- The value `newTxn` hands the success callback (`aEvent.target.result`) is
  not modelled; `Succeeded` carries no value.
- Store.DbModule.NewTxn: does not model the host exception `transaction()`
  throws when a named store does not exist or the list is empty.
- Store.DbModule.CloseDb: the host `close()` call on the connection is not
  modelled beyond emptying the cache.
- A missing upgrade step (`upgradeFuncs['upgradeSchema' + N]` undefined, a
  TypeError in the source) is excluded by the precondition `Registered`, which
  the one version the program requests always meets.
- Record contents are modelled only as far as the indices use them: `value`
  is a string standing for an opaque object, and writing records is not part
  of `db.js`; uniqueness is stated as a predicate on a record set.
- The bulk-ingest operation (`loadFromFile`, called from the UI) is not part
  of this model: `db.js` does not define it, so there is no parser, progress
  reporting or population guard to model.
- scripts/db-init-ui.js and scripts/app.js: DOM and alert glue, not part of
  the store engine.
