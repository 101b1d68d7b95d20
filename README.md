# JEMongoDirectory transaction state machine

A model of the per-handle transaction state machine of lucene-je-mongo-directory.
It covers `JEMongoDirectory` and `JEMongoIndexOutput.close()`.

`JEMongoDirectory` is a Lucene directory stored in two Berkeley DB JE databases, `__index__` and `__blocks__`. A handle holds at most one current transaction in its `txn` field:

- `beginTransaction` aborts a stale transaction before starting a new one;
- `commitTransaction` and `abortTransaction` always clear `txn`, even when the engine fails;
- `createOutput` and `deleteFile` begin a transaction of their own when none is in progress;
- closing an output channel commits whatever transaction the directory has at that moment;
- `close()` aborts, never commits, a transaction left open, and then closes the two database handles.

The model has two layers.

- **Specification.** `DirectorySpec` gives each Java method as a function on a `World`:
  - the fields the method updates (`txn`, `files`, `blocks`);
  - the engine;
  - a log of every call the handle has made.

  Each function returns the new world and how the method ends (it returns, or it throws an `IOException` or a `DatabaseException`).
- **Implementation.** `JEMongo` holds the two Java classes as Dafny classes whose methods update their fields in place. Each method is proved to end in exactly the state and outcome that the matching specification function gives.

The JE engine is modelled in `Engine` by a script of outcomes. It covers the engine proper and the inherited Lucene JE code that calls it. Each call consumes the next entry, which says whether the call fails; once the script is used up, every call succeeds. A property proved for every script therefore holds however the engine behaves.

`TxnLog` defines when a log respects the single-transaction discipline:

- a begin only when nothing is live;
- a commit or abort only of the live transaction;
- every other call under the live transaction.

From this it proves that no two transactions are ever live at once, and that every transaction is ended at most once.

`DirectoryInvariant` shows that every transition keeps this discipline, tied to the handle's `txn` field, and hence that it holds after the constructor followed by any sequence of calls.

`Scenario` replays the writing half of the `testBytes` test against a fault-free engine. It shows that the caller's transaction is committed by the first output close, and that each later `createOutput` begins a fresh transaction. It also pins down two error paths of the code:

- **Stale abort in `close()`.** `close()` prints a warning about "auto commiting" an open transaction, then aborts it. If that abort fails, the `IOException` propagates and neither store handle is closed, though `txn` is cleared. See `Scenario.CloseThrowsOnFailedStaleAbort`.
- **Failed delete in auto-mode `deleteFile`.** With no transaction in progress, a failing delete is followed by an abort of the auto-begun transaction, and `deleteFile` returns normally. After a refused begin or a failed commit, `txn` is already null, so the `abortTransaction()` in the `catch` does nothing and the error is dropped as well. Only a failing abort surfaces. See `Scenario.DeleteFileSwallowsFailedDelete`.

Nothing refuses calls after `close()`. `close()` does not null the store fields, so `good()` stays true on a closed handle. `Store` therefore has a separate `Closed` value next to `Null` and `Open`.

## Model

| member | source | states |
|---|---|---|
| `Engine.Environment.Call` | src/main/java/net/mongonet/lucene/store/je/JEMongoDirectory.java:191 | an engine call (commit, abort, database open or close, or an inherited operation) takes the next scripted outcome |
| `Engine.Environment.BeginTransaction` | src/main/java/net/mongonet/lucene/store/je/JEMongoDirectory.java:181 | `env.beginTransaction` either hands out a transaction with a fresh id, one above the last, or is refused |
| `TxnLog.AtMostOneLive` | src/main/java/net/mongonet/lucene/store/je/JEMongoDirectory.java:175-210 | a log that respects the discipline (begin only with none live, end only the live one) has at most one live transaction |
| `TxnLog.BeginsBalance` | src/main/java/net/mongonet/lucene/store/je/JEMongoDirectory.java:175-210 | in such a log each id is begun at most once, and a begun id is either still live or has been ended exactly once |
| `TxnLog.EndedAtMostOnce` | src/main/java/net/mongonet/lucene/store/je/JEMongoDirectory.java:187-210 | every transaction is committed or aborted at most once; once ended it was begun exactly once and is no longer live; and at the position of each commit or abort, the log before it has begun that transaction exactly once |
| `TxnLog.NeverTwoLive` | src/main/java/net/mongonet/lucene/store/je/JEMongoDirectory.java:175-186 | at no point of a well-formed log are two transactions live |
| `TxnLog.CallsRunUnderLiveTxn` | src/main/java/net/mongonet/lucene/store/je/JEMongoDirectory.java:153-168 | in a well-formed log each call runs under the one live transaction (or none), each commit or abort ends the live one, and each begin happens with none live |
| `TxnLog.EndedOnlyAfterBegun` | src/main/java/net/mongonet/lucene/store/je/JEMongoDirectory.java:187-210 | in a well-formed log, at the position of every commit or abort, the log before it has begun that transaction exactly once |
| `DirectorySpec.Perform` | src/main/java/net/mongonet/lucene/store/je/JEMongoDirectory.java:158 | an opaque inherited or engine call made under the current transaction leaves the directory's fields alone, logs itself with that transaction, and either returns or throws the given error |
| `DirectorySpec.AbortTxn` | src/main/java/net/mongonet/lucene/store/je/JEMongoDirectory.java:200-210 | a no-op without a transaction; otherwise one abort of that transaction, after which `txn` is null whether or not the engine failed, a failure surfacing as an IOException |
| `DirectorySpec.CommitTxn` | src/main/java/net/mongonet/lucene/store/je/JEMongoDirectory.java:187-199 | a no-op without a transaction; otherwise one commit of that transaction, after which `txn` is null whether or not the engine failed, a failure surfacing as an IOException |
| `DirectorySpec.BeginTxn` | src/main/java/net/mongonet/lucene/store/je/JEMongoDirectory.java:171-186 | a stale transaction is aborted first; it returns exactly when a transaction is active afterwards, and that is the fresh one the engine handed out; if the stale abort fails or the engine refuses, it throws an IOException and no transaction is active |
| `DirectorySpec.CreateOutput` | src/main/java/net/mongonet/lucene/store/je/JEMongoDirectory.java:128-134 | begins a transaction only when none is in progress and never replaces the caller's; on success a transaction is active and the channel has the given name and `create = true` |
| `DirectorySpec.CloseOutput` | src/main/java/net/mongonet/lucene/store/je/JEMongoIndexOutput.java:38-43 | the inherited close runs first; if it throws, nothing is committed and the directory is unchanged (its transaction still active); if it returns, the directory's current transaction is committed and none is active afterwards even when the commit fails; without a transaction the directory is unchanged |
| `DirectorySpec.DeleteFile` | src/main/java/net/mongonet/lucene/store/je/JEMongoDirectory.java:153-168 | the directory's fields are unchanged either way; with a caller transaction it deletes inside it and neither commits nor aborts; in auto mode the run is one of begin-refused, begin-delete-commit (ok or failed), or begin-failed delete-abort, and only a failing abort throws |
| `DirectorySpec.CloseStore` | src/main/java/net/mongonet/lucene/store/je/JEMongoDirectory.java:112-115 | a null handle is skipped with nothing logged; a non-null one is closed by one logged call, after which the field is `Closed`; if that close throws, a DatabaseException, every field is as before; the transaction is left alone |
| `DirectorySpec.Close` | src/main/java/net/mongonet/lucene/store/je/JEMongoDirectory.java:104-116 | on success: flush, abort of a stale transaction, then the closes of the non-null stores (never the environment), with no transaction left; on failure no store is changed except to be closed; either no transaction is left or the directory is unchanged |
| `DirectorySpec.OpenStores` | src/main/java/net/mongonet/lucene/store/je/JEMongoDirectory.java:87-97 | on success both stores are open after exactly the two opens under the current transaction; on a throw the transaction has been aborted (the last logged call is its abort, successful exactly when the DatabaseException is rethrown), and if the rethrown exception is the DatabaseException both store fields are null, while an IOException means the abort itself failed |
| `DirectorySpec.Finally` | src/main/java/net/mongonet/lucene/store/je/JEMongoDirectory.java:98-100 | the constructor's `finally` commit: no transaction is left; the constructor returns only if its body returned and the commit succeeded; a DatabaseException escaping it came from the body |
| `DirectorySpec.Construct` | src/main/java/net/mongonet/lucene/store/je/JEMongoDirectory.java:82-102 | no transaction is active afterwards, whatever happened; on success both stores are open after exactly begin, two opens and commit; a handle that is not `good()` means the constructor threw; if it threw a DatabaseException, both store fields are null |
| `DirectorySpec.CloseNeverCommits` | src/main/java/net/mongonet/lucene/store/je/JEMongoDirectory.java:105-111 | `close()` adds only aborts and opaque calls to the log: it never commits and never begins a transaction |
| `DirectoryInvariant.FreshInv` | src/main/java/net/mongonet/lucene/store/je/JEMongoDirectory.java:84 | the handle as the superclass constructor leaves it satisfies the discipline invariant |
| `DirectoryInvariant.PerformKeepsInv` | src/main/java/net/mongonet/lucene/store/je/JEMongoDirectory.java:158 | an opaque call keeps the invariant |
| `DirectoryInvariant.AbortKeepsInv` | src/main/java/net/mongonet/lucene/store/je/JEMongoDirectory.java:200-210 | `abortTransaction` keeps the invariant |
| `DirectoryInvariant.CommitKeepsInv` | src/main/java/net/mongonet/lucene/store/je/JEMongoDirectory.java:187-199 | `commitTransaction` keeps the invariant |
| `DirectoryInvariant.StartKeepsInv` | src/main/java/net/mongonet/lucene/store/je/JEMongoDirectory.java:180-185 | asking the engine for a transaction with none active keeps the invariant, and a granted id was never begun before |
| `DirectoryInvariant.BeginKeepsInv` | src/main/java/net/mongonet/lucene/store/je/JEMongoDirectory.java:175-186 | `beginTransaction` keeps the invariant, and the transaction it starts was never begun before |
| `DirectoryInvariant.CreateOutputKeepsInv` | src/main/java/net/mongonet/lucene/store/je/JEMongoDirectory.java:128-134 | `createOutput` keeps the invariant |
| `DirectoryInvariant.CloseOutputKeepsInv` | src/main/java/net/mongonet/lucene/store/je/JEMongoIndexOutput.java:38-43 | an output channel's `close` keeps the invariant |
| `DirectoryInvariant.DeleteFileKeepsInv` | src/main/java/net/mongonet/lucene/store/je/JEMongoDirectory.java:153-168 | `deleteFile` keeps the invariant in both modes |
| `DirectoryInvariant.CloseStoreKeepsInv` | src/main/java/net/mongonet/lucene/store/je/JEMongoDirectory.java:112-115 | closing a database handle keeps the invariant |
| `DirectoryInvariant.CloseKeepsInv` | src/main/java/net/mongonet/lucene/store/je/JEMongoDirectory.java:104-116 | `close()` keeps the invariant |
| `DirectoryInvariant.OpenStoresKeepsInv` | src/main/java/net/mongonet/lucene/store/je/JEMongoDirectory.java:87-97 | the constructor's open-or-abort block keeps the invariant |
| `DirectoryInvariant.FinallyKeepsInv` | src/main/java/net/mongonet/lucene/store/je/JEMongoDirectory.java:98-100 | the constructor's `finally` commit keeps the invariant |
| `DirectoryInvariant.ConstructBodyInv` | src/main/java/net/mongonet/lucene/store/je/JEMongoDirectory.java:87-97 | the constructor's body, its begin followed by the open-or-abort block, keeps the invariant from the fresh handle on |
| `DirectoryInvariant.ConstructInv` | src/main/java/net/mongonet/lucene/store/je/JEMongoDirectory.java:82-102 | the constructor establishes the invariant, however the engine behaves |
| `DirectoryInvariant.ApplyKeepsInv` | src/main/java/net/mongonet/lucene/store/je/JEMongoDirectory.java:104-210 | every public call on a handle or its channels keeps the invariant |
| `DirectoryInvariant.RunKeepsInv` | src/main/java/net/mongonet/lucene/store/je/JEMongoDirectory.java:104-210 | any sequence of public calls keeps the invariant |
| `DirectoryInvariant.Discipline` | src/main/java/net/mongonet/lucene/store/je/JEMongoDirectory.java:82-213 | after the constructor and any sequence of calls: never two live transactions at any point, every transaction ended at most once, and each commit or abort preceded in the log by the one begin of its transaction, and `transactionInProgress()` true exactly when a transaction is live |
| `Scenario.WriteFilesFaultFree` | src/test/java/net/mongonet/lucene/store/je/JEMongoStoreTest.java:124-137 | with no transaction active and a fault-free engine, each `createOutput` begins a fresh transaction that the output's `close` commits |
| `Scenario.AutoRoundsNoAbort` | src/test/java/net/mongonet/lucene/store/je/JEMongoStoreTest.java:124-137 | those rounds contain no abort |
| `Scenario.RoundFaultFree` | src/test/java/net/mongonet/lucene/store/je/JEMongoStoreTest.java:127-136 | against a fault-free engine with no transaction active, one `createOutput` begins a fresh transaction and the output's `close` commits it, leaving none active |
| `Scenario.CallerPartNoAbort` | src/test/java/net/mongonet/lucene/store/je/JEMongoStoreTest.java:122-138 | the part of the run from the caller's begin to its commit contains no abort |
| `Scenario.ConstructFaultFree` | src/test/java/net/mongonet/lucene/store/je/JEMongoStoreTest.java:121 | against a fault-free engine the constructor opens both stores in one transaction and commits it |
| `Scenario.CallerRoundFaultFree` | src/test/java/net/mongonet/lucene/store/je/JEMongoStoreTest.java:127-136 | against a fault-free engine under the caller's transaction, the first `createOutput` joins it and the output's `close` commits it, leaving none active |
| `Scenario.CallerFilesFaultFree` | src/test/java/net/mongonet/lucene/store/je/JEMongoStoreTest.java:124-137 | the test's loop under the caller's transaction against a fault-free engine: the first file commits the caller's transaction, every later one runs in its own, and none is active at the end |
| `Scenario.CallerTxnFaultFree` | src/test/java/net/mongonet/lucene/store/je/JEMongoStoreTest.java:122-138 | the caller's transaction is committed by the first output close (or by the final commit when there are no files), and every later file runs in its own transaction |
| `Scenario.CloseFaultFree` | src/test/java/net/mongonet/lucene/store/je/JEMongoStoreTest.java:143 | closing an open handle with no transaction flushes and closes both stores, aborting nothing |
| `Scenario.TestBytesWriteFaultFree` | src/test/java/net/mongonet/lucene/store/je/JEMongoStoreTest.java:120-144 | the whole writing run against a fault-free engine returns normally with a fixed log of calls, and the handle ends closed with no transaction |
| `Scenario.FaultFreeLogCommitsEarly` | src/test/java/net/mongonet/lucene/store/je/JEMongoStoreTest.java:122-138 | in that log the caller's transaction is committed at the eighth call whenever a file is written, and no call is an abort |
| `Scenario.TestBytesWriteCommitsEarly` | src/test/java/net/mongonet/lucene/store/je/JEMongoStoreTest.java:122-138 | in that run the caller's transaction ends at the first output close (the eighth call), and nothing is ever aborted |
| `Scenario.CloseThrowsOnFailedStaleAbort` | src/main/java/net/mongonet/lucene/store/je/JEMongoDirectory.java:107-111 | when the abort of a stale transaction fails, `close()` throws an IOException before closing either store, with the transaction cleared |
| `Scenario.DeleteFileSwallowsFailedDelete` | src/main/java/net/mongonet/lucene/store/je/JEMongoDirectory.java:155-164 | in auto mode a failing delete is followed by an abort, and `deleteFile` returns normally |
| `JEMongo.JEMongoDirectory.Init` | src/main/java/net/mongonet/lucene/store/je/JEMongoDirectory.java:84-86 | the fields as the superclass constructor leaves them (no transaction, both stores null), bound to the given environment, satisfying the invariant |
| `JEMongo.JEMongoDirectory.Create` | src/main/java/net/mongonet/lucene/store/je/JEMongoDirectory.java:82-102 | a fresh handle in exactly the state, with exactly the outcome, that `DirectorySpec.Construct` gives, satisfying the invariant, with no transaction active |
| `JEMongo.JEMongoDirectory.OpenStores` | src/main/java/net/mongonet/lucene/store/je/JEMongoDirectory.java:87-97 | the open-or-abort block updates the fields as `DirectorySpec.OpenStores` says and keeps the invariant |
| `JEMongo.JEMongoDirectory.Perform` | src/main/java/net/mongonet/lucene/store/je/JEMongoDirectory.java:158 | an opaque call behaves as `DirectorySpec.Perform` and keeps the invariant |
| `JEMongo.JEMongoDirectory.TransactionInProgress` | src/main/java/net/mongonet/lucene/store/je/JEMongoDirectory.java:211-213 | a query (reads only) that is true exactly when the handle's log has a live transaction |
| `JEMongo.JEMongoDirectory.Good` | src/main/java/net/mongonet/lucene/store/je/JEMongoDirectory.java:214-216 | a query (reads only) that is true exactly when both store fields are non-null |
| `JEMongo.JEMongoDirectory.BeginTransaction` | src/main/java/net/mongonet/lucene/store/je/JEMongoDirectory.java:171-186 | updates `txn` and the engine as `DirectorySpec.BeginTxn` says, returns exactly when a transaction is active, and keeps the invariant |
| `JEMongo.JEMongoDirectory.StartTransaction` | src/main/java/net/mongonet/lucene/store/je/JEMongoDirectory.java:180-185 | with no transaction active, asks the engine for one as `DirectorySpec.Start` says, keeping the invariant |
| `JEMongo.JEMongoDirectory.CommitTransaction` | src/main/java/net/mongonet/lucene/store/je/JEMongoDirectory.java:187-199 | as `DirectorySpec.CommitTxn`; `txn` is null afterwards on every path |
| `JEMongo.JEMongoDirectory.AbortTransaction` | src/main/java/net/mongonet/lucene/store/je/JEMongoDirectory.java:200-210 | as `DirectorySpec.AbortTxn`; `txn` is null afterwards on every path |
| `JEMongo.JEMongoDirectory.CreateOutput` | src/main/java/net/mongonet/lucene/store/je/JEMongoDirectory.java:128-134 | as `DirectorySpec.CreateOutput`; on success a fresh channel bound to this directory, with the given name and `create = true` |
| `JEMongo.JEMongoDirectory.DeleteFile` | src/main/java/net/mongonet/lucene/store/je/JEMongoDirectory.java:153-168 | as `DirectorySpec.DeleteFile`, keeping the invariant |
| `JEMongo.JEMongoDirectory.Close` | src/main/java/net/mongonet/lucene/store/je/JEMongoDirectory.java:104-116 | as `DirectorySpec.Close`, keeping the invariant |
| `JEMongo.JEMongoDirectory.CloseStore` | src/main/java/net/mongonet/lucene/store/je/JEMongoDirectory.java:112-115 | closes one non-null database handle as `DirectorySpec.CloseStore` says, keeping the invariant |
| `JEMongo.JEMongoIndexOutput.constructor` | src/main/java/net/mongonet/lucene/store/je/JEMongoIndexOutput.java:33-36 | the channel is bound to the directory that created it, with its name and create flag; it captures no transaction |
| `JEMongo.JEMongoIndexOutput.Close` | src/main/java/net/mongonet/lucene/store/je/JEMongoIndexOutput.java:38-43 | acts on its directory's current transaction exactly as `DirectorySpec.CloseOutput` says, keeping the directory's invariant |

## Left out

- Block and index record layout, block splitting, byte buffering and block deletion: these live in the inherited `JEDirectory`, `JEIndexOutput` and `File` classes, which are not part of this model. Their `flush`, the `JEIndexOutput` constructor and `close`, and `File.delete` are opaque steps that succeed or fail.
- The Berkeley DB JE API (`Environment`, `Database`, `Transaction`, configurations): an engine that hands out fresh transaction ids and whose calls may fail by a script. A commit or abort that throws is taken to end the transaction in the engine, as the code assumes when it nulls `txn` without retrying; the results that every transaction is ended at most once and that none is leaked rest on this. `dbConfig` and the parent/config arguments of `beginTransaction(parent, transConfig)` only pass through to the engine, so the two overloads are one method here.
- `env` is taken as non-null, as the constructor's documentation requires, so `good()` depends on the two store fields only. The model never closes the environment, because the code never does.
- The `System.err` warnings in `close()` and `beginTransaction()`: diagnostics only.
- The getters `getIndex`, `getBlocks`, `getEnvironment` and `getDatabaseConfig`, and the inherited `openInput`, `listAll`, `fileExists`, `fileLength`, `renameFile` and the like: outside the transaction state machine.
- Concurrency: one handle is single-threaded; `txn` is unsynchronized.
- JEMongo.JEMongoDirectory.Create: a Java constructor that throws hands no object to its caller; here the object is returned together with the outcome so its state can be stated either way.
- Scenario.TestBytesWriteFaultFree: covers only the writing half of `testBytes` against an engine that never fails. The written bytes, random lengths, timing and the reading half with cursor scans are not modelled, nor is the failure of the test's `finally`, which calls `close()` on a null `store` when the constructor throws.
- A failing `Database.close` leaves that field as it was; whether JE considers the handle still usable afterwards is not modelled.
