# sql-provider executor, modelled in Dafny

This project models the executor of sql-provider, a small Java library that wraps JDBC.
An `SQLExecutor` sits in front of a connector, which acquires a connection, runs a block on
it and releases it. The executor offers:

- `execute` for statements;
- `query` and `queryMany` for result sets turned into values by per-class result adapters;
- `executeBatch` for a statement run once per collected handler;
- `withTransaction`, which runs a body on one connection with auto-commit off and then
  commits or rolls back.

While a transaction runs, a per-thread slot (`ThreadLocalTransaction`) holds an
`SQLTransactionHolder`. The holder gives every executor call on that thread the
transaction's connection and a same-thread task executor. Around the executor sit:

- `BatchBuilder`, an ordered, reusable list of handlers for one statement;
- `SQLExecutorBuilder`, which pre-registers the `SimpleResultSet` adapter and picks the
  default task executor;
- `Dao`, a key/value table over a fixed set of SQL texts with a shared save batch.

## How the model is built

The driver is a `Database` object (`jdbc.dfy`). It records every call the executor makes
as an `Event`:

- checkout and release of a pooled connection;
- `setAutoCommit`, prepare, a statement callback applied to the statement, `addBatch`;
- `execute`, `executeQuery`, `executeBatch`, closing the statement;
- commit and rollback.

The driver refuses exactly the statements in its `rejected` set, with an `SQLException`
raised when the statement is executed (`execute`, `executeQuery` or `executeBatch`).
The pool gives every checkout a new connection id.

Each executor operation comes in two forms:

- a method on the objects (`executor.dfy`, `builder.dfy`, `dao.dfy`), which appends its
  calls to the trace;
- a pure function of the inputs (`statements.dfy`, `transactions.dfy`), giving the calls,
  the outcome and the number of checkouts.

Each method's postcondition ties the new trace and result to its function. Lemmas then
prove the library's promises about those functions: call order, exactly one statement,
release on every path, commit or rollback, and de-duplication.

Exceptions are `Failure` values of a `Result`. The connectors surface them as the code does:

- the pool's connector wraps an `SQLException` in a `RuntimeException`;
- the transaction's connector wraps it in a `ConnectorException`;
- every other exception passes through unchanged.

The thread a task runs on is a parameter: `caller` for the calling thread, `worker` for
the pool thread the scheduler picks. `RunsOn` chooses between them by task executor.

`BatchBuilder.getStatement` and `getHandlers` are modelled as plain field reads
(`GetStatement`, `GetHandlers`). `statement` is a `const`, so no operation can change it.

Three behaviours of the code that are easy to miss, and that the model follows:

- `Dao.saveAll` resets the batch through `thenRun`, that is, only after the batch ran
  successfully. After a failure the handlers stay in the shared batch, and the next save
  replays them (`Daos.Dao.SaveAll`).
- Inside a transaction, `executeAsync` runs inline on the same-thread executor. Its failure
  completes its own future, which the body does not wait on. So it does not make the body
  throw, and it does not cause a rollback (`Transactions.StepRun`).
- `executeBatchAsync` calls `CompletableFuture.runAsync` without an executor. It therefore
  always runs on the common pool, even inside a transaction, and there the worker's slot is
  empty, so the batch uses a pooled connection of its own (`Executor.BatchBuilder.ExecuteAsync`).

## Model

Paths are relative to the repository root.

| member | source | states |
|---|---|---|
| TransactionSlot.RunsOn | executor/src/main/java/com/jaoow/sql/executor/CurrentThreadExecutor.java:9-13 | A command submitted to the same-thread executor runs on the submitting thread. |
| TransactionSlot.ThreadLocalTransaction.constructor | executor/src/main/java/com/jaoow/sql/executor/ThreadLocalTransaction.java:4 | The `ThreadLocal` starts with every thread's slot empty. |
| TransactionSlot.SetThenRemove | executor/src/main/java/com/jaoow/sql/executor/SQLExecutor.java:705-715 | `set(h)` followed by `remove()` on a thread leaves the slots as `remove()` alone would: the slot is empty afterwards, whatever was there before. |
| TransactionSlot.ThreadLocalTransaction.Get | executor/src/main/java/com/jaoow/sql/executor/ThreadLocalTransaction.java:13-15 | `get()` returns a holder exactly when the thread's slot holds one, and then that holder; otherwise null. |
| TransactionSlot.ThreadLocalTransaction.Set | executor/src/main/java/com/jaoow/sql/executor/ThreadLocalTransaction.java:23-25 | After `set(h)`, `get()` on that thread returns `h`, replacing any earlier holder (one slot per thread). No other thread's `get()` changes. |
| TransactionSlot.ThreadLocalTransaction.Remove | executor/src/main/java/com/jaoow/sql/executor/ThreadLocalTransaction.java:31-33 | After `remove()`, `get()` returns null. It is a no-op on an empty slot, and no other thread's `get()` changes. |
| Connectors.CurrentConnector | executor/src/main/java/com/jaoow/sql/executor/SQLExecutor.java:87-103 | With an empty slot, the default connector. With a holder, a connector lending the holder's connection. With a null connection, a null-pointer error with the source's message. |
| Connectors.CurrentExecutor | executor/src/main/java/com/jaoow/sql/executor/SQLExecutor.java:66-76 | With an empty slot, the default task executor. With a holder, the holder's executor. With a null executor, a null-pointer error with the source's message. |
| Connectors.Surface | executor/src/main/java/com/jaoow/sql/executor/SQLExecutor.java:96-102 | A connector keeps the block's success, and lets through any failure that is not an `SQLException`. An `SQLException` surfaces wrapped: in a `RuntimeException` from the pool's connector, in a `ConnectorException` from the transaction's connector. |
| Connectors.Session | executor/src/main/java/com/jaoow/sql/executor/SQLExecutor.java:87-103 | Defines one `connector.execute(block)`: the pool's checkout before the block's calls and its release after them, nothing around them for the transaction's connector; the block's outcome as `Surface` gives it, and one checkout for the pool. |
| Connectors.PooledSessionReleases | connector/src/main/java/com/jaoow/sql/connector/type/impl/MySQLDatabaseType.java:85-91 | The pooled connector checks out one connection first and releases it last, whether or not the block threw. All calls are on that connection, and checkouts and releases balance. |
| Connectors.BorrowedSessionKeepsConnection | executor/src/main/java/com/jaoow/sql/executor/SQLExecutor.java:96-102 | The transaction's connector hands the block the holder's connection and does nothing around it: no checkout, no release. |
| Adapters.ResultSetAdapter | executor/src/main/java/com/jaoow/sql/executor/adapter/ResultSetAdapter.java:8-17 | Defines the adapter registered for `SimpleResultSet`: a row adapts to the row itself, and binding a value sets nothing on the statement. |
| Adapters.FirstAdapted | executor/src/main/java/com/jaoow/sql/executor/SQLExecutor.java:344 | Defines the function `query(sql, consumer, clazz)` hands to `query`: no rows gives an empty result without looking up the adapter; otherwise the adapter lookup, and its failure, then the adaptation of the first row. |
| Adapters.AdaptDistinct | executor/src/main/java/com/jaoow/sql/executor/SQLExecutor.java:506-511 | Defines the `LinkedHashSet` the `queryMany` loop fills: each row's non-null adaptation, added only when not already present, in row order. |
| Adapters.Lookup | executor/src/main/java/com/jaoow/sql/executor/SQLExecutor.java:114-121 | `getAdapter(c)` succeeds iff `c` is registered and then returns its adapter. Otherwise it fails with an illegal-argument error naming the class's simple name. |
| Adapters.LookupAfterRegister | executor/src/main/java/com/jaoow/sql/executor/SQLExecutor.java:132-135 | After registering `a` for `c`, looking up `c` gives `a`, and every other class looks up as before. |
| Adapters.AdaptDistinctMembers | executor/src/main/java/com/jaoow/sql/executor/SQLExecutor.java:506-511 | A value is in the `queryMany` set iff some row adapts to it. Null adaptations are skipped. |
| Adapters.AdaptDistinctNoDuplicates | executor/src/main/java/com/jaoow/sql/executor/SQLExecutor.java:506-511 | No value appears twice in the `queryMany` set. |
| Adapters.AdaptDistinctFirstOccurrence | executor/src/main/java/com/jaoow/sql/executor/SQLExecutor.java:506-511 | Insertion order: of two kept values, the earlier one comes from a row before any row producing the later one. |
| Adapters.Bindings | executor/src/main/java/com/jaoow/sql/executor/dao/Dao.java:107-109 | `saveAll` makes exactly one statement callback per value. |
| Adapters.BindingsInOrder | executor/src/main/java/com/jaoow/sql/executor/dao/Dao.java:107-109 | Callback `i` is the adapter's binding of value `i`, in iteration order. |
| Statements.ExecuteRun | executor/src/main/java/com/jaoow/sql/executor/SQLExecutor.java:194-204 | Defines `execute(sql, keys, prepare, result)`: a failed connector lookup fails with no call; otherwise one session around the statement block, failing iff the driver refuses the statement. |
| Statements.StatementEventsShape | executor/src/main/java/com/jaoow/sql/executor/SQLExecutor.java:197-201 | The block of `execute` stays on its connection. It prepares exactly the given statement once and executes it once. |
| Statements.ExecuteOneStatement | executor/src/main/java/com/jaoow/sql/executor/SQLExecutor.java:194-204 | One `execute` prepares one statement with the given keys flag and executes it once, all on one connection, which is released if pooled. It fails iff the driver refuses the statement. |
| Statements.ExecuteCallOrder | executor/src/main/java/com/jaoow/sql/executor/SQLExecutor.java:194-204 | Call order: prepare, the prepare callback, execute, the result callback (only if execute succeeded), close. A pooled checkout comes before them and its release after. |
| Statements.ExecuteOnBorrowed | executor/src/main/java/com/jaoow/sql/executor/SQLExecutor.java:194-204 | Inside a transaction, `execute` makes exactly the statement calls, on the transaction's connection, and checks nothing out. |
| Statements.BatchSteps | executor/src/main/java/com/jaoow/sql/executor/SQLExecutor.java:620-623 | The handler loop makes two calls per handler. |
| Statements.BatchStepsInOrder | executor/src/main/java/com/jaoow/sql/executor/SQLExecutor.java:620-623 | Handler `j` runs at loop position `2j`, followed by `addBatch`: list order, each handler once. |
| Statements.BatchStepsOnlyApplyAndAdd | executor/src/main/java/com/jaoow/sql/executor/SQLExecutor.java:620-623 | The handler loop only applies handlers and adds batches, on its connection. |
| Statements.BatchRun | executor/src/main/java/com/jaoow/sql/executor/SQLExecutor.java:611-629 | Defines `executeBatch(builder, keys, result)`: nothing for no handlers, `execute` for one, and for more one session around the prepare, each handler with its `addBatch`, `executeBatch`, the result callback unless refused, and the close. |
| Statements.EmptyBatchIsNoOp | executor/src/main/java/com/jaoow/sql/executor/SQLExecutor.java:612 | No handlers: no call at all, no checkout, success, even when the connector lookup would fail. |
| Statements.SingletonBatchIsExecute | executor/src/main/java/com/jaoow/sql/executor/SQLExecutor.java:613-616 | One handler: exactly `execute(statement, keys, handler, result)`. |
| Statements.BatchBlockPositions | executor/src/main/java/com/jaoow/sql/executor/SQLExecutor.java:619-626 | In the batch block the prepare comes first, then each handler with its `addBatch` in list order, then `executeBatch`. |
| Statements.BatchBlockCounts | executor/src/main/java/com/jaoow/sql/executor/SQLExecutor.java:619-627 | The batch block prepares one statement, runs one `executeBatch` and no plain `execute`, all on its connection. |
| Statements.BatchOneRoundTrip | executor/src/main/java/com/jaoow/sql/executor/SQLExecutor.java:611-629 | With two or more handlers, the positions of the prepare, the handlers, the `addBatch` calls and the single `executeBatch` are fixed. There is no plain `execute`, and the connection is released. It fails iff the driver refuses the statement. |
| Statements.BatchSessionCounts | executor/src/main/java/com/jaoow/sql/executor/SQLExecutor.java:618-628 | One prepared statement and one `executeBatch` per multi-handler batch, on one released connection. |
| Statements.BatchFinishes | executor/src/main/java/com/jaoow/sql/executor/SQLExecutor.java:619-628 | With two or more handlers, right after the `executeBatch`: the result callback and then the close when the driver accepted the batch; the close alone when it refused it. The pool's connection is released last. |
| Statements.BatchOnBorrowed | executor/src/main/java/com/jaoow/sql/executor/SQLExecutor.java:611-629 | Inside a transaction, a batch of any size stays on the transaction's connection and checks nothing out. |
| Statements.BatchSession | executor/src/main/java/com/jaoow/sql/executor/SQLExecutor.java:618-628 | A batch of two or more handlers is one connector session around the batch block. |
| Statements.QueryRun | executor/src/main/java/com/jaoow/sql/executor/SQLExecutor.java:287-302 | Defines `query(sql, consumer, function)`: one session around prepare, the consumer, `executeQuery` and close, ending with the function's answer or the driver's refusal. |
| Statements.QueryOneRun | executor/src/main/java/com/jaoow/sql/executor/SQLExecutor.java:340-345 | Defines `query(sql, consumer, clazz)`: `query` with `FirstAdapted` as the function. |
| Statements.QueryWithoutRowsSkipsAdapter | executor/src/main/java/com/jaoow/sql/executor/SQLExecutor.java:340-345 | No rows: empty result, and the adapter lookup is never consulted, so a missing adapter does not fail. The query still ran once and the connection was released. |
| Statements.QueryAdaptsFirstRow | executor/src/main/java/com/jaoow/sql/executor/SQLExecutor.java:340-345 | With rows, only the first row is adapted. A missing adapter fails the query, unwrapped, after the statement ran. |
| Statements.QueryManyRun | executor/src/main/java/com/jaoow/sql/executor/SQLExecutor.java:499-516 | Defines `queryMany(sql, consumer, clazz)`: the adapter lookup first, then the connector lookup, then one query session whose answer is `AdaptDistinct` of the rows. |
| Statements.QueryManyChecksAdapterFirst | executor/src/main/java/com/jaoow/sql/executor/SQLExecutor.java:499-504 | A missing adapter fails `queryMany` with no call on any connection, whatever the connector lookup would give. |
| Statements.QueryManyCollects | executor/src/main/java/com/jaoow/sql/executor/SQLExecutor.java:499-516 | With an adapter and an accepted query, the result is the de-duplicated, ordered adaptation of the rows, on one released connection. |
| Statements.QueryManySession | executor/src/main/java/com/jaoow/sql/executor/SQLExecutor.java:499-516 | Once adapter and connector are found, `queryMany` is one query session, whose outcome is that collection or the surfaced `SQLException`. |
| Transactions.StepRun | executor/src/main/java/com/jaoow/sql/executor/SQLExecutor.java:87-103 | Defines one body step on the transaction's connector: `execute` and `executeBatch` as outside, on the borrowed connection; `executeAsync` as `execute` whose failure does not reach the body; a throw with no call. |
| Transactions.BodyRun | executor/src/main/java/com/jaoow/sql/executor/SQLExecutor.java:707-712 | Defines `runnable.run()`: the steps in order, up to and including the first that fails. |
| Transactions.TransactionRun | executor/src/main/java/com/jaoow/sql/executor/SQLExecutor.java:699-718 | Defines `withTransaction(body)` on the pool's next connection: `Transaction` around `BodyRun` on that connection. |
| Transactions.Transaction | executor/src/main/java/com/jaoow/sql/executor/SQLExecutor.java:701-716 | Defines the transaction around a body run: checkout, auto-commit off, the body's calls, commit or rollback, release; a failure is rethrown inside a `RuntimeException`. |
| Transactions.StepStaysOnConnection | executor/src/main/java/com/jaoow/sql/executor/SQLExecutor.java:87-103 | Each body step of the model (`execute`, `executeAsync`, `executeBatch` or a throw) uses only the transaction's connection and checks nothing out. |
| Transactions.BodyStaysOnConnection | executor/src/main/java/com/jaoow/sql/executor/SQLExecutor.java:707-712 | The whole body runs on the transaction's connection, makes no connection-level call and checks nothing out. |
| Transactions.BodyChecksNothingOut | executor/src/main/java/com/jaoow/sql/executor/SQLExecutor.java:704-712 | No call of the body checks out a connection: the transaction's checkout is its only one. |
| Transactions.BodyFailsAtFirstThrow | executor/src/main/java/com/jaoow/sql/executor/SQLExecutor.java:707-712 | A throw in the body, after only `executeAsync` calls, fails the body with that throw. A failing `executeAsync` never fails the body. |
| Transactions.StepOutcome | executor/src/main/java/com/jaoow/sql/executor/SQLExecutor.java:96-102 | How a body step ends: a throw fails with its exception, `executeAsync` always succeeds, `execute` fails iff the driver refuses the statement, a batch iff it has handlers and is refused; the refusal surfaces as a `ConnectorException` around the `SQLException`. |
| Transactions.BodyFailsAtFirstFailure | executor/src/main/java/com/jaoow/sql/executor/SQLExecutor.java:707-712 | When the steps before step `i` succeed and step `i` fails, the body fails with exactly step `i`'s failure, whatever that step is. |
| Transactions.BodySucceedsIffEveryStep | executor/src/main/java/com/jaoow/sql/executor/SQLExecutor.java:707-712 | The body succeeds iff every one of its steps succeeds. |
| Transactions.TransactionShape | executor/src/main/java/com/jaoow/sql/executor/SQLExecutor.java:699-718 | A transaction is: checkout, auto-commit off, the body, commit or rollback, release. It checks out one connection plus what the body checks out. |
| Transactions.TransactionCommitsOrRollsBack | executor/src/main/java/com/jaoow/sql/executor/SQLExecutor.java:699-718 | After a successful body: exactly one commit and no rollback. After a throw: exactly one rollback, no commit, and the error rethrown inside a `RuntimeException`. The connection comes from the pool, is the only checkout, carries every call and is released last. |
| Executor.AdapterRegistry.Put | executor/src/main/java/com/jaoow/sql/executor/SQLExecutor.java:133 | The last registration of a class wins; other entries are unchanged. |
| Executor.Collect | executor/src/main/java/com/jaoow/sql/executor/SQLExecutor.java:506-511 | The `while (result.next())` loop builds exactly the de-duplicated, ordered adaptation of the rows. |
| Executor.SQLExecutor.constructor | executor/src/main/java/com/jaoow/sql/executor/SQLExecutor.java:43-46 | A new executor has an empty, writable adapter map of its own and the common pool. |
| Executor.SQLExecutor.Shared | executor/src/main/java/com/jaoow/sql/executor/SQLExecutor.java:26-36 | The two constructors Lombok generates, `(connector, adapters)` and `(connector, adapters, executor)`, as `build()` calls them: the executor shares the given map, seen read-only, and uses the given task executor (`build()` passes the common pool when none was set). |
| Executor.SQLExecutor.SetExecutor | executor/src/main/java/com/jaoow/sql/executor/SQLExecutor.java:53-55 | The default task executor becomes `e`. |
| Executor.SQLExecutor.RegisterAdapter | executor/src/main/java/com/jaoow/sql/executor/SQLExecutor.java:132-135 | A writable map gets the entry and the executor itself is returned. A read-only map is left unchanged and the call fails with an unsupported-operation error. |
| Executor.SQLExecutor.Open | connector/src/main/java/com/jaoow/sql/connector/type/impl/MySQLDatabaseType.java:85-87 | The start of `connector.execute(block)`: the pool checks out its next connection, and the transaction's connector hands over the holder's connection with no call. |
| Executor.SQLExecutor.Close | connector/src/main/java/com/jaoow/sql/connector/type/impl/MySQLDatabaseType.java:85-91 | The end of `connector.execute(block)` on every path: the pool's connection is released, and the transaction's connector does nothing. |
| Executor.SQLExecutor.Execute | executor/src/main/java/com/jaoow/sql/executor/SQLExecutor.java:194-204 | The driver calls, checkouts and outcome are those of `ExecuteRun` on the thread's current connector. |
| Executor.SQLExecutor.RunStatement | executor/src/main/java/com/jaoow/sql/executor/SQLExecutor.java:198-202 | The statement block on a connection the method already holds appends exactly the calls of `StatementEvents`: prepare, the prepare callback, execute, the result callback unless execute threw, close. It fails iff the driver refuses the statement, and checks nothing out. |
| Executor.SQLExecutor.ExecuteSql | executor/src/main/java/com/jaoow/sql/executor/SQLExecutor.java:143-156 | `execute(sql)` is the 4-argument `execute` with no generated keys and empty callbacks. |
| Executor.SQLExecutor.ExecuteAsync | executor/src/main/java/com/jaoow/sql/executor/SQLExecutor.java:227-229 | A null task executor in the holder fails before any call. Otherwise `execute` runs on the thread the current task executor picks: the caller itself inside a transaction. |
| Executor.SQLExecutor.Query | executor/src/main/java/com/jaoow/sql/executor/SQLExecutor.java:287-302 | The calls and outcome are those of `QueryRun`: one prepared query, the function's answer, the statement closed, the connection released. |
| Executor.SQLExecutor.RunQuery | executor/src/main/java/com/jaoow/sql/executor/SQLExecutor.java:295-300 | The query block appends exactly the calls of `QueryEvents`: prepare without generated keys, the consumer, `executeQuery`, close. It checks nothing out. |
| Executor.SQLExecutor.QueryClass | executor/src/main/java/com/jaoow/sql/executor/SQLExecutor.java:340-345 | `query(sql, consumer, clazz)` is `query` with the first-row adapter function. |
| Executor.SQLExecutor.QueryMany | executor/src/main/java/com/jaoow/sql/executor/SQLExecutor.java:499-516 | The adapter is looked up before the connector, then the query runs. The calls and outcome are those of `QueryManyRun`. |
| Executor.SQLExecutor.QueryManyOn | executor/src/main/java/com/jaoow/sql/executor/SQLExecutor.java:504-515 | The query session of `queryMany` on a found connector and adapter. |
| Executor.SQLExecutor.Batch | executor/src/main/java/com/jaoow/sql/executor/SQLExecutor.java:553-555 | `batch(s)` returns a new builder for `s`, bound to this executor, with no handlers. |
| Executor.SQLExecutor.RunBatch | executor/src/main/java/com/jaoow/sql/executor/SQLExecutor.java:611-629 | `executeBatch`, split on the handler count: 0 does nothing, 1 is `execute`, 2 or more is the batch block. The calls and outcome are those of `BatchRun`. |
| Executor.SQLExecutor.BatchOn | executor/src/main/java/com/jaoow/sql/executor/SQLExecutor.java:618-628 | The batch block of two or more handlers on a found connector. |
| Executor.SQLExecutor.AddHandlers | executor/src/main/java/com/jaoow/sql/executor/SQLExecutor.java:620-623 | The `for` loop applies each handler and then `addBatch`, in list order. |
| Executor.SQLExecutor.ExecuteBatch | executor/src/main/java/com/jaoow/sql/executor/SQLExecutor.java:611-629 | `executeBatch(builder, keys, result)` runs the builder's current statement and handlers. |
| Executor.SQLExecutor.RunStep | executor/src/main/java/com/jaoow/sql/executor/SQLExecutor.java:66-103 | With the transaction's holder in the slot, each body step (`execute`, `executeAsync`, `executeBatch` or a throw) behaves as `StepRun` on the transaction's connection. |
| Executor.SQLExecutor.RunAsyncStep | executor/src/main/java/com/jaoow/sql/executor/SQLExecutor.java:227-229 | Inside a transaction `executeAsync` runs inline on the caller with the holder's same-thread executor. It makes the calls of one `execute` on the transaction's connection, and the body carries on whatever that `execute` did. |
| Executor.SQLExecutor.RunBody | executor/src/main/java/com/jaoow/sql/executor/SQLExecutor.java:707-712 | The body runs step by step and stops at the first throw, as `BodyRun`. |
| Executor.SQLExecutor.RunAndFinish | executor/src/main/java/com/jaoow/sql/executor/SQLExecutor.java:707-714 | The body, then `commit` after success or `rollback` after a throw. The throw comes back wrapped in a `RuntimeException`, and nothing is checked out. |
| Executor.SQLExecutor.HoldAndRun | executor/src/main/java/com/jaoow/sql/executor/SQLExecutor.java:704-716 | The holder is installed for the running thread, the body runs and ends as in `RunAndFinish`, and the holder is removed: that thread's slot is empty afterwards and every other slot is as before. |
| Executor.SQLExecutor.WithTransaction | executor/src/main/java/com/jaoow/sql/executor/SQLExecutor.java:699-718 | The calls, checkouts and outcome are those of `TransactionRun` on the thread the default task executor picks. Afterwards that thread's slot is empty and every other slot is unchanged. |
| Executor.BatchBuilder.constructor | executor/src/main/java/com/jaoow/sql/executor/batch/BatchBuilder.java:38-45 | A new builder holds the given statement and executor and an empty handler list. |
| Executor.BatchBuilder.GetStatement | executor/src/main/java/com/jaoow/sql/executor/batch/BatchBuilder.java:53-55 | `getStatement()` is the statement the builder was made for, which nothing changes. |
| Executor.BatchBuilder.GetHandlers | executor/src/main/java/com/jaoow/sql/executor/batch/BatchBuilder.java:63-65 | `getHandlers()` is the builder's current handler list, in the order the handlers were added. |
| Executor.BatchBuilder.Batch | executor/src/main/java/com/jaoow/sql/executor/batch/BatchBuilder.java:84-87 | `batch(h)` appends `h` last, keeps the earlier handlers in order, and returns the builder itself. |
| Executor.BatchBuilder.Reset | executor/src/main/java/com/jaoow/sql/executor/batch/BatchBuilder.java:73-76 | `reset()` leaves no handlers whatever there were (idempotent) and returns the builder itself. |
| Executor.BatchBuilder.Execute | executor/src/main/java/com/jaoow/sql/executor/batch/BatchBuilder.java:92-94 | `execute()` is `executeBatch(this)` with no generated keys and an empty result callback. It leaves the handlers in place, so a second call replays them. |
| Executor.BatchBuilder.ExecuteAsync | executor/src/main/java/com/jaoow/sql/executor/batch/BatchBuilder.java:104-106 | `executeAsync()` runs the same batch on a common-pool worker, ignoring any transaction of the caller. The handlers stay. |
| Builder.SQLExecutorBuilder.constructor | executor/src/main/java/com/jaoow/sql/executor/SQLExecutorBuilder.java:20-23 | A new builder's map has exactly one entry: `SimpleResultSet` with the identity adapter. No task executor is set yet. |
| Builder.SQLExecutorBuilder.SetExecutor | executor/src/main/java/com/jaoow/sql/executor/SQLExecutorBuilder.java:25-28 | Stores the task executor and returns the builder itself. |
| Builder.SQLExecutorBuilder.RegisterAdapter | executor/src/main/java/com/jaoow/sql/executor/SQLExecutorBuilder.java:30-33 | The last registration of a class wins, other classes are unchanged, and the builder itself is returned. |
| Builder.SQLExecutorBuilder.Build | executor/src/main/java/com/jaoow/sql/executor/SQLExecutorBuilder.java:35-41 | A new executor over the builder's own map, read-only (so registering on it fails). It uses the task executor that was set, or the common pool. |
| Daos.TableReadBack | executor/src/main/java/com/jaoow/sql/executor/dao/Dao.java:37-78 | Each of the five statements is a fixed prefix, the table name and a fixed suffix, of known lengths, so the table name can be read back from it. |
| Daos.DistinctTablesDistinctStatements | executor/src/main/java/com/jaoow/sql/executor/dao/Dao.java:37-78 | DAOs on different tables never issue the same statement. |
| Daos.SaveOneIsOneExecute | executor/src/main/java/com/jaoow/sql/executor/dao/Dao.java:89-91 | `saveOne(v)` on an empty batch takes the single-handler path: one plain `execute` of the replace statement with `v`'s binding. |
| Daos.Dao.constructor | executor/src/main/java/com/jaoow/sql/executor/dao/Dao.java:32-38 | The DAO's batch is new, has no handlers, belongs to the DAO's executor and holds exactly `REPLACE INTO <table> VALUES(?, ?)`. |
| Daos.Dao.CreateTable | executor/src/main/java/com/jaoow/sql/executor/dao/Dao.java:44-46 | Exactly one `execute` of the create-table text for the DAO's table. |
| Daos.Dao.SelectAll | executor/src/main/java/com/jaoow/sql/executor/dao/Dao.java:54-56 | `queryMany` of `SELECT * FROM <table>` through the DAO's class. |
| Daos.Dao.SelectOne | executor/src/main/java/com/jaoow/sql/executor/dao/Dao.java:64-68 | `query` of the select-by-id text, binding the key's `toString()` at index 1, through the DAO's class. The key adapter is not used. |
| Daos.Dao.DeleteOne | executor/src/main/java/com/jaoow/sql/executor/dao/Dao.java:76-81 | `executeAsync` of the delete-by-id text, binding the key's `toString()` at index 1. |
| Daos.Dao.SaveAll | executor/src/main/java/com/jaoow/sql/executor/dao/Dao.java:99-112 | A missing adapter fails before the batch or the driver is touched. Otherwise there is one binding per value, appended in order, and the batch runs on a pool worker. The batch is emptied iff that run succeeded. |
| Daos.Dao.BindAll | executor/src/main/java/com/jaoow/sql/executor/dao/Dao.java:107-109 | The batch gains exactly one handler per value, in the values' order, after the handlers it already had. |
| Daos.Dao.SaveWith | executor/src/main/java/com/jaoow/sql/executor/dao/Dao.java:107-111 | Once the adapter is found: bind every value, run the batch on a pool worker, and empty the batch iff that run succeeded. |
| Daos.Dao.SaveOne | executor/src/main/java/com/jaoow/sql/executor/dao/Dao.java:89-91 | `saveAll` of the one value: one more handler after the ones already in the batch. |

## Left out

- Asynchrony itself is not modelled. `CompletableFuture`, `ForkJoinPool` scheduling and the
  `CompletionException` wrapping of a failed future are all out. An `*Async` call is its
  synchronous operation on the thread `RunsOn` picks, and its result is how the future
  completes.
- The `*Async` variants of `query`, `queryMany`, `executeBatch` and `execute` other than
  `executeAsync(sql, consumer)`, `BatchBuilder.executeAsync` and `Dao.deleteOne`'s call are
  not modelled. They differ from their synchronous operation only in the thread, as above.
- The other overloads of `execute`, `query` and `executeBatch` are not modelled. These are
  the ones that take a `ResultSetConsumer` for generated keys, or that differ only in
  defaulted arguments. The 4-argument `execute` and the 3-argument `executeBatch` cover them:
  their `keys` and `result` parameters range over every value the overloads pass.
- The raw-`ResultSet` queries (`SQLExecutor.java:354-375`) hand out a cursor the driver has
  already closed. That is driver behaviour.
- The connectors are abstract. Connection pooling, HikariCP configuration, SQLite files and
  the JDBC wrappers `SimpleStatement` and `SimpleResultSet` are out. A pooled connector is
  "check out, run the block, release". The driver's answer (which statements it refuses, and
  the rows a query yields) is a parameter.
- Failures of `setAutoCommit`, `commit`, `rollback`, `close` and of callbacks or adapters
  outside a transaction body are not modelled. Only the driver's refusal of a statement and
  the throws of a transaction body are.
- A `withTransaction` nested inside a transaction body is not a body step of the model. The
  slot part of `Executor.SQLExecutor.WithTransaction` shows what it would do: `remove()`
  clears the thread's slot even when an outer holder was there before.
- A refusal at prepare time is not modelled. `prepareStatement` can itself throw an
  `SQLException` (a driver that compiles the statement when preparing it). Java then runs
  neither the prepare callback nor the batch handlers and closes no statement; the connection
  is still released and the failure surfaces wrapped the same way. In the model the driver
  refuses only when the statement is executed, so `Statements.ExecuteCallOrder`,
  `Statements.BatchBlockPositions` and the query block always show the prepare callback and
  the close.
- `query` and `queryMany` calls made from inside a transaction body are not body steps
  (`Transactions.Step` has `execute`, `executeAsync`, `executeBatch` and throws only). Such a
  call would find the holder through `getCurrentConnection` as the other calls do
  (`Connectors.CurrentConnector`), but its events and outcome inside a body are not modelled.
- Adapters.ResultSetAdapter: each adapted row is a snapshot value (`RowValue(row)`). Java
  returns the same live `SimpleResultSet` record, so later cursor moves show through the
  returned object; that aliasing is not modelled.
- `getHandlers` is modelled as the handler list as a value (`Executor.BatchBuilder.GetHandlers`). Java returns the
  live `LinkedList`, and mutations through that reference are not modelled.
- `saveAll` takes the values as a sequence. A Java `Set`'s iteration order is the
  order of that sequence. Concurrent `saveAll` calls sharing the one batch are not modelled.
- In `saveAll`, the `adapter == null` check at `Dao.java:103-105` is dead code.
  `getAdapter` throws first, so the `SQLAdapterNotFoundException` it would raise never
  surfaces. The model has only the `getAdapter` failure.
- `ThreadLocalTransaction.set(null)` is not modelled; only `withTransaction` calls `set`, and
  it always passes a holder.
- The Java signatures that do not line up across files (`SQLConnector` taking a plain
  `Consumer`, `SQLResultAdapter.adaptResult` taking a `SimpleResultSet`, `adaptStatement` not
  being declared) are modelled by what the calls evidently mean. A block may throw an
  `SQLException`. An adapter turns a row into a value and a value into a statement callback.
