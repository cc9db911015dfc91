/** The executor façade and the batch accumulator, as objects over the driver `Database`:
    each operation appends to the driver's trace exactly the calls its specification
    function (in `Statements` and `Transactions`) prescribes. */
module Executor {
  import opened Wrappers
  import opened Jdbc
  import opened TransactionSlot
  import opened Connectors
  import opened Adapters
  import opened Statements
  import opened Transactions

  /** The `Map<Class<?>, SQLResultAdapter<?>>` behind an executor; shared with the builder
      that made it. */
  class AdapterRegistry {
    var entries: map<ClassRef, Adapter>

    constructor ()
      ensures entries == map[]
    {
      entries := map[];
    }

    /** `put`: the last registration of a class wins. */
    method Put(c: ClassRef, a: Adapter)
      modifies this
      ensures entries == old(entries)[c := a]
    {
      entries := entries[c := a];
    }
  }

  /** A trace that grew twice grew by both parts, in order. */
  lemma TraceGrows(base: seq<Event>, middle: seq<Event>, end: seq<Event>, first: seq<Event>, second: seq<Event>)
    requires middle == base + first && end == middle + second
    ensures end == base + (first + second)
  {
  }

  /** A trace that grew by the checkout and auto-commit off, then by the body and its commit
      or rollback, then by the release, grew by the transaction's run; a body that checked
      nothing out leaves the transaction's own checkout the only one; the outcome is the
      wrapped body outcome, surfaced by the pool. */
  lemma TransactionGrows(start: nat, b: Run<()>, base: seq<Event>, inside: seq<Event>, final: seq<Event>,
                         wrapped: Result<(), Error>, r: Result<(), Error>)
    requires b.checkouts == 0
    requires inside == base + [Acquire(Connection(start)), SetAutoCommit(Connection(start), false)]
    requires final == inside + (b.events + [Finish(Connection(start), b)]) + [Release(Connection(start))]
    requires wrapped == (if b.outcome.Success? then Success(()) else Failure(RuntimeException(b.outcome.error)))
    requires r == Surface(Pooled, wrapped)
    ensures var run := Transaction(start, b);
      final == base + run.events && r == run.outcome && run.checkouts == 1
  {
    var c := Connection(start);
    TransactionShape(start, b);
    assert final == base + ([Acquire(c), SetAutoCommit(c, false)] + b.events + [Finish(c, b), Release(c)]);
  }

  /** `TransactionGrows` for the body's own run, which checks nothing out. */
  lemma TransactionRunGrows(start: nat, body: seq<Step>, rejected: set<string>,
                            base: seq<Event>, inside: seq<Event>, final: seq<Event>,
                            wrapped: Result<(), Error>, r: Result<(), Error>)
    requires inside == base + [Acquire(Connection(start)), SetAutoCommit(Connection(start), false)]
    requires var b := BodyRun(Connection(start), start + 1, body, rejected);
      && final == inside + (b.events + [Finish(Connection(start), b)]) + [Release(Connection(start))]
      && wrapped == (if b.outcome.Success? then Success(()) else Failure(RuntimeException(b.outcome.error)))
    requires r == Surface(Pooled, wrapped)
    ensures var run := TransactionRun(start, body, rejected);
      final == base + run.events && r == run.outcome && run.checkouts == 1
  {
    var b := BodyRun(Connection(start), start + 1, body, rejected);
    BodyChecksNothingOut(Connection(start), start + 1, body, rejected);
    TransactionGrows(start, b, base, inside, final, wrapped, r);
  }

  /** A trace that grew by an opening, a block and a closing grew by the session's events. */
  lemma SessionTrace(base: seq<Event>, afterOpen: seq<Event>, ran: seq<Event>, afterClose: seq<Event>,
                     opening: seq<Event>, inner: seq<Event>, closing: seq<Event>)
    requires afterOpen == base + opening && ran == afterOpen + inner && afterClose == ran + closing
    ensures afterClose == base + (opening + inner + closing)
  {
  }

  /** The loop of `queryMany`: rows in order, null adaptations dropped, a value added only
      when the `LinkedHashSet` does not hold it yet. */
  method Collect(adapt: Row -> Option<Value>, rows: seq<Row>) returns (elements: seq<Value>)
    ensures elements == AdaptDistinct(adapt, rows)
  {
    elements := [];
    var i := 0;
    while i < |rows|
      invariant 0 <= i <= |rows|
      invariant elements == AdaptDistinct(adapt, rows[..i])
    {
      assert rows[..i + 1][..i] == rows[..i];
      var value := adapt(rows[i]);
      if value.Some? && value.value !in elements {
        elements := elements + [value.value];
      }
      i := i + 1;
    }
    assert rows[..i] == rows;
  }

  class SQLExecutor {
    /** The driver and the pool behind the executor's own connector. */
    const db: Database
    /** The static `ThreadLocalTransaction`, shared by every executor. */
    const transactions: ThreadLocalTransaction
    const registry: AdapterRegistry
    /** Set when the registry is seen through `Collections.unmodifiableMap`. */
    const readOnly: bool
    /** The default task executor of the `*Async` operations. */
    var executor: TaskExecutor

    /** `new SQLExecutor(connector)`: an adapter map of its own and the common pool. */
    constructor (db: Database, transactions: ThreadLocalTransaction)
      ensures this.db == db && this.transactions == transactions
      ensures fresh(registry) && registry.entries == map[] && !readOnly
      ensures executor == CommonPool
    {
      this.db := db;
      this.transactions := transactions;
      registry := new AdapterRegistry();
      readOnly := false;
      executor := CommonPool;
    }

    /** The executor a builder makes: the builder's own adapter map, seen read-only. */
    constructor Shared(db: Database, transactions: ThreadLocalTransaction, registry: AdapterRegistry,
                       executor: TaskExecutor)
      ensures this.db == db && this.transactions == transactions
      ensures this.registry == registry && readOnly
      ensures this.executor == executor
    {
      this.db := db;
      this.transactions := transactions;
      this.registry := registry;
      readOnly := true;
      this.executor := executor;
    }

    method SetExecutor(e: TaskExecutor)
      modifies this
      ensures executor == e
    {
      executor := e;
    }

    /** `registerAdapter(c, a)`: the executor itself after the put, or the read-only map's
        refusal, which leaves the map as it was. */
    method RegisterAdapter(c: ClassRef, a: Adapter) returns (r: Result<SQLExecutor, Error>)
      modifies registry
      ensures !readOnly ==> r == Success(this) && registry.entries == old(registry.entries)[c := a]
      ensures readOnly ==> r == Failure(UnsupportedOperation) && registry.entries == old(registry.entries)
    {
      if readOnly {
        return Failure(UnsupportedOperation);
      }
      registry.Put(c, a);
      return Success(this);
    }

    /** The start of `connector.execute(block)`: the connection the block will receive. */
    method Open(k: Connector) returns (c: Connection)
      modifies db
      ensures c == ConnectionFor(k, old(db.next))
      ensures db.trace == old(db.trace) + Opening(k, old(db.next))
      ensures db.next == old(db.next) + (if k.Pooled? then 1 else 0)
    {
      if k.Pooled? {
        c := db.Checkout();
      } else {
        c := k.connection;
      }
    }

    /** The end of `connector.execute(block)`, on every path: the pool's connection goes back. */
    method Close(k: Connector, start: nat)
      modifies db
      ensures db.trace == old(db.trace) + Closing(k, start)
      ensures db.next == old(db.next)
    {
      if k.Pooled? {
        db.Record(Release(Connection(start)));
      }
    }

    /** `execute(sql, keys, prepare, result)` on thread `thread`. */
    method Execute(sql: string, keys: int, prepare: StatementConsumer, result: StatementConsumer,
                   thread: ThreadId) returns (r: Result<(), Error>)
      modifies db
      ensures var run := ExecuteRun(CurrentConnector(transactions.Get(thread)), old(db.next), sql, keys,
                                    prepare, result, sql in db.rejected);
        && db.trace == old(db.trace) + run.events
        && db.next == old(db.next) + run.checkouts
        && r == run.outcome
    {
      var current := CurrentConnector(transactions.Get(thread));
      if current.Failure? {
        return Failure(current.error);
      }
      var k := current.value;
      var start := db.next;
      ghost var base := db.trace;
      var c := Open(k);
      ghost var afterOpen := db.trace;
      ghost var refused := sql in db.rejected;
      var outcome := RunStatement(c, sql, keys, prepare, result);
      ghost var ran := db.trace;
      Close(k, start);
      r := Surface(k, outcome);
      SessionTrace(base, afterOpen, ran, db.trace, Opening(k, start),
                   StatementEvents(c, sql, keys, prepare, result, refused), Closing(k, start));
    }

    /** The block `execute` hands the connector: the statement on `c`, closed on every path. */
    method RunStatement(c: Connection, sql: string, keys: int, prepare: StatementConsumer,
                        result: StatementConsumer) returns (outcome: Result<(), Error>)
      modifies db
      ensures db.trace == old(db.trace) + StatementEvents(c, sql, keys, prepare, result, sql in db.rejected)
      ensures db.next == old(db.next)
      ensures outcome == Refusal(sql, sql in db.rejected)
    {
      db.Record(Prepare(c, sql, keys));
      db.Record(Apply(c, prepare));
      db.Record(Event.Execute(c));
      if sql in db.rejected {
        outcome := Failure(SQLException(sql));
      } else {
        db.Record(Apply(c, result));
        outcome := Success(());
      }
      db.Record(CloseStatement(c));
    }

    /** `execute(sql)`: no parameters, no generated keys, nothing done with the statement. */
    method ExecuteSql(sql: string, thread: ThreadId) returns (r: Result<(), Error>)
      modifies db
      ensures var run := ExecuteRun(CurrentConnector(transactions.Get(thread)), old(db.next), sql,
                                    NO_GENERATED_KEYS, NoOp, NoOp, sql in db.rejected);
        db.trace == old(db.trace) + run.events && db.next == old(db.next) + run.checkouts && r == run.outcome
    {
      r := Execute(sql, NO_GENERATED_KEYS, NoOp, NoOp, thread);
    }

    /** `executeAsync(sql, prepare)`: the task executor is picked on the calling thread (a null
        one in the holder fails right there); `execute(sql, prepare)` then runs on the thread
        that executor picks, which is the caller itself inside a transaction. The result is
        how the returned future completes. */
    method ExecuteAsync(sql: string, prepare: StatementConsumer, thread: ThreadId, worker: ThreadId)
      returns (r: Result<(), Error>)
      modifies db
      ensures var e := CurrentExecutor(transactions.Get(thread), executor);
        && (e.Failure? ==> r == Failure(e.error) && db.trace == old(db.trace) && db.next == old(db.next))
        && (e.Success? ==>
              var run := ExecuteRun(CurrentConnector(transactions.Get(RunsOn(e.value, thread, worker))),
                                    old(db.next), sql, NO_GENERATED_KEYS, prepare, NoOp, sql in db.rejected);
              db.trace == old(db.trace) + run.events && db.next == old(db.next) + run.checkouts && r == run.outcome)
    {
      var e := CurrentExecutor(transactions.Get(thread), executor);
      if e.Failure? {
        return Failure(e.error);
      }
      r := Execute(sql, NO_GENERATED_KEYS, prepare, NoOp, RunsOn(e.value, thread, worker));
    }

    /** `query(sql, consumer, function)`, where the driver yields `rows` and `f` is the function
        applied to the result set. */
    method Query<T>(sql: string, consumer: StatementConsumer, f: seq<Row> -> Result<Option<T>, Error>,
                    rows: seq<Row>, thread: ThreadId) returns (r: Result<Option<T>, Error>)
      modifies db
      ensures var run := QueryRun(CurrentConnector(transactions.Get(thread)), old(db.next), sql, consumer,
                                  sql in db.rejected, f(rows));
        db.trace == old(db.trace) + run.events && db.next == old(db.next) + run.checkouts && r == run.outcome
    {
      var current := CurrentConnector(transactions.Get(thread));
      if current.Failure? {
        return Failure(current.error);
      }
      var k := current.value;
      var start := db.next;
      ghost var base := db.trace;
      var c := Open(k);
      ghost var afterOpen := db.trace;
      RunQuery(c, sql, consumer);
      var outcome: Result<Option<T>, Error> := if sql in db.rejected then Failure(SQLException(sql)) else f(rows);
      ghost var ran := db.trace;
      Close(k, start);
      r := Surface(k, outcome);
      SessionTrace(base, afterOpen, ran, db.trace, Opening(k, start), QueryEvents(c, sql, consumer), Closing(k, start));
    }

    /** The statement calls of a query on `c`: prepared without generated keys, the consumer,
        `executeQuery`, and the close on every path. The rows are read in between. */
    method RunQuery(c: Connection, sql: string, consumer: StatementConsumer)
      modifies db
      ensures db.trace == old(db.trace) + QueryEvents(c, sql, consumer)
      ensures db.next == old(db.next)
    {
      db.Record(Prepare(c, sql, NO_GENERATED_KEYS));
      db.Record(Apply(c, consumer));
      db.Record(ExecuteQuery(c));
      db.Record(CloseStatement(c));
    }

    /** `query(sql, consumer, clazz)`: the first row, if any, through the class's adapter. */
    method QueryClass(sql: string, consumer: StatementConsumer, clazz: ClassRef, rows: seq<Row>,
                      thread: ThreadId) returns (r: Result<Option<Value>, Error>)
      modifies db
      ensures var run := QueryOneRun(CurrentConnector(transactions.Get(thread)), old(db.next), sql, consumer,
                                     Lookup(registry.entries, clazz), rows, sql in db.rejected);
        db.trace == old(db.trace) + run.events && db.next == old(db.next) + run.checkouts && r == run.outcome
    {
      var lookup := Lookup(registry.entries, clazz);
      r := Query(sql, consumer, (rs: seq<Row>) => FirstAdapted(lookup, rs), rows, thread);
    }

    /** `queryMany(sql, consumer, clazz)`: the adapter first, then the query whose function
        walks the rows into an insertion-ordered set. */
    method QueryMany(sql: string, consumer: StatementConsumer, clazz: ClassRef, rows: seq<Row>,
                     thread: ThreadId) returns (r: Result<seq<Value>, Error>)
      modifies db
      ensures var run := QueryManyRun(CurrentConnector(transactions.Get(thread)), old(db.next), sql, consumer,
                                      Lookup(registry.entries, clazz), rows, sql in db.rejected);
        db.trace == old(db.trace) + run.events && db.next == old(db.next) + run.checkouts && r == run.outcome
    {
      var lookup := Lookup(registry.entries, clazz);
      if lookup.Failure? {
        return Failure(lookup.error);
      }
      var current := CurrentConnector(transactions.Get(thread));
      if current.Failure? {
        return Failure(current.error);
      }
      r := QueryManyOn(current.value, sql, consumer, lookup.value, rows);
    }

    /** The query of `queryMany` on connector `k`, once the adapter `a` is found. */
    method QueryManyOn(k: Connector, sql: string, consumer: StatementConsumer, a: Adapter, rows: seq<Row>)
      returns (r: Result<seq<Value>, Error>)
      modifies db
      ensures var run := QueryManyRun(Success(k), old(db.next), sql, consumer, Success(a), rows, sql in db.rejected);
        db.trace == old(db.trace) + run.events && db.next == old(db.next) + run.checkouts && r == run.outcome
    {
      var start := db.next;
      ghost var base := db.trace;
      var c := Open(k);
      ghost var afterOpen := db.trace;
      RunQuery(c, sql, consumer);
      var outcome: Result<seq<Value>, Error>;
      if sql in db.rejected {
        outcome := Failure(SQLException(sql));
      } else {
        var elements := Collect(a.adaptResult, rows);
        outcome := Success(elements);
      }
      ghost var ran := db.trace;
      Close(k, start);
      r := Surface(k, outcome);
      QueryManySession(k, start, sql, consumer, a, rows, sql in db.rejected);
      SessionTrace(base, afterOpen, ran, db.trace, Opening(k, start), QueryEvents(c, sql, consumer), Closing(k, start));
    }

    /** `batch(statement)`: a new, empty accumulator bound to this executor. */
    method Batch(statement: string) returns (b: BatchBuilder)
      ensures fresh(b)
      ensures b.statement == statement && b.executor == this && b.handlers == []
    {
      b := new BatchBuilder(statement, this);
    }

    /** `executeBatch(builder, keys, result)` for a builder holding `statement` and `handlers`. */
    method RunBatch(statement: string, handlers: seq<StatementConsumer>, keys: int, result: StatementConsumer,
                    thread: ThreadId) returns (r: Result<(), Error>)
      modifies db
      ensures var run := BatchRun(CurrentConnector(transactions.Get(thread)), old(db.next), statement, keys,
                                  handlers, result, statement in db.rejected);
        db.trace == old(db.trace) + run.events && db.next == old(db.next) + run.checkouts && r == run.outcome
    {
      if |handlers| == 0 {
        return Success(());
      }
      if |handlers| == 1 {
        r := Execute(statement, keys, handlers[0], result, thread);
        return;
      }
      var current := CurrentConnector(transactions.Get(thread));
      if current.Failure? {
        return Failure(current.error);
      }
      r := BatchOn(current.value, statement, handlers, keys, result);
    }

    /** The batch block of two or more handlers on connector `k`. */
    method BatchOn(k: Connector, statement: string, handlers: seq<StatementConsumer>, keys: int,
                   result: StatementConsumer) returns (r: Result<(), Error>)
      requires |handlers| >= 2
      modifies db
      ensures var run := BatchRun(Success(k), old(db.next), statement, keys, handlers, result,
                                  statement in db.rejected);
        db.trace == old(db.trace) + run.events && db.next == old(db.next) + run.checkouts && r == run.outcome
    {
      var start := db.next;
      ghost var base := db.trace;
      var c := Open(k);
      ghost var afterOpen := db.trace;
      db.Record(Prepare(c, statement, keys));
      AddHandlers(c, handlers);
      ghost var looped := db.trace;
      db.Record(Event.ExecuteBatch(c));
      var outcome: Result<(), Error>;
      if statement in db.rejected {
        outcome := Failure(SQLException(statement));
      } else {
        db.Record(Apply(c, result));
        outcome := Success(());
      }
      db.Record(CloseStatement(c));
      ghost var refused := statement in db.rejected;
      assert db.trace == looped + BatchTail(c, result, refused);
      assert db.trace == afterOpen + BatchBlock(c, statement, keys, handlers, result, refused);
      ghost var ran := db.trace;
      Close(k, start);
      r := Surface(k, outcome);
      SessionTrace(base, afterOpen, ran, db.trace, Opening(k, start),
                   BatchBlock(c, statement, keys, handlers, result, refused), Closing(k, start));
      BatchSession(k, start, statement, keys, handlers, result, refused);
    }

    /** The loop of `executeBatch`: each handler against the statement, then `addBatch`. */
    method AddHandlers(c: Connection, handlers: seq<StatementConsumer>)
      modifies db
      ensures db.trace == old(db.trace) + BatchSteps(c, handlers)
      ensures db.next == old(db.next)
    {
      var i := 0;
      while i < |handlers|
        invariant 0 <= i <= |handlers|
        invariant db.trace == old(db.trace) + BatchSteps(c, handlers[..i])
        invariant db.next == old(db.next)
      {
        assert handlers[..i + 1][..i] == handlers[..i];
        db.Record(Apply(c, handlers[i]));
        db.Record(AddBatch(c));
        i := i + 1;
      }
      assert handlers[..i] == handlers;
    }

    /** `executeBatch(builder, keys, result)`: the builder's handlers, as they are now. */
    method ExecuteBatch(builder: BatchBuilder, keys: int, result: StatementConsumer, thread: ThreadId)
      returns (r: Result<(), Error>)
      modifies db
      ensures var run := BatchRun(CurrentConnector(transactions.Get(thread)), old(db.next), builder.statement,
                                  keys, builder.handlers, result, builder.statement in db.rejected);
        db.trace == old(db.trace) + run.events && db.next == old(db.next) + run.checkouts && r == run.outcome
    {
      r := RunBatch(builder.statement, builder.handlers, keys, result, thread);
    }

    /** One step of a transaction body, on the thread whose slot holds the transaction. */
    method RunStep(step: Step, thread: ThreadId, ghost c: Connection) returns (r: Result<(), Error>)
      requires transactions.Get(thread) == Some(TransactionHolder(c))
      modifies db
      ensures var run := StepRun(c, old(db.next), step, db.rejected);
        db.trace == old(db.trace) + run.events && db.next == old(db.next) && r == run.outcome
    {
      assert CurrentConnector(transactions.Get(thread)) == Success(Borrowed(c));
      match step {
        case ExecuteStep(sql, keys, prepare, result) =>
          r := Execute(sql, keys, prepare, result, thread);
        case AsyncExecuteStep(sql, prepare) =>
          r := RunAsyncStep(sql, prepare, thread, c);
        case BatchStep(sql, keys, handlers, result) =>
          r := RunBatch(sql, handlers, keys, result, thread);
        case ThrowStep(tag) =>
          r := Failure(Thrown(tag));
      }
    }

    /** `executeAsync` inside the transaction: the holder's same-thread executor runs it inline,
        on the transaction's connection; its failure stays in its own future. */
    method RunAsyncStep(sql: string, prepare: StatementConsumer, thread: ThreadId, ghost c: Connection)
      returns (r: Result<(), Error>)
      requires transactions.Get(thread) == Some(TransactionHolder(c))
      modifies db
      ensures var run := ExecuteRun(Success(Borrowed(c)), old(db.next), sql, NO_GENERATED_KEYS, prepare, NoOp,
                                    sql in db.rejected);
        db.trace == old(db.trace) + run.events && db.next == old(db.next) && r == Success(())
    {
      assert CurrentExecutor(transactions.Get(thread), executor) == Success(CurrentThread);
      assert CurrentConnector(transactions.Get(thread)) == Success(Borrowed(c));
      var ignored := ExecuteAsync(sql, prepare, thread, thread);
      r := Success(());
    }

    /** The transaction body, step by step through the façade, on the thread whose slot holds
        the transaction's holder; it stops at the first step that throws. */
    method RunBody(body: seq<Step>, thread: ThreadId, ghost c: Connection) returns (r: Result<(), Error>)
      requires transactions.Get(thread) == Some(TransactionHolder(c))
      modifies db
      ensures var run := BodyRun(c, old(db.next), body, db.rejected);
        db.trace == old(db.trace) + run.events && db.next == old(db.next) && r == run.outcome
      decreases |body|
    {
      if body == [] {
        return Success(());
      }
      ghost var next := db.next;
      ghost var before := db.trace;
      ghost var step := StepRun(c, next, body[0], db.rejected);
      r := RunStep(body[0], thread, c);
      if r.Failure? {
        BodyStops(c, next, body, db.rejected);
        return;
      }
      StepChecksNothingOut(c, next, body[0], db.rejected);
      BodyContinues(c, next, body, db.rejected);
      ghost var afterFirst := db.trace;
      r := RunBody(body[1..], thread, c);
      TraceGrows(before, afterFirst, db.trace, step.events, BodyRun(c, next, body[1..], db.rejected).events);
    }

    /** Inside the transaction: the body, then commit after success or rollback after a throw,
        which is rethrown wrapped in a `RuntimeException`. */
    method RunAndFinish(body: seq<Step>, thread: ThreadId, c: Connection) returns (wrapped: Result<(), Error>)
      requires transactions.Get(thread) == Some(TransactionHolder(c))
      modifies db
      ensures var b := BodyRun(c, old(db.next), body, db.rejected);
        && db.trace == old(db.trace) + (b.events + [Finish(c, b)])
        && db.next == old(db.next)
        && wrapped == (if b.outcome.Success? then Success(()) else Failure(RuntimeException(b.outcome.error)))
    {
      ghost var before := db.trace;
      var outcome := RunBody(body, thread, c);
      ghost var afterBody := db.trace;
      if outcome.Success? {
        db.Record(Commit(c));
        wrapped := Success(());
      } else {
        db.Record(Rollback(c));
        wrapped := Failure(RuntimeException(outcome.error));
      }
      TraceGrows(before, afterBody, db.trace, BodyRun(c, old(db.next), body, db.rejected).events,
                 [Finish(c, BodyRun(c, old(db.next), body, db.rejected))]);
    }

    /** The holder installed for thread `t` while the body runs, and removed afterwards. */
    method HoldAndRun(body: seq<Step>, t: ThreadId, c: Connection) returns (wrapped: Result<(), Error>)
      modifies db, transactions
      ensures var b := BodyRun(c, old(db.next), body, db.rejected);
        && db.trace == old(db.trace) + (b.events + [Finish(c, b)])
        && db.next == old(db.next)
        && wrapped == (if b.outcome.Success? then Success(()) else Failure(RuntimeException(b.outcome.error)))
        && transactions.slots == old(transactions.slots) - {t}
    {
      ghost var slots := transactions.slots;
      transactions.Set(t, TransactionHolder(c));
      wrapped := RunAndFinish(body, t, c);
      transactions.Remove(t);
      SetThenRemove(slots, t, TransactionHolder(c));
    }

    /** `withTransaction(body)`: submitted to the default task executor, which runs it on
        `RunsOn(executor, caller, worker)`; the result is how the returned future completes. */
    method WithTransaction(body: seq<Step>, caller: ThreadId, worker: ThreadId) returns (r: Result<(), Error>)
      modifies db, transactions
      ensures var t := RunsOn(executor, caller, worker);
        var run := TransactionRun(old(db.next), body, db.rejected);
        && db.trace == old(db.trace) + run.events
        && db.next == old(db.next) + run.checkouts
        && r == run.outcome
        && transactions.slots == old(transactions.slots) - {t}
    {
      var t := RunsOn(executor, caller, worker);
      ghost var base := db.trace;
      var start := db.next;
      var c := db.Checkout();
      db.Record(SetAutoCommit(c, false));
      ghost var inside := db.trace;
      var wrapped := HoldAndRun(body, t, c);
      db.Record(Release(c));
      r := Surface(Pooled, wrapped);
      TransactionRunGrows(start, body, db.rejected, base, inside, db.trace, wrapped, r);
    }
  }

  /** `BatchBuilder`: a fixed statement and the handlers collected for it, in order. */
  class BatchBuilder {
    const statement: string
    const executor: SQLExecutor
    var handlers: seq<StatementConsumer>

    constructor (statement: string, executor: SQLExecutor)
      ensures this.statement == statement && this.executor == executor && handlers == []
    {
      this.statement := statement;
      this.executor := executor;
      handlers := [];
    }

    /** `getStatement()`: the statement the builder was made for. */
    function GetStatement(): (r: string)
      ensures r == statement
    {
      statement
    }

    /** `getHandlers()`: the handlers added so far, in the order they were added. */
    function GetHandlers(): (r: seq<StatementConsumer>)
      reads this
      ensures r == handlers
    {
      handlers
    }

    /** `batch(h)`: `h` goes last; the builder itself is returned. */
    method Batch(h: StatementConsumer) returns (self: BatchBuilder)
      modifies this
      ensures handlers == old(handlers) + [h]
      ensures self == this
    {
      handlers := handlers + [h];
      self := this;
    }

    /** `reset()`: no handlers left, whatever there were; the builder itself is returned. */
    method Reset() returns (self: BatchBuilder)
      modifies this
      ensures handlers == []
      ensures self == this
    {
      handlers := [];
      self := this;
    }

    /** `execute()`: `executeBatch(this)` on the calling thread. The handlers stay, so a second
        call replays them. */
    method Execute(thread: ThreadId) returns (r: Result<(), Error>)
      modifies executor.db
      ensures handlers == old(handlers)
      ensures var run := BatchRun(CurrentConnector(executor.transactions.Get(thread)), old(executor.db.next),
                                  statement, NO_GENERATED_KEYS, handlers, NoOp, statement in executor.db.rejected);
        && executor.db.trace == old(executor.db.trace) + run.events
        && executor.db.next == old(executor.db.next) + run.checkouts
        && r == run.outcome
    {
      r := executor.ExecuteBatch(this, NO_GENERATED_KEYS, NoOp, thread);
    }

    /** `executeAsync()`: `executeBatchAsync(this)`, which submits to the common pool whatever
        the calling thread's transaction, so the batch runs on a pool worker. */
    method ExecuteAsync(worker: ThreadId) returns (r: Result<(), Error>)
      modifies executor.db
      ensures handlers == old(handlers)
      ensures var run := BatchRun(CurrentConnector(executor.transactions.Get(worker)),
                                  old(executor.db.next), statement, NO_GENERATED_KEYS, handlers, NoOp,
                                  statement in executor.db.rejected);
        && executor.db.trace == old(executor.db.trace) + run.events
        && executor.db.next == old(executor.db.next) + run.checkouts
        && r == run.outcome
    {
      assert RunsOn(CommonPool, worker, worker) == worker;
      r := executor.ExecuteBatch(this, NO_GENERATED_KEYS, NoOp, RunsOn(CommonPool, worker, worker));
    }
  }
}
