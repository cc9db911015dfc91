/** `Dao`: a key/value table whose statements are fixed texts around the table name, and a
    shared batch for saving values. */
module Daos {
  import opened Wrappers
  import opened Jdbc
  import opened TransactionSlot
  import opened Connectors
  import opened Adapters
  import opened Statements
  import opened Executor

  function ReplaceSql(table: string): string
  {
    "REPLACE INTO " + table + " VALUES(?, ?)"
  }

  function CreateTableSql(table: string): string
  {
    "CREATE TABLE IF NOT EXISTS " + table + "(id VARCHAR(128) NOT NULL PRIMARY KEY UNIQUE, data TEXT);"
  }

  function SelectAllSql(table: string): string
  {
    "SELECT * FROM " + table
  }

  function SelectOneSql(table: string): string
  {
    "SELECT * FROM " + table + " WHERE id = ?"
  }

  function DeleteSql(table: string): string
  {
    "DELETE FROM " + table + " WHERE id = ?"
  }

  /** The text between a fixed prefix and a fixed suffix. */
  function Between(s: string, prefix: nat, suffix: nat): string
    requires prefix + suffix <= |s|
  {
    s[prefix..|s| - suffix]
  }

  /** Each statement names its table between a fixed prefix and a fixed suffix, so the table
      can be read back from the text and two tables never share a statement. */
  lemma TableReadBack(table: string)
    ensures |ReplaceSql(table)| == 13 + |table| + 13 && Between(ReplaceSql(table), 13, 13) == table
    ensures |CreateTableSql(table)| == 27 + |table| + 57 && Between(CreateTableSql(table), 27, 57) == table
    ensures |SelectAllSql(table)| == 14 + |table| && Between(SelectAllSql(table), 14, 0) == table
    ensures |SelectOneSql(table)| == 14 + |table| + 13 && Between(SelectOneSql(table), 14, 13) == table
    ensures |DeleteSql(table)| == 12 + |table| + 13 && Between(DeleteSql(table), 12, 13) == table
  {
    assert |"REPLACE INTO "| == 13 && |" VALUES(?, ?)"| == 13;
    assert |"CREATE TABLE IF NOT EXISTS "| == 27;
    assert |"(id VARCHAR(128) NOT NULL PRIMARY KEY UNIQUE, data TEXT);"| == 57;
    assert |"SELECT * FROM "| == 14 && |" WHERE id = ?"| == 13 && |"DELETE FROM "| == 12;
  }

  /** Two DAOs on different tables never issue the same statement. */
  lemma DistinctTablesDistinctStatements(t1: string, t2: string)
    requires t1 != t2
    ensures ReplaceSql(t1) != ReplaceSql(t2) && CreateTableSql(t1) != CreateTableSql(t2)
    ensures SelectAllSql(t1) != SelectAllSql(t2) && SelectOneSql(t1) != SelectOneSql(t2)
    ensures DeleteSql(t1) != DeleteSql(t2)
  {
    TableReadBack(t1);
    TableReadBack(t2);
  }

  /** `saveOne(v)` on an empty batch binds one callback and so takes the single-handler path:
      exactly one plain `execute` of the replace statement. */
  lemma SaveOneIsOneExecute(current: Result<Connector, Error>, next: nat, table: string, a: Adapter,
                            v: Value, refused: bool)
    ensures BatchRun(current, next, ReplaceSql(table), NO_GENERATED_KEYS, [] + Bindings(a, [v]), NoOp, refused) ==
            ExecuteRun(current, next, ReplaceSql(table), NO_GENERATED_KEYS, a.adaptStatement(v), NoOp, refused)
  {
    assert [v][..0] == [];
    assert [] + Bindings(a, [v]) == [a.adaptStatement(v)];
  }

  class Dao<K> {
    const table: string
    const clazz: ClassRef
    /** Stored by the constructor and never used by any operation. */
    const keyAdapter: K -> string
    /** `key.toString()`, which is what the statements bind. */
    const keyText: K -> string
    const batch: BatchBuilder
    const executor: SQLExecutor

    ghost predicate Valid()
    {
      batch.executor == executor && batch.statement == ReplaceSql(table)
    }

    constructor (table: string, clazz: ClassRef, keyAdapter: K -> string, keyText: K -> string,
                 executor: SQLExecutor)
      ensures Valid()
      ensures this.table == table && this.clazz == clazz && this.executor == executor
      ensures this.keyAdapter == keyAdapter && this.keyText == keyText
      ensures fresh(batch) && batch.handlers == []
    {
      this.table := table;
      this.clazz := clazz;
      this.keyAdapter := keyAdapter;
      this.keyText := keyText;
      this.executor := executor;
      var b := executor.Batch(ReplaceSql(table));
      batch := b;
    }

    method CreateTable(thread: ThreadId) returns (r: Result<(), Error>)
      modifies executor.db
      ensures var sql := CreateTableSql(table);
        var run := ExecuteRun(CurrentConnector(executor.transactions.Get(thread)), old(executor.db.next), sql,
                              NO_GENERATED_KEYS, NoOp, NoOp, sql in executor.db.rejected);
        && executor.db.trace == old(executor.db.trace) + run.events
        && executor.db.next == old(executor.db.next) + run.checkouts
        && r == run.outcome
    {
      r := executor.ExecuteSql(CreateTableSql(table), thread);
    }

    /** `selectAll()`: `queryMany` of the whole table through the DAO's class. */
    method SelectAll(rows: seq<Row>, thread: ThreadId) returns (r: Result<seq<Value>, Error>)
      modifies executor.db
      ensures var sql := SelectAllSql(table);
        var run := QueryManyRun(CurrentConnector(executor.transactions.Get(thread)), old(executor.db.next), sql,
                                NoOp, Lookup(executor.registry.entries, clazz), rows, sql in executor.db.rejected);
        && executor.db.trace == old(executor.db.trace) + run.events
        && executor.db.next == old(executor.db.next) + run.checkouts
        && r == run.outcome
    {
      r := executor.QueryMany(SelectAllSql(table), NoOp, clazz, rows, thread);
    }

    /** `selectOne(key)`: the first row whose id is the key's text, through the DAO's class. */
    method SelectOne(key: K, rows: seq<Row>, thread: ThreadId) returns (r: Result<Option<Value>, Error>)
      modifies executor.db
      ensures var sql := SelectOneSql(table);
        var run := QueryOneRun(CurrentConnector(executor.transactions.Get(thread)), old(executor.db.next), sql,
                               SetParameter(1, keyText(key)), Lookup(executor.registry.entries, clazz), rows,
                               sql in executor.db.rejected);
        && executor.db.trace == old(executor.db.trace) + run.events
        && executor.db.next == old(executor.db.next) + run.checkouts
        && r == run.outcome
    {
      r := executor.QueryClass(SelectOneSql(table), SetParameter(1, keyText(key)), clazz, rows, thread);
    }

    /** `deleteOne(key)`: an `executeAsync` of the delete, bound to the key's text. */
    method DeleteOne(key: K, thread: ThreadId, worker: ThreadId) returns (r: Result<(), Error>)
      modifies executor.db
      ensures var sql := DeleteSql(table);
        var e := CurrentExecutor(executor.transactions.Get(thread), executor.executor);
        && (e.Failure? ==> r == Failure(e.error) && executor.db.trace == old(executor.db.trace)
                           && executor.db.next == old(executor.db.next))
        && (e.Success? ==>
              var run := ExecuteRun(CurrentConnector(executor.transactions.Get(RunsOn(e.value, thread, worker))),
                                    old(executor.db.next), sql, NO_GENERATED_KEYS, SetParameter(1, keyText(key)),
                                    NoOp, sql in executor.db.rejected);
              && executor.db.trace == old(executor.db.trace) + run.events
              && executor.db.next == old(executor.db.next) + run.checkouts
              && r == run.outcome)
    {
      r := executor.ExecuteAsync(DeleteSql(table), SetParameter(1, keyText(key)), thread, worker);
    }

    /** The loop of `saveAll`: one callback per value, in the values' order, appended to the
        shared batch. */
    method BindAll(adapter: Adapter, values: seq<Value>)
      modifies batch
      ensures batch.handlers == old(batch.handlers) + Bindings(adapter, values)
    {
      var i := 0;
      while i < |values|
        invariant 0 <= i <= |values|
        invariant batch.handlers == old(batch.handlers) + Bindings(adapter, values[..i])
      {
        assert values[..i + 1][..i] == values[..i];
        var self := batch.Batch(adapter.adaptStatement(values[i]));
        i := i + 1;
      }
      assert values[..i] == values;
    }

    /** `saveAll` once the adapter is found: bind, run on a pool worker, reset on success. */
    method SaveWith(adapter: Adapter, values: seq<Value>, worker: ThreadId) returns (r: Result<(), Error>)
      requires Valid()
      modifies batch, executor.db
      ensures var handlers := old(batch.handlers) + Bindings(adapter, values);
        var sql := ReplaceSql(table);
        var run := BatchRun(CurrentConnector(executor.transactions.Get(worker)), old(executor.db.next), sql,
                            NO_GENERATED_KEYS, handlers, NoOp, sql in executor.db.rejected);
        && executor.db.trace == old(executor.db.trace) + run.events
        && executor.db.next == old(executor.db.next) + run.checkouts
        && r == run.outcome
        && batch.handlers == (if r.Success? then [] else handlers)
    {
      BindAll(adapter, values);
      r := batch.ExecuteAsync(worker);
      if r.Success? {
        var self := batch.Reset();
      }
    }

    /** `saveAll(values)`: the adapter is looked up first (a missing one fails before the batch
        is touched); one callback per value is appended to the shared batch, which then runs
        on a pool worker; the batch is reset only when that run succeeds, so after a failure
        its callbacks stay and the next save replays them. */
    method SaveAll(values: seq<Value>, worker: ThreadId) returns (r: Result<(), Error>)
      requires Valid()
      modifies batch, executor.db
      ensures var lookup := Lookup(executor.registry.entries, clazz);
        && (lookup.Failure? ==>
              && r == Failure(lookup.error)
              && batch.handlers == old(batch.handlers)
              && executor.db.trace == old(executor.db.trace)
              && executor.db.next == old(executor.db.next))
        && (lookup.Success? ==>
              var handlers := old(batch.handlers) + Bindings(lookup.value, values);
              var sql := ReplaceSql(table);
              var run := BatchRun(CurrentConnector(executor.transactions.Get(worker)), old(executor.db.next), sql,
                                  NO_GENERATED_KEYS, handlers, NoOp, sql in executor.db.rejected);
              && executor.db.trace == old(executor.db.trace) + run.events
              && executor.db.next == old(executor.db.next) + run.checkouts
              && r == run.outcome
              && batch.handlers == (if r.Success? then [] else handlers))
    {
      var lookup := Lookup(executor.registry.entries, clazz);
      if lookup.Failure? {
        return Failure(lookup.error);
      }
      r := SaveWith(lookup.value, values, worker);
    }

    /** `saveOne(v)`: `saveAll` of the one-element set. */
    method SaveOne(value: Value, worker: ThreadId) returns (r: Result<(), Error>)
      requires Valid()
      modifies batch, executor.db
      ensures var lookup := Lookup(executor.registry.entries, clazz);
        && (lookup.Failure? ==>
              && r == Failure(lookup.error)
              && batch.handlers == old(batch.handlers)
              && executor.db.trace == old(executor.db.trace)
              && executor.db.next == old(executor.db.next))
        && (lookup.Success? ==>
              var handlers := old(batch.handlers) + [lookup.value.adaptStatement(value)];
              var sql := ReplaceSql(table);
              var run := BatchRun(CurrentConnector(executor.transactions.Get(worker)), old(executor.db.next), sql,
                                  NO_GENERATED_KEYS, handlers, NoOp, sql in executor.db.rejected);
              && executor.db.trace == old(executor.db.trace) + run.events
              && executor.db.next == old(executor.db.next) + run.checkouts
              && r == run.outcome
              && batch.handlers == (if r.Success? then [] else handlers))
    {
      assert [value][..0] == [];
      r := SaveAll([value], worker);
    }
  }
}
