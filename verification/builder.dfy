/** `SQLExecutorBuilder`: collects adapters and an optional task executor, then builds an
    executor that sees the collected adapters through a read-only view. */
module Builder {
  import opened Wrappers
  import opened Jdbc
  import opened TransactionSlot
  import opened Adapters
  import opened Executor

  class SQLExecutorBuilder {
    /** The driver and pool behind the connector the builder was given. */
    const db: Database
    const transactions: ThreadLocalTransaction
    const registry: AdapterRegistry
    /** Null until `setExecutor`. */
    var executor: Option<TaskExecutor>

    /** A new builder knows one adapter: `SimpleResultSet`, handed back as it is. */
    constructor (db: Database, transactions: ThreadLocalTransaction)
      ensures this.db == db && this.transactions == transactions
      ensures fresh(registry)
      ensures registry.entries == map[SimpleResultSetClass := ResultSetAdapter()]
      ensures executor == None
    {
      this.db := db;
      this.transactions := transactions;
      executor := None;
      registry := new AdapterRegistry();
      new;
      registry.Put(SimpleResultSetClass, ResultSetAdapter());
    }

    method SetExecutor(e: TaskExecutor) returns (self: SQLExecutorBuilder)
      modifies this
      ensures executor == Some(e)
      ensures self == this
    {
      executor := Some(e);
      self := this;
    }

    /** The last registration of a class wins; other classes keep their adapters. */
    method RegisterAdapter(c: ClassRef, a: Adapter) returns (self: SQLExecutorBuilder)
      modifies registry
      ensures registry.entries == old(registry.entries)[c := a]
      ensures self == this
    {
      registry.Put(c, a);
      self := this;
    }

    /** `build()`: the executor shares this builder's map, read-only, so a later registration
        on the builder is visible to it and one on the executor fails; its task executor is
        the one set here, or the common pool. */
    method Build() returns (e: SQLExecutor)
      ensures fresh(e)
      ensures e.db == db && e.transactions == transactions
      ensures e.registry == registry && e.readOnly
      ensures e.executor == (if executor.Some? then executor.value else CommonPool)
    {
      if executor.None? {
        e := new SQLExecutor.Shared(db, transactions, registry, CommonPool);
      } else {
        e := new SQLExecutor.Shared(db, transactions, registry, executor.value);
      }
    }
  }
}
