/** Connectors: "acquire a connection, run a block on it, release it", and the rule that picks
    the connector and the task executor for the calling thread. */
module Connectors {
  import opened Wrappers
  import opened Jdbc
  import opened TransactionSlot

  /** The executor's own pooled connector, or the connector `getCurrentConnection` builds
      inside a transaction, which hands every block the transaction's one connection. */
  datatype Connector = Pooled | Borrowed(connection: Connection)

  /** What one operation did: the driver calls, how it ended, and how many connections it
      checked out of the pool. */
  datatype Run<T> = Run(events: seq<Event>, outcome: Result<T, Error>, checkouts: nat)

  function NullConnectionMessage(): string
  {
    "There is a transaction to the current thread but its connection is null."
  }

  function NullExecutorMessage(): string
  {
    "There is a transaction to the current thread but its executor is null."
  }

  /** `getCurrentConnection`, given what the calling thread's slot holds. */
  function CurrentConnector(slot: Option<SQLTransactionHolder>): (r: Result<Connector, Error>)
    ensures slot.None? ==> r == Success(Pooled)
    ensures slot.Some? && slot.value.connection.Some? ==> r == Success(Borrowed(slot.value.connection.value))
    ensures slot.Some? && slot.value.connection.None? ==> r == Failure(NullPointer(NullConnectionMessage()))
  {
    match slot
    case None => Success(Pooled)
    case Some(h) =>
      match h.connection
      case None => Failure(NullPointer(NullConnectionMessage()))
      case Some(c) => Success(Borrowed(c))
  }

  /** `getCurrentExecutor`, given the slot and the executor's default task executor. */
  function CurrentExecutor(slot: Option<SQLTransactionHolder>, default: TaskExecutor): (r: Result<TaskExecutor, Error>)
    ensures slot.None? ==> r == Success(default)
    ensures slot.Some? && slot.value.executor.Some? ==> r == Success(slot.value.executor.value)
    ensures slot.Some? && slot.value.executor.None? ==> r == Failure(NullPointer(NullExecutorMessage()))
  {
    match slot
    case None => Success(default)
    case Some(h) =>
      match h.executor
      case None => Failure(NullPointer(NullExecutorMessage()))
      case Some(e) => Success(e)
  }

  /** The connection a block receives from `k` when the pool's next checkout is `next`. */
  function ConnectionFor(k: Connector, next: nat): Connection
  {
    match k
    case Pooled => Connection(next)
    case Borrowed(c) => c
  }

  function Opening(k: Connector, next: nat): seq<Event>
  {
    if k.Pooled? then [Acquire(Connection(next))] else []
  }

  function Closing(k: Connector, next: nat): seq<Event>
  {
    if k.Pooled? then [Release(Connection(next))] else []
  }

  /** How an exception escaping the block surfaces from the connector: the pool's connector
      wraps an `SQLException` in a `RuntimeException`, the transaction's connector in a
      `ConnectorException`; every other exception passes through. */
  function Surface<T>(k: Connector, outcome: Result<T, Error>): (r: Result<T, Error>)
    ensures outcome.Success? <==> r.Success?
    ensures outcome.Success? ==> r == outcome
    ensures outcome.Failure? && !outcome.error.SQLException? ==> r == outcome
    ensures outcome.Failure? && outcome.error.SQLException? ==>
              r == Failure(if k.Pooled? then RuntimeException(outcome.error) else ConnectorException(outcome.error))
  {
    match outcome
    case Failure(SQLException(sql)) =>
      if k.Pooled? then Failure(RuntimeException(SQLException(sql)))
      else Failure(ConnectorException(SQLException(sql)))
    case _ => outcome
  }

  /** `connector.execute(block)`, where the block made the calls `inner` and ended with `outcome`. */
  function Session<T>(k: Connector, next: nat, inner: seq<Event>, outcome: Result<T, Error>): Run<T>
  {
    Run(Opening(k, next) + inner + Closing(k, next), Surface(k, outcome), if k.Pooled? then 1 else 0)
  }

  /** Statement-level calls neither check out nor release connections. */
  lemma StatementLevelBalanced(es: seq<Event>)
    requires StatementLevel(es)
    ensures Balanced(es)
    ensures forall d: Connection :: multiset(es)[Acquire(d)] == 0 && multiset(es)[Release(d)] == 0
  {
    forall d: Connection
      ensures multiset(es)[Acquire(d)] == 0 && multiset(es)[Release(d)] == 0
    {
      assert Acquire(d) !in es && Release(d) !in es;
    }
  }

  /** The pooled connector checks out one fresh connection, gives it to the block, and
      releases it last, whether the block succeeded or threw. */
  lemma PooledSessionReleases<T>(next: nat, inner: seq<Event>, outcome: Result<T, Error>)
    requires StatementLevel(inner) && OnConnection(inner, Connection(next))
    ensures var s := Session(Pooled, next, inner, outcome);
      && s.checkouts == 1
      && s.events[0] == Acquire(Connection(next))
      && s.events[|s.events| - 1] == Release(Connection(next))
      && OnConnection(s.events, Connection(next))
      && Balanced(s.events)
  {
    var s := Session(Pooled, next, inner, outcome);
    var c := Connection(next);
    assert s.events == [Acquire(c)] + inner + [Release(c)];
    StatementLevelBalanced(inner);
  }

  /** The transaction's connector passes its one connection to the block and neither checks
      out nor releases anything. */
  lemma BorrowedSessionKeepsConnection<T>(c: Connection, next: nat, inner: seq<Event>, outcome: Result<T, Error>)
    requires StatementLevel(inner) && OnConnection(inner, c)
    ensures var s := Session(Borrowed(c), next, inner, outcome);
      && s.checkouts == 0
      && s.events == inner
      && OnConnection(s.events, c)
      && StatementLevel(s.events)
      && Balanced(s.events)
  {
    StatementLevelBalanced(inner);
  }

  /** Either connector: the session stays on the block's connection and releases whatever it
      checked out. */
  lemma SessionBalanced<T>(k: Connector, next: nat, inner: seq<Event>, outcome: Result<T, Error>)
    requires StatementLevel(inner) && OnConnection(inner, ConnectionFor(k, next))
    ensures OnConnection(Session(k, next, inner, outcome).events, ConnectionFor(k, next))
    ensures Balanced(Session(k, next, inner, outcome).events)
  {
    match k
    case Pooled => PooledSessionReleases(next, inner, outcome);
    case Borrowed(b) => BorrowedSessionKeepsConnection(b, next, inner, outcome);
  }
}
