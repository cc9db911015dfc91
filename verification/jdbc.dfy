/** The database driver, seen from the executor: connections, the callbacks a caller hands
    to a prepared statement, the rows a query yields, the exceptions that can surface, and
    the trace of calls the executor makes on the driver. */
module Jdbc {

  /** One checkout of a physical connection. Every checkout from the pool gets a new id. */
  datatype Connection = Connection(id: nat)

  /** One row of a result set, as the text of its columns. */
  datatype Row = Row(columns: seq<string>)

  /** A value produced by a result adapter: either the row itself (the identity adapter of
      `SimpleResultSet`) or an application object. */
  datatype Value = RowValue(row: Row) | Entity(fields: seq<string>)

  /** `java.sql.Statement.RETURN_GENERATED_KEYS` and `NO_GENERATED_KEYS`. */
  const RETURN_GENERATED_KEYS: int := 1
  const NO_GENERATED_KEYS: int := 2

  /** A `StatementConsumer`: a callback that receives the prepared statement. */
  datatype StatementConsumer =
    | NoOp                                   // the EMPTY_STATEMENT constant
    | SetParameter(index: nat, text: string) // statement.set(index, text)
    | ReadGeneratedKeys(resultConsumer: nat) // hands getGeneratedKeys() to a ResultSetConsumer
    | Handler(tag: nat)                      // any other caller-supplied callback

  /** The exceptions the model distinguishes. */
  datatype Error =
    | SQLException(sql: string)              // the driver refused the statement
    | IllegalArgument(message: string)
    | NullPointer(message: string)
    | UnsupportedOperation                   // a put on a read-only adapter map
    | ConnectorException(cause: Error)
    | RuntimeException(cause: Error)
    | Thrown(tag: nat)                       // raised by caller code inside a transaction body

  /** The calls made on the driver, each on one connection. `Apply` is a statement callback
      running against the prepared statement (binding its parameters, reading its keys). */
  datatype Event =
    | Acquire(conn: Connection)
    | Release(conn: Connection)
    | SetAutoCommit(conn: Connection, autoCommit: bool)
    | Prepare(conn: Connection, sql: string, keys: int)
    | Apply(conn: Connection, consumer: StatementConsumer)
    | AddBatch(conn: Connection)
    | Execute(conn: Connection)
    | ExecuteQuery(conn: Connection)
    | ExecuteBatch(conn: Connection)
    | CloseStatement(conn: Connection)
    | Commit(conn: Connection)
    | Rollback(conn: Connection)

  /** Events that belong to one prepared statement's life, as opposed to connection-level ones. */
  predicate IsStatementEvent(e: Event)
  {
    e.Prepare? || e.Apply? || e.AddBatch? || e.Execute? || e.ExecuteQuery? ||
    e.ExecuteBatch? || e.CloseStatement?
  }

  predicate StatementLevel(es: seq<Event>)
  {
    forall i | 0 <= i < |es| :: IsStatementEvent(es[i])
  }

  predicate OnConnection(es: seq<Event>, c: Connection)
  {
    forall i | 0 <= i < |es| :: es[i].conn == c
  }

  /** Statement-level calls on one connection stay so when two runs of them are joined. */
  lemma JoinEvents(a: seq<Event>, b: seq<Event>, c: Connection)
    ensures StatementLevel(a) && StatementLevel(b) ==> StatementLevel(a + b)
    ensures OnConnection(a, c) && OnConnection(b, c) ==> OnConnection(a + b, c)
  {
    forall i | 0 <= i < |a + b|
      ensures (a + b)[i] == if i < |a| then a[i] else b[i - |a|]
    {
    }
  }

  /** Every checkout in the trace is matched by a release of the same connection. */
  ghost predicate Balanced(es: seq<Event>)
  {
    forall c: Connection :: multiset(es)[Acquire(c)] == multiset(es)[Release(c)]
  }

  /** The driver together with the pool behind the default connector: the calls made so far,
      the id of the next checkout, and the statements the driver rejects. */
  class Database {
    var trace: seq<Event>
    var next: nat
    const rejected: set<string>

    constructor (rejected: set<string>)
      ensures trace == [] && next == 0 && this.rejected == rejected
    {
      trace := [];
      next := 0;
      this.rejected := rejected;
    }

    /** The pool hands out a connection nobody has had before. */
    method Checkout() returns (c: Connection)
      modifies this
      ensures c == Connection(old(next)) && next == old(next) + 1
      ensures trace == old(trace) + [Acquire(c)]
    {
      c := Connection(next);
      next := next + 1;
      trace := trace + [Acquire(c)];
    }

    method Record(e: Event)
      modifies this
      ensures trace == old(trace) + [e] && next == old(next)
    {
      trace := trace + [e];
    }
  }
}
