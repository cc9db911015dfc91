/** What the executor's statement operations do on the driver, as pure functions of the
    connector in force, the pool's next checkout, the inputs and the driver's answer. */
module Statements {
  import opened Wrappers
  import opened Jdbc
  import opened Connectors
  import opened Adapters

  /** How a statement's execution ends: the driver either runs it or refuses it. */
  function Refusal(sql: string, refused: bool): Result<(), Error>
  {
    if refused then Failure(SQLException(sql)) else Success(())
  }

  /** The block of the 4-argument `execute`: prepare, the prepare callback, execute, the
      result callback (skipped when execute throws), and the statement closed on every path. */
  function StatementEvents(c: Connection, sql: string, keys: int, prepare: StatementConsumer,
                           result: StatementConsumer, refused: bool): seq<Event>
  {
    [Prepare(c, sql, keys), Apply(c, prepare), Execute(c)] +
    (if refused then [] else [Apply(c, result)]) +
    [CloseStatement(c)]
  }

  /** `execute(sql, keys, prepare, result)` with `current` the result of `getCurrentConnection`. */
  function ExecuteRun(current: Result<Connector, Error>, next: nat, sql: string, keys: int,
                      prepare: StatementConsumer, result: StatementConsumer, refused: bool): Run<()>
  {
    match current
    case Failure(e) => Run([], Failure(e), 0)
    case Success(k) =>
      Session(k, next, StatementEvents(ConnectionFor(k, next), sql, keys, prepare, result, refused),
              Refusal(sql, refused))
  }

  /** The statement block is statement-level, stays on its connection and prepares only `sql`. */
  lemma StatementEventsLevel(c: Connection, sql: string, keys: int, prepare: StatementConsumer,
                             result: StatementConsumer, refused: bool)
    ensures var inner := StatementEvents(c, sql, keys, prepare, result, refused);
      && StatementLevel(inner) && OnConnection(inner, c)
      && (forall e | e in inner && e.Prepare? :: e == Prepare(c, sql, keys))
  {
    var front := [Prepare(c, sql, keys), Apply(c, prepare), Execute(c)];
    var middle: seq<Event> := if refused then [] else [Apply(c, result)];
    var back := [CloseStatement(c)];
    assert StatementEvents(c, sql, keys, prepare, result, refused) == front + middle + back;
    JoinEvents(front, middle, c);
    JoinEvents(front + middle, back, c);
    forall e | e in front + middle + back && e.Prepare?
      ensures e == Prepare(c, sql, keys)
    {
      assert e in front || e in middle || e in back;
    }
  }

  /** The statement block stays on its connection, prepares one statement and executes it once. */
  lemma StatementEventsShape(c: Connection, sql: string, keys: int, prepare: StatementConsumer,
                             result: StatementConsumer, refused: bool)
    ensures var inner := StatementEvents(c, sql, keys, prepare, result, refused);
      && StatementLevel(inner) && OnConnection(inner, c)
      && (forall e | e in inner && e.Prepare? :: e == Prepare(c, sql, keys))
      && multiset(inner)[Prepare(c, sql, keys)] == 1
      && multiset(inner)[Execute(c)] == 1
  {
    StatementEventsLevel(c, sql, keys, prepare, result, refused);
    var front := [Prepare(c, sql, keys), Apply(c, prepare), Execute(c)];
    var middle: seq<Event> := if refused then [] else [Apply(c, result)];
    var back := [CloseStatement(c)];
    assert StatementEvents(c, sql, keys, prepare, result, refused) == front + middle + back;
    assert multiset(front) == multiset{Prepare(c, sql, keys)} + multiset{Apply(c, prepare)} + multiset{Execute(c)};
    assert multiset(front + middle + back) == multiset(front) + multiset(middle) + multiset(back);
  }

  /** Wrapping a statement-level block in a session adds no statement events. */
  lemma SessionKeepsStatementCounts<T>(k: Connector, next: nat, inner: seq<Event>, outcome: Result<T, Error>, e: Event)
    requires IsStatementEvent(e)
    ensures multiset(Session(k, next, inner, outcome).events)[e] == multiset(inner)[e]
    ensures forall x | x in Session(k, next, inner, outcome).events && IsStatementEvent(x) :: x in inner
  {
  }

  /** One `execute` call prepares exactly one statement and runs it exactly once, on a single
      connection; the pooled connection it used is released; it fails exactly when the driver
      refuses the statement. */
  lemma ExecuteOneStatement(k: Connector, next: nat, sql: string, keys: int,
                            prepare: StatementConsumer, result: StatementConsumer, refused: bool)
    ensures var r := ExecuteRun(Success(k), next, sql, keys, prepare, result, refused);
      var c := ConnectionFor(k, next);
      && OnConnection(r.events, c)
      && (forall e | e in r.events && e.Prepare? :: e == Prepare(c, sql, keys))
      && multiset(r.events)[Prepare(c, sql, keys)] == 1
      && multiset(r.events)[Execute(c)] == 1
      && Balanced(r.events)
      && r.checkouts == (if k.Pooled? then 1 else 0)
      && (r.outcome.Success? <==> !refused)
  {
    var c := ConnectionFor(k, next);
    var inner := StatementEvents(c, sql, keys, prepare, result, refused);
    var r := ExecuteRun(Success(k), next, sql, keys, prepare, result, refused);
    assert r == Session(k, next, inner, Refusal(sql, refused));
    StatementEventsShape(c, sql, keys, prepare, result, refused);
    SessionKeepsStatementCounts(k, next, inner, Refusal(sql, refused), Prepare(c, sql, keys));
    SessionKeepsStatementCounts(k, next, inner, Refusal(sql, refused), Execute(c));
    assert multiset(r.events)[Prepare(c, sql, keys)] == 1 && multiset(r.events)[Execute(c)] == 1;
    SessionBalanced(k, next, inner, Refusal(sql, refused));
  }

  /** The order of one `execute`: right after the connector's checkout (if any) the statement
      is prepared, the prepare callback runs, the statement executes, the result callback runs
      only when execution succeeded, and the statement is closed. */
  lemma ExecuteCallOrder(k: Connector, next: nat, sql: string, keys: int,
                         prepare: StatementConsumer, result: StatementConsumer, refused: bool)
    ensures var r := ExecuteRun(Success(k), next, sql, keys, prepare, result, refused);
      var c := ConnectionFor(k, next);
      var o := if k.Pooled? then 1 else 0;
      var n := if refused then 4 else 5;
      && |r.events| == o + n + o
      && r.events[o] == Prepare(c, sql, keys)
      && r.events[o + 1] == Apply(c, prepare)
      && r.events[o + 2] == Execute(c)
      && (!refused ==> r.events[o + 3] == Apply(c, result))
      && r.events[o + n - 1] == CloseStatement(c)
      && (k.Pooled? ==> r.events[0] == Acquire(c) && r.events[o + n] == Release(c))
  {
    var c := ConnectionFor(k, next);
    var inner := StatementEvents(c, sql, keys, prepare, result, refused);
    var r := ExecuteRun(Success(k), next, sql, keys, prepare, result, refused);
    assert r.events == Opening(k, next) + inner + Closing(k, next);
  }

  /** Inside a transaction, `execute` makes exactly the statement calls, on the transaction's
      connection, and checks nothing out. */
  lemma ExecuteOnBorrowed(c: Connection, next: nat, sql: string, keys: int,
                          prepare: StatementConsumer, result: StatementConsumer, refused: bool)
    ensures var r := ExecuteRun(Success(Borrowed(c)), next, sql, keys, prepare, result, refused);
      && r.events == StatementEvents(c, sql, keys, prepare, result, refused)
      && StatementLevel(r.events) && OnConnection(r.events, c)
      && r.checkouts == 0
      && (r.outcome.Success? <==> !refused)
  {
    var inner := StatementEvents(c, sql, keys, prepare, result, refused);
    StatementEventsShape(c, sql, keys, prepare, result, refused);
    BorrowedSessionKeepsConnection(c, next, inner, Refusal(sql, refused));
  }

  /** The handler loop of `executeBatch`: each handler runs against the statement, then `addBatch`. */
  function BatchSteps(c: Connection, handlers: seq<StatementConsumer>): (steps: seq<Event>)
    ensures |steps| == 2 * |handlers|
    decreases |handlers|
  {
    if handlers == [] then []
    else BatchSteps(c, handlers[..|handlers| - 1]) + [Apply(c, handlers[|handlers| - 1]), AddBatch(c)]
  }

  /** Handler `j` runs at position `2j` and its `addBatch` right after it: list order, each once. */
  lemma {:induction false} BatchStepsInOrder(c: Connection, handlers: seq<StatementConsumer>)
    ensures forall j | 0 <= j < |handlers| ::
      BatchSteps(c, handlers)[2 * j] == Apply(c, handlers[j]) && BatchSteps(c, handlers)[2 * j + 1] == AddBatch(c)
    decreases |handlers|
  {
    if handlers != [] {
      var init := handlers[..|handlers| - 1];
      BatchStepsInOrder(c, init);
      var steps := BatchSteps(c, handlers);
      assert steps == BatchSteps(c, init) + [Apply(c, handlers[|handlers| - 1]), AddBatch(c)];
      forall j | 0 <= j < |handlers|
        ensures steps[2 * j] == Apply(c, handlers[j]) && steps[2 * j + 1] == AddBatch(c)
      {
        if j < |init| {
          assert init[j] == handlers[j];
        }
      }
    }
  }

  /** The handler loop only applies handlers and adds batches, all on its connection. */
  lemma BatchStepsOnlyApplyAndAdd(c: Connection, handlers: seq<StatementConsumer>)
    ensures var steps := BatchSteps(c, handlers);
      && StatementLevel(steps) && OnConnection(steps, c)
      && forall i | 0 <= i < |steps| :: steps[i].Apply? || steps[i].AddBatch?
  {
    BatchStepsInOrder(c, handlers);
    var steps := BatchSteps(c, handlers);
    forall i | 0 <= i < |steps|
      ensures (steps[i].Apply? || steps[i].AddBatch?) && steps[i].conn == c
    {
      var j := i / 2;
      assert i == 2 * j || i == 2 * j + 1;
    }
  }

  /** The block of a batch of two or more handlers. */
  function BatchBlock(c: Connection, sql: string, keys: int, handlers: seq<StatementConsumer>,
                      result: StatementConsumer, refused: bool): seq<Event>
  {
    [Prepare(c, sql, keys)] + BatchSteps(c, handlers) + BatchTail(c, result, refused)
  }

  /** After the handlers: `executeBatch`, the result callback unless it threw, and the close. */
  function BatchTail(c: Connection, result: StatementConsumer, refused: bool): seq<Event>
  {
    [ExecuteBatch(c)] + (if refused then [] else [Apply(c, result)]) + [CloseStatement(c)]
  }

  /** `executeBatch(builder, keys, result)`, split on the number of handlers. */
  function BatchRun(current: Result<Connector, Error>, next: nat, sql: string, keys: int,
                    handlers: seq<StatementConsumer>, result: StatementConsumer, refused: bool): Run<()>
  {
    if |handlers| == 0 then Run([], Success(()), 0)
    else if |handlers| == 1 then ExecuteRun(current, next, sql, keys, handlers[0], result, refused)
    else match current
      case Failure(e) => Run([], Failure(e), 0)
      case Success(k) =>
        Session(k, next, BatchBlock(ConnectionFor(k, next), sql, keys, handlers, result, refused),
                Refusal(sql, refused))
  }

  /** No handler: nothing happens, not even the connector lookup. */
  lemma EmptyBatchIsNoOp(current: Result<Connector, Error>, next: nat, sql: string, keys: int,
                         result: StatementConsumer, refused: bool)
    ensures BatchRun(current, next, sql, keys, [], result, refused) == Run([], Success(()), 0)
  {
  }

  /** One handler: exactly a plain `execute` with that handler as the prepare callback. */
  lemma SingletonBatchIsExecute(current: Result<Connector, Error>, next: nat, sql: string, keys: int,
                                handler: StatementConsumer, result: StatementConsumer, refused: bool)
    ensures BatchRun(current, next, sql, keys, [handler], result, refused) ==
            ExecuteRun(current, next, sql, keys, handler, result, refused)
  {
  }

  /** The order of a batch inside `es`, starting at `o`: the prepare, then each handler with
      its `addBatch` in list order, then the one `executeBatch`. */
  predicate BatchOrder(es: seq<Event>, o: nat, c: Connection, sql: string, keys: int,
                       handlers: seq<StatementConsumer>)
  {
    && |es| > o + 1 + 2 * |handlers|
    && es[o] == Prepare(c, sql, keys)
    && (forall j | 0 <= j < |handlers| ::
          es[o + 1 + 2 * j] == Apply(c, handlers[j]) && es[o + 2 + 2 * j] == AddBatch(c))
    && es[o + 1 + 2 * |handlers|] == ExecuteBatch(c)
  }

  /** Where the batch block puts the prepare, each handler, each `addBatch` and the `executeBatch`. */
  lemma BatchBlockPositions(c: Connection, sql: string, keys: int, handlers: seq<StatementConsumer>,
                            result: StatementConsumer, refused: bool)
    ensures BatchOrder(BatchBlock(c, sql, keys, handlers, result, refused), 0, c, sql, keys, handlers)
  {
    var steps := BatchSteps(c, handlers);
    BatchStepsInOrder(c, handlers);
    var tail := BatchTail(c, result, refused);
    var block := BatchBlock(c, sql, keys, handlers, result, refused);
    assert block == [Prepare(c, sql, keys)] + steps + tail;
    forall j | 0 <= j < |handlers|
      ensures block[1 + 2 * j] == Apply(c, handlers[j]) && block[2 + 2 * j] == AddBatch(c)
    {
      assert block[1 + 2 * j] == steps[2 * j] && block[2 + 2 * j] == steps[2 * j + 1];
    }
  }

  /** Calls before and after a batch shift its positions and change nothing else. */
  lemma ShiftBatchOrder(pre: seq<Event>, block: seq<Event>, post: seq<Event>, c: Connection, sql: string,
                        keys: int, handlers: seq<StatementConsumer>)
    requires BatchOrder(block, 0, c, sql, keys, handlers)
    ensures BatchOrder(pre + block + post, |pre|, c, sql, keys, handlers)
  {
    var es := pre + block + post;
    var o := |pre|;
    assert es[o] == block[0];
    assert es[o + 1 + 2 * |handlers|] == block[1 + 2 * |handlers|];
    forall j | 0 <= j < |handlers|
      ensures es[o + 1 + 2 * j] == Apply(c, handlers[j]) && es[o + 2 + 2 * j] == AddBatch(c)
    {
      assert es[o + 1 + 2 * j] == block[1 + 2 * j] && es[o + 2 + 2 * j] == block[2 + 2 * j];
    }
  }

  /** Between the prepare and the `executeBatch` there are only handler calls and `addBatch`. */
  lemma BatchStepsCounts(c: Connection, sql: string, keys: int, handlers: seq<StatementConsumer>)
    ensures var steps := BatchSteps(c, handlers);
      && multiset(steps)[Prepare(c, sql, keys)] == 0
      && multiset(steps)[ExecuteBatch(c)] == 0
      && multiset(steps)[Execute(c)] == 0
  {
    BatchStepsOnlyApplyAndAdd(c, handlers);
    var steps := BatchSteps(c, handlers);
    assert Prepare(c, sql, keys) !in steps;
    assert ExecuteBatch(c) !in steps;
    assert Execute(c) !in steps;
  }

  lemma BatchTailCounts(c: Connection, sql: string, keys: int, result: StatementConsumer, refused: bool)
    ensures var tail := BatchTail(c, result, refused);
      && multiset(tail)[Prepare(c, sql, keys)] == 0
      && multiset(tail)[ExecuteBatch(c)] == 1
      && multiset(tail)[Execute(c)] == 0
  {
    var middle: seq<Event> := if refused then [] else [Apply(c, result)];
    assert multiset(BatchTail(c, result, refused)) ==
           multiset{ExecuteBatch(c)} + multiset(middle) + multiset{CloseStatement(c)};
  }

  /** The batch block is statement-level and on one connection. */
  lemma BatchBlockLevel(c: Connection, sql: string, keys: int, handlers: seq<StatementConsumer>,
                        result: StatementConsumer, refused: bool)
    ensures var block := BatchBlock(c, sql, keys, handlers, result, refused);
      StatementLevel(block) && OnConnection(block, c)
  {
    var head := [Prepare(c, sql, keys)];
    var steps := BatchSteps(c, handlers);
    var tail := BatchTail(c, result, refused);
    BatchStepsOnlyApplyAndAdd(c, handlers);
    assert StatementLevel(tail) && OnConnection(tail, c);
    JoinEvents(head, steps, c);
    JoinEvents(head + steps, tail, c);
  }

  /** The batch block is statement-level, on one connection, with one prepare, one
      `executeBatch` and no plain `execute`. */
  lemma BatchBlockCounts(c: Connection, sql: string, keys: int, handlers: seq<StatementConsumer>,
                         result: StatementConsumer, refused: bool)
    ensures var block := BatchBlock(c, sql, keys, handlers, result, refused);
      && StatementLevel(block) && OnConnection(block, c)
      && multiset(block)[Prepare(c, sql, keys)] == 1
      && multiset(block)[ExecuteBatch(c)] == 1
      && multiset(block)[Execute(c)] == 0
  {
    var head := [Prepare(c, sql, keys)];
    var steps := BatchSteps(c, handlers);
    var tail := BatchTail(c, result, refused);
    BatchBlockLevel(c, sql, keys, handlers, result, refused);
    BatchStepsCounts(c, sql, keys, handlers);
    BatchTailCounts(c, sql, keys, result, refused);
    assert multiset(head + steps + tail) == multiset(head) + multiset(steps) + multiset(tail);
  }

  /** Two or more handlers: one statement is prepared; the handlers run, each followed by
      `addBatch`, in list order; then one `executeBatch`, and no single `execute`. */
  lemma BatchOneRoundTrip(k: Connector, next: nat, sql: string, keys: int,
                          handlers: seq<StatementConsumer>, result: StatementConsumer, refused: bool)
    requires |handlers| >= 2
    ensures var r := BatchRun(Success(k), next, sql, keys, handlers, result, refused);
      var c := ConnectionFor(k, next);
      && BatchOrder(r.events, |Opening(k, next)|, c, sql, keys, handlers)
      && BatchRoundTrip(r, c, sql, keys)
      && (r.outcome.Success? <==> !refused)
  {
    var c := ConnectionFor(k, next);
    var block := BatchBlock(c, sql, keys, handlers, result, refused);
    BatchSession(k, next, sql, keys, handlers, result, refused);
    BatchBlockPositions(c, sql, keys, handlers, result, refused);
    ShiftBatchOrder(Opening(k, next), block, Closing(k, next), c, sql, keys, handlers);
    BatchSessionCounts(k, next, sql, keys, handlers, result, refused);
  }

  /** Two or more handlers, after the one `executeBatch`: the result callback runs unless
      the driver refused the batch, the statement is closed on both paths, and the pool's
      connection is released last. */
  lemma BatchFinishes(k: Connector, next: nat, sql: string, keys: int,
                      handlers: seq<StatementConsumer>, result: StatementConsumer, refused: bool)
    requires |handlers| >= 2
    ensures var r := BatchRun(Success(k), next, sql, keys, handlers, result, refused);
      var c := ConnectionFor(k, next);
      var o := |Opening(k, next)| + 2 + 2 * |handlers|;
      && |r.events| == o + (if refused then 1 else 2) + |Closing(k, next)|
      && r.events[o - 1] == ExecuteBatch(c)
      && (!refused ==> r.events[o] == Apply(c, result) && r.events[o + 1] == CloseStatement(c))
      && (refused ==> r.events[o] == CloseStatement(c))
      && (k.Pooled? ==> r.events[|r.events| - 1] == Release(c))
  {
    var c := ConnectionFor(k, next);
    var steps := BatchSteps(c, handlers);
    var tail := BatchTail(c, result, refused);
    var pre := Opening(k, next) + [Prepare(c, sql, keys)] + steps;
    BatchSession(k, next, sql, keys, handlers, result, refused);
    var es := BatchRun(Success(k), next, sql, keys, handlers, result, refused).events;
    assert es == pre + tail + Closing(k, next);
    assert |pre| == |Opening(k, next)| + 1 + 2 * |handlers|;
  }

  /** Inside a transaction, a batch stays on the transaction's connection and checks nothing out. */
  lemma BatchOnBorrowed(c: Connection, next: nat, sql: string, keys: int,
                        handlers: seq<StatementConsumer>, result: StatementConsumer, refused: bool)
    ensures var r := BatchRun(Success(Borrowed(c)), next, sql, keys, handlers, result, refused);
      StatementLevel(r.events) && OnConnection(r.events, c) && r.checkouts == 0
  {
    if |handlers| == 1 {
      ExecuteOnBorrowed(c, next, sql, keys, handlers[0], result, refused);
    } else if |handlers| > 1 {
      BatchBlockCounts(c, sql, keys, handlers, result, refused);
      BorrowedSessionKeepsConnection(c, next, BatchBlock(c, sql, keys, handlers, result, refused),
                                     Refusal(sql, refused));
    }
  }

  /** One prepared statement, one `executeBatch`, no plain `execute`, one connection, released. */
  ghost predicate BatchRoundTrip(r: Run<()>, c: Connection, sql: string, keys: int)
  {
    && multiset(r.events)[Prepare(c, sql, keys)] == 1
    && multiset(r.events)[ExecuteBatch(c)] == 1
    && multiset(r.events)[Execute(c)] == 0
    && OnConnection(r.events, c)
    && Balanced(r.events)
  }

  lemma BatchSessionCounts(k: Connector, next: nat, sql: string, keys: int,
                           handlers: seq<StatementConsumer>, result: StatementConsumer, refused: bool)
    requires |handlers| >= 2
    ensures BatchRoundTrip(BatchRun(Success(k), next, sql, keys, handlers, result, refused),
                           ConnectionFor(k, next), sql, keys)
  {
    var c := ConnectionFor(k, next);
    var block := BatchBlock(c, sql, keys, handlers, result, refused);
    var outcome := Refusal(sql, refused);
    var r := BatchRun(Success(k), next, sql, keys, handlers, result, refused);
    assert r == Session(k, next, block, outcome);
    BatchBlockCounts(c, sql, keys, handlers, result, refused);
    SessionKeepsStatementCounts(k, next, block, outcome, Prepare(c, sql, keys));
    SessionKeepsStatementCounts(k, next, block, outcome, ExecuteBatch(c));
    SessionKeepsStatementCounts(k, next, block, outcome, Execute(c));
    SessionBalanced(k, next, block, outcome);
  }

  /** The block of `query(sql, consumer, function)`: the statement is prepared without
      generated keys, run with `executeQuery`, and closed on every path. */
  function QueryEvents(c: Connection, sql: string, consumer: StatementConsumer): seq<Event>
  {
    [Prepare(c, sql, NO_GENERATED_KEYS), Apply(c, consumer), ExecuteQuery(c), CloseStatement(c)]
  }

  /** `query(sql, consumer, function)`, where `answer` is what the function makes of the rows. */
  function QueryRun<T>(current: Result<Connector, Error>, next: nat, sql: string, consumer: StatementConsumer,
                       refused: bool, answer: Result<Option<T>, Error>): Run<Option<T>>
  {
    match current
    case Failure(e) => Run([], Failure(e), 0)
    case Success(k) =>
      Session(k, next, QueryEvents(ConnectionFor(k, next), sql, consumer),
              if refused then Failure(SQLException(sql)) else answer)
  }

  /** `query(sql, consumer, clazz)`. */
  function QueryOneRun(current: Result<Connector, Error>, next: nat, sql: string, consumer: StatementConsumer,
                       lookup: Result<Adapter, Error>, rows: seq<Row>, refused: bool): Run<Option<Value>>
  {
    QueryRun(current, next, sql, consumer, refused, FirstAdapted(lookup, rows))
  }

  /** A query block runs its statement once. */
  lemma QueryEventsRunOnce(c: Connection, sql: string, consumer: StatementConsumer)
    ensures multiset(QueryEvents(c, sql, consumer))[ExecuteQuery(c)] == 1
  {
    var inner := QueryEvents(c, sql, consumer);
    assert inner == [Prepare(c, sql, NO_GENERATED_KEYS), Apply(c, consumer)] + [ExecuteQuery(c)] + [CloseStatement(c)];
  }

  /** A query without rows is empty and never consults the adapter, so a missing adapter
      does not fail it; the statement is still run and the connection released. */
  lemma QueryWithoutRowsSkipsAdapter(k: Connector, next: nat, sql: string, consumer: StatementConsumer,
                                     lookup: Result<Adapter, Error>)
    ensures var r := QueryOneRun(Success(k), next, sql, consumer, lookup, [], false);
      && r.outcome == Success(None)
      && Balanced(r.events)
      && multiset(r.events)[ExecuteQuery(ConnectionFor(k, next))] == 1
  {
    var c := ConnectionFor(k, next);
    var answer: Result<Option<Value>, Error> := Success(None);
    var inner := QueryEvents(c, sql, consumer);
    SessionBalanced(k, next, inner, answer);
    assert QueryOneRun(Success(k), next, sql, consumer, lookup, [], false) == Session(k, next, inner, answer);
    SessionKeepsStatementCounts(k, next, inner, answer, ExecuteQuery(c));
    QueryEventsRunOnce(c, sql, consumer);
  }

  /** With rows, only the first row is adapted; without an adapter the query fails with the
      adapter error (not wrapped, since it is no `SQLException`) after the statement ran. */
  lemma QueryAdaptsFirstRow(k: Connector, next: nat, sql: string, consumer: StatementConsumer,
                            lookup: Result<Adapter, Error>, rows: seq<Row>)
    requires rows != []
    ensures var r := QueryOneRun(Success(k), next, sql, consumer, lookup, rows, false);
      && (lookup.Success? ==> r.outcome == Success(lookup.value.adaptResult(rows[0])))
      && (lookup.Failure? && !lookup.error.SQLException? ==> r.outcome == Failure(lookup.error))
      && r.events == Opening(k, next) + QueryEvents(ConnectionFor(k, next), sql, consumer) + Closing(k, next)
  {
  }

  /** `queryMany(sql, consumer, clazz)`: the adapter is looked up first, then the query runs
      and the rows are folded into an insertion-ordered set. */
  function QueryManyRun(current: Result<Connector, Error>, next: nat, sql: string, consumer: StatementConsumer,
                        lookup: Result<Adapter, Error>, rows: seq<Row>, refused: bool): Run<seq<Value>>
  {
    match lookup
    case Failure(e) => Run([], Failure(e), 0)
    case Success(a) =>
      var q := QueryRun(current, next, sql, consumer, refused, Success(Some(AdaptDistinct(a.adaptResult, rows))));
      Run(q.events,
          match q.outcome
          case Failure(e) => Failure(e)
          case Success(o) => Success(if o.Some? then o.value else []),
          q.checkouts)
  }

  /** A missing adapter fails `queryMany` before any connection is touched, even when the
      connector lookup would also fail. */
  lemma QueryManyChecksAdapterFirst(current: Result<Connector, Error>, next: nat, sql: string,
                                    consumer: StatementConsumer, c: ClassRef, entries: map<ClassRef, Adapter>,
                                    rows: seq<Row>, refused: bool)
    requires c !in entries
    ensures QueryManyRun(current, next, sql, consumer, Lookup(entries, c), rows, refused) ==
            Run([], Failure(AdapterNotFound(c)), 0)
  {
  }

  /** With an adapter and an accepted query, the result is the rows' distinct non-null
      adaptations in row order. */
  lemma QueryManyCollects(k: Connector, next: nat, sql: string, consumer: StatementConsumer,
                          a: Adapter, rows: seq<Row>)
    ensures var r := QueryManyRun(Success(k), next, sql, consumer, Success(a), rows, false);
      && r.outcome == Success(AdaptDistinct(a.adaptResult, rows))
      && Balanced(r.events)
      && OnConnection(r.events, ConnectionFor(k, next))
  {
    var c := ConnectionFor(k, next);
    var answer: Result<Option<seq<Value>>, Error> := Success(Some(AdaptDistinct(a.adaptResult, rows)));
    SessionBalanced(k, next, QueryEvents(c, sql, consumer), answer);
  }

  /** `queryMany` once its adapter and connector are found: one query session whose outcome is
      the de-duplicated adaptation of the rows, unless the driver refuses the statement. */
  lemma QueryManySession(k: Connector, next: nat, sql: string, consumer: StatementConsumer,
                         a: Adapter, rows: seq<Row>, refused: bool)
    ensures var r := QueryManyRun(Success(k), next, sql, consumer, Success(a), rows, refused);
      var outcome: Result<seq<Value>, Error> :=
        if refused then Failure(SQLException(sql)) else Success(AdaptDistinct(a.adaptResult, rows));
      && r.events == Opening(k, next) + QueryEvents(ConnectionFor(k, next), sql, consumer) + Closing(k, next)
      && r.checkouts == (if k.Pooled? then 1 else 0)
      && r.outcome == Surface(k, outcome)
  {
  }

  /** A batch of two or more handlers, once the connector is found, is one session. */
  lemma BatchSession(k: Connector, next: nat, sql: string, keys: int,
                     handlers: seq<StatementConsumer>, result: StatementConsumer, refused: bool)
    requires |handlers| >= 2
    ensures BatchRun(Success(k), next, sql, keys, handlers, result, refused) ==
            Session(k, next, BatchBlock(ConnectionFor(k, next), sql, keys, handlers, result, refused),
                    Refusal(sql, refused))
  {
  }
}
