/** `withTransaction`: one pooled connection with auto-commit off, a holder installed for the
    thread running the body, the body run through the executor, then commit or rollback. */
module Transactions {
  import opened Wrappers
  import opened Jdbc
  import opened Connectors
  import opened Statements

  /** One step of a transaction body: an `execute`, `executeAsync` or `executeBatch` call on the
      executor, or an exception the body throws. */
  datatype Step =
    | ExecuteStep(sql: string, keys: int, prepare: StatementConsumer, result: StatementConsumer)
    | AsyncExecuteStep(sql: string, prepare: StatementConsumer)
    | BatchStep(sql: string, keys: int, handlers: seq<StatementConsumer>, result: StatementConsumer)
    | ThrowStep(tag: nat)

  /** One step inside the transaction, whose connector hands out `c`. An `executeAsync` picks
      the holder's same-thread executor, so it runs inline on `c`; its failure completes its
      own future and does not reach the body. */
  function StepRun(c: Connection, next: nat, step: Step, rejected: set<string>): Run<()>
  {
    match step
    case ExecuteStep(sql, keys, prepare, result) =>
      ExecuteRun(Success(Borrowed(c)), next, sql, keys, prepare, result, sql in rejected)
    case AsyncExecuteStep(sql, prepare) =>
      var run := ExecuteRun(Success(Borrowed(c)), next, sql, NO_GENERATED_KEYS, prepare, NoOp, sql in rejected);
      Run(run.events, Success(()), run.checkouts)
    case BatchStep(sql, keys, handlers, result) =>
      BatchRun(Success(Borrowed(c)), next, sql, keys, handlers, result, sql in rejected)
    case ThrowStep(tag) => Run([], Failure(Thrown(tag)), 0)
  }

  /** The body: its steps in order, up to and including the first one that throws. */
  function BodyRun(c: Connection, next: nat, body: seq<Step>, rejected: set<string>): Run<()>
    decreases |body|
  {
    if body == [] then Run([], Success(()), 0)
    else
      var first := StepRun(c, next, body[0], rejected);
      if first.outcome.Failure? then first
      else
        var rest := BodyRun(c, next + first.checkouts, body[1..], rejected);
        Run(first.events + rest.events, rest.outcome, first.checkouts + rest.checkouts)
  }

  /** A body whose first step throws ends with that step. */
  lemma BodyStops(c: Connection, next: nat, body: seq<Step>, rejected: set<string>)
    requires body != [] && StepRun(c, next, body[0], rejected).outcome.Failure?
    ensures BodyRun(c, next, body, rejected) == StepRun(c, next, body[0], rejected)
  {
  }

  /** A body whose first step succeeds goes on with the rest, on the pool's next checkout. */
  lemma BodyContinues(c: Connection, next: nat, body: seq<Step>, rejected: set<string>)
    requires body != [] && StepRun(c, next, body[0], rejected).outcome.Success?
    ensures var step := StepRun(c, next, body[0], rejected);
      var rest := BodyRun(c, next + step.checkouts, body[1..], rejected);
      BodyRun(c, next, body, rejected) == Run(step.events + rest.events, rest.outcome, step.checkouts + rest.checkouts)
  {
  }

  /** No step of a transaction body checks out a connection: each runs on the borrowed one. */
  lemma StepChecksNothingOut(c: Connection, next: nat, step: Step, rejected: set<string>)
    ensures StepRun(c, next, step, rejected).checkouts == 0
  {
  }

  /** Nor does the whole body. */
  lemma {:induction false} BodyChecksNothingOut(c: Connection, next: nat, body: seq<Step>, rejected: set<string>)
    ensures BodyRun(c, next, body, rejected).checkouts == 0
    decreases |body|
  {
    if body != [] {
      StepChecksNothingOut(c, next, body[0], rejected);
      BodyChecksNothingOut(c, next, body[1..], rejected);
    }
  }

  /** How the body's run ends the transaction: commit after success, rollback after a throw. */
  function Finish(c: Connection, body: Run<()>): Event
  {
    if body.outcome.Success? then Commit(c) else Rollback(c)
  }

  /** `withTransaction(body)` on the default connector, the pool's next checkout being `next`. */
  function TransactionRun(next: nat, body: seq<Step>, rejected: set<string>): Run<()>
  {
    Transaction(next, BodyRun(Connection(next), next + 1, body, rejected))
  }

  /** The transaction around a body that ran as `b`, on the pool's checkout `next`. */
  function Transaction(next: nat, b: Run<()>): Run<()>
  {
    var c := Connection(next);
    var inner := [SetAutoCommit(c, false)] + b.events + [Finish(c, b)];
    var outcome: Result<(), Error> := if b.outcome.Success? then Success(()) else Failure(RuntimeException(b.outcome.error));
    var s := Session(Pooled, next, inner, outcome);
    Run(s.events, s.outcome, s.checkouts + b.checkouts)
  }

  /** A single step stays on the transaction's connection and checks nothing out. */
  lemma StepStaysOnConnection(c: Connection, next: nat, step: Step, rejected: set<string>)
    ensures var r := StepRun(c, next, step, rejected);
      StatementLevel(r.events) && OnConnection(r.events, c) && r.checkouts == 0
  {
    match step
    case ExecuteStep(sql, keys, prepare, result) =>
      ExecuteOnBorrowed(c, next, sql, keys, prepare, result, sql in rejected);
    case AsyncExecuteStep(sql, prepare) =>
      ExecuteOnBorrowed(c, next, sql, NO_GENERATED_KEYS, prepare, NoOp, sql in rejected);
    case BatchStep(sql, keys, handlers, result) =>
      BatchOnBorrowed(c, next, sql, keys, handlers, result, sql in rejected);
    case ThrowStep(_) =>
  }

  /** Every call the body makes goes to the transaction's connection; none checks out another. */
  lemma {:induction false} BodyStaysOnConnection(c: Connection, next: nat, body: seq<Step>, rejected: set<string>)
    ensures var r := BodyRun(c, next, body, rejected);
      StatementLevel(r.events) && OnConnection(r.events, c) && r.checkouts == 0
    decreases |body|
  {
    if body != [] {
      var first := StepRun(c, next, body[0], rejected);
      StepStaysOnConnection(c, next, body[0], rejected);
      if first.outcome.Success? {
        var rest := BodyRun(c, next, body[1..], rejected);
        BodyStaysOnConnection(c, next, body[1..], rejected);
        JoinEvents(first.events, rest.events, c);
        assert BodyRun(c, next, body, rejected) == Run(first.events + rest.events, rest.outcome, 0);
      }
    }
  }

  /** A statement refused by the driver, as it reaches the body through the transaction's
      connector. */
  function BorrowedRefusal(sql: string, refused: bool): Result<(), Error>
  {
    if refused then Failure(ConnectorException(SQLException(sql))) else Success(())
  }

  /** How each step ends inside the transaction: a throw fails with its exception; an
      `executeAsync` always succeeds, whatever the driver does; `execute` fails exactly when
      the driver refuses the statement, and a batch when it has handlers and is refused, the
      `SQLException` coming back wrapped in a `ConnectorException`. */
  lemma StepOutcome(c: Connection, next: nat, step: Step, rejected: set<string>)
    ensures var r := StepRun(c, next, step, rejected);
      && (step.ThrowStep? ==> r.outcome == Failure(Thrown(step.tag)))
      && (step.AsyncExecuteStep? ==> r.outcome == Success(()))
      && (step.ExecuteStep? ==> r.outcome == BorrowedRefusal(step.sql, step.sql in rejected))
      && (step.BatchStep? ==>
            r.outcome == BorrowedRefusal(step.sql, |step.handlers| > 0 && step.sql in rejected))
  {
  }

  /** The body ends with the outcome of its first failing step, when the steps before it
      succeeded. */
  lemma {:induction false} BodyFailsAtFirstFailure(c: Connection, next: nat, body: seq<Step>,
                                                   rejected: set<string>, i: nat)
    requires i < |body|
    requires forall j | 0 <= j < i :: StepRun(c, next, body[j], rejected).outcome.Success?
    requires StepRun(c, next, body[i], rejected).outcome.Failure?
    ensures BodyRun(c, next, body, rejected).outcome == StepRun(c, next, body[i], rejected).outcome
    decreases i
  {
    if i == 0 {
      BodyStops(c, next, body, rejected);
    } else {
      StepChecksNothingOut(c, next, body[0], rejected);
      BodyContinues(c, next, body, rejected);
      assert forall j | 0 <= j < i - 1 :: body[1..][j] == body[j + 1];
      BodyFailsAtFirstFailure(c, next, body[1..], rejected, i - 1);
    }
  }

  /** The body succeeds exactly when every one of its steps does. */
  lemma {:induction false} BodySucceedsIffEveryStep(c: Connection, next: nat, body: seq<Step>, rejected: set<string>)
    ensures BodyRun(c, next, body, rejected).outcome.Success? <==>
            forall j | 0 <= j < |body| :: StepRun(c, next, body[j], rejected).outcome.Success?
    decreases |body|
  {
    if body != [] {
      if StepRun(c, next, body[0], rejected).outcome.Failure? {
        BodyStops(c, next, body, rejected);
      } else {
        StepChecksNothingOut(c, next, body[0], rejected);
        BodyContinues(c, next, body, rejected);
        BodySucceedsIffEveryStep(c, next, body[1..], rejected);
        assert forall j | 0 <= j < |body| - 1 :: body[1..][j] == body[j + 1];
      }
    }
  }

  /** A throw after nothing but `executeAsync` calls fails the body with that throw: a failing
      `executeAsync` never counts. */
  lemma BodyFailsAtFirstThrow(c: Connection, next: nat, body: seq<Step>, rejected: set<string>, i: nat)
    requires i < |body| && body[i].ThrowStep?
    requires forall j | 0 <= j < i :: body[j].AsyncExecuteStep?
    ensures BodyRun(c, next, body, rejected).outcome == Failure(Thrown(body[i].tag))
  {
    forall j | 0 <= j < i
      ensures StepRun(c, next, body[j], rejected).outcome.Success?
    {
      StepOutcome(c, next, body[j], rejected);
    }
    BodyFailsAtFirstFailure(c, next, body, rejected, i);
  }

  /** The shape of a transaction, whatever its body did. */
  lemma TransactionShape(next: nat, b: Run<()>)
    ensures var r := Transaction(next, b);
      var c := Connection(next);
      && r.events == [Acquire(c), SetAutoCommit(c, false)] + b.events + [Finish(c, b), Release(c)]
      && r.checkouts == 1 + b.checkouts
      && r.outcome == (if b.outcome.Success? then Success(()) else Failure(RuntimeException(b.outcome.error)))
  {
    var c := Connection(next);
    var inner := [SetAutoCommit(c, false)] + b.events + [Finish(c, b)];
    assert Opening(Pooled, next) + inner + Closing(Pooled, next)
        == [Acquire(c), SetAutoCommit(c, false)] + b.events + [Finish(c, b), Release(c)];
  }

  /** The connection-level bracket around a statement-level body: where each call sits. */
  lemma BracketOrder(c: Connection, body: seq<Event>, finish: Event)
    requires OnConnection(body, c)
    requires finish == Commit(c) || finish == Rollback(c)
    ensures var es := [Acquire(c), SetAutoCommit(c, false)] + body + [finish, Release(c)];
      && |es| >= 4
      && es[0] == Acquire(c) && es[1] == SetAutoCommit(c, false)
      && es[|es| - 2] == finish && es[|es| - 1] == Release(c)
      && OnConnection(es, c)
  {
    var head := [Acquire(c), SetAutoCommit(c, false)];
    var tail := [finish, Release(c)];
    JoinEvents(head, body, c);
    JoinEvents(head + body, tail, c);
  }

  /** The bracket commits or rolls back exactly once and releases what it checked out. */
  lemma BracketCounts(c: Connection, body: seq<Event>, finish: Event)
    requires StatementLevel(body)
    requires finish == Commit(c) || finish == Rollback(c)
    ensures var es := [Acquire(c), SetAutoCommit(c, false)] + body + [finish, Release(c)];
      && multiset(es)[Commit(c)] == (if finish == Commit(c) then 1 else 0)
      && multiset(es)[Rollback(c)] == (if finish == Commit(c) then 0 else 1)
      && Balanced(es)
  {
    var head := [Acquire(c), SetAutoCommit(c, false)];
    var tail := [finish, Release(c)];
    var es := head + body + tail;
    StatementLevelBalanced(body);
    assert Commit(c) !in body && Rollback(c) !in body;
    assert multiset(es) == multiset(head) + multiset(body) + multiset(tail);
    assert multiset(head) == multiset{Acquire(c)} + multiset{SetAutoCommit(c, false)};
    assert multiset(tail) == multiset{finish} + multiset{Release(c)};
    forall d: Connection
      ensures multiset(es)[Acquire(d)] == multiset(es)[Release(d)]
    {
      assert multiset(body)[Acquire(d)] == 0 && multiset(body)[Release(d)] == 0;
    }
  }

  /** What the shape of a transaction implies, for any body run that stays on its connection. */
  lemma ShapeCommitsOrRollsBack(c: Connection, b: Run<()>, r: Run<()>)
    requires StatementLevel(b.events) && OnConnection(b.events, c) && b.checkouts == 0
    requires r.events == [Acquire(c), SetAutoCommit(c, false)] + b.events + [Finish(c, b), Release(c)]
    requires r.checkouts == 1 + b.checkouts
    requires r.outcome == (if b.outcome.Success? then Success(()) else Failure(RuntimeException(b.outcome.error)))
    ensures && |r.events| >= 4
            && r.events[0] == Acquire(c)
            && r.events[1] == SetAutoCommit(c, false)
            && r.events[|r.events| - 2] == (if b.outcome.Success? then Commit(c) else Rollback(c))
            && r.events[|r.events| - 1] == Release(c)
            && multiset(r.events)[Commit(c)] == (if b.outcome.Success? then 1 else 0)
            && multiset(r.events)[Rollback(c)] == (if b.outcome.Success? then 0 else 1)
            && OnConnection(r.events, c)
            && Balanced(r.events)
            && r.checkouts == 1
  {
    BracketOrder(c, b.events, Finish(c, b));
    BracketCounts(c, b.events, Finish(c, b));
  }

  /** The transaction: its own checkout first, auto-commit off, the body, exactly one of commit
      (body succeeded) or rollback (body threw), the release last; everything on one connection,
      which is released, and whose checkout is the only one; a failure comes back wrapped in a
      `RuntimeException`. */
  lemma TransactionCommitsOrRollsBack(next: nat, body: seq<Step>, rejected: set<string>)
    ensures var r := TransactionRun(next, body, rejected);
      var c := Connection(next);
      var b := BodyRun(c, next + 1, body, rejected);
      && |r.events| >= 4
      && r.events[0] == Acquire(c)
      && r.events[1] == SetAutoCommit(c, false)
      && r.events[|r.events| - 2] == (if b.outcome.Success? then Commit(c) else Rollback(c))
      && r.events[|r.events| - 1] == Release(c)
      && multiset(r.events)[Commit(c)] == (if b.outcome.Success? then 1 else 0)
      && multiset(r.events)[Rollback(c)] == (if b.outcome.Success? then 0 else 1)
      && OnConnection(r.events, c)
      && Balanced(r.events)
      && r.checkouts == 1
      && (r.outcome.Success? <==> b.outcome.Success?)
      && (b.outcome.Failure? ==> r.outcome == Failure(RuntimeException(b.outcome.error)))
  {
    var c := Connection(next);
    var b := BodyRun(c, next + 1, body, rejected);
    BodyStaysOnConnection(c, next + 1, body, rejected);
    TransactionShape(next, b);
    ShapeCommitsOrRollsBack(c, b, Transaction(next, b));
  }
}
