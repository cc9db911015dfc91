/** The per-thread transaction slot and the two values it can hold: the connection of a
    running transaction and the task executor that goes with it. */
module TransactionSlot {
  import opened Wrappers
  import opened Jdbc

  type ThreadId = nat

  /** A `java.util.concurrent.Executor`: the shared common pool, the same-thread executor
      installed by a transaction, or any other executor a caller supplies. */
  datatype TaskExecutor = CommonPool | CurrentThread | Custom(id: nat)

  /** The thread a command submitted to `e` from `caller` runs on. A `CurrentThreadExecutor`
      runs it inline; a pool hands it to one of its workers, which the scheduler picks. */
  function RunsOn(e: TaskExecutor, caller: ThreadId, worker: ThreadId): (t: ThreadId)
    ensures e == CurrentThread ==> t == caller
  {
    if e == CurrentThread then caller else worker
  }

  /** `SQLTransactionHolder`: both fields may be null in Java. */
  datatype SQLTransactionHolder = SQLTransactionHolder(connection: Option<Connection>, executor: Option<TaskExecutor>)

  /** The holder that `withTransaction` installs for the connection it borrowed. */
  function TransactionHolder(c: Connection): SQLTransactionHolder
  {
    SQLTransactionHolder(Some(c), Some(CurrentThread))
  }

  /** A slot that was set and then removed is as if it had only been removed. */
  lemma SetThenRemove(slots: map<ThreadId, SQLTransactionHolder>, t: ThreadId, h: SQLTransactionHolder)
    ensures slots[t := h] - {t} == slots - {t}
  {
    assert forall u :: u in slots[t := h] - {t} <==> u in slots - {t};
  }

  /** `ThreadLocalTransaction`: one static slot per thread. A thread is in `slots` exactly when
      its slot holds a holder, so there is at most one holder per thread. */
  class ThreadLocalTransaction {
    var slots: map<ThreadId, SQLTransactionHolder>

    constructor ()
      ensures slots == map[]
    {
      slots := map[];
    }

    /** `get()` on thread `t`: the holder, or null. */
    function Get(t: ThreadId): (h: Option<SQLTransactionHolder>)
      reads this
      ensures h.Some? <==> t in slots
      ensures h.Some? ==> h.value == slots[t]
    {
      if t in slots then Some(slots[t]) else None
    }

    /** `set(h)` on thread `t` replaces whatever `t` held; other threads are untouched. */
    method Set(t: ThreadId, h: SQLTransactionHolder)
      modifies this
      ensures slots == old(slots)[t := h]
      ensures Get(t) == Some(h)
      ensures forall u :: u != t ==> Get(u) == old(Get(u))
    {
      slots := slots[t := h];
    }

    /** `remove()` on thread `t` empties its slot (a no-op when it was empty); other threads
        are untouched. */
    method Remove(t: ThreadId)
      modifies this
      ensures slots == old(slots) - {t}
      ensures Get(t) == None
      ensures t !in old(slots) ==> slots == old(slots)
      ensures forall u :: u != t ==> Get(u) == old(Get(u))
    {
      slots := slots - {t};
    }
  }
}
