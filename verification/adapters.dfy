/** Result adapters: the per-class conversion from a row to a value, the registry lookup,
    and the two result functions the executor builds from an adapter. */
module Adapters {
  import opened Wrappers
  import opened Jdbc

  /** A `Class<?>` key: its fully qualified name (which makes it unique) and its simple name. */
  datatype ClassRef = ClassRef(name: string, simpleName: string)

  /** A `SQLResultAdapter`: a row to a value or null, and a value to the callback that binds it. */
  datatype Adapter = Adapter(adaptResult: Row -> Option<Value>, adaptStatement: Value -> StatementConsumer)

  const SimpleResultSetClass: ClassRef := ClassRef("com.jaoow.sql.executor.result.SimpleResultSet", "SimpleResultSet")

  /** `ResultSetAdapter`: hands back the row it is given; binds nothing. */
  function ResultSetAdapter(): Adapter
  {
    Adapter(row => Some(RowValue(row)), v => NoOp)
  }

  function AdapterNotFound(c: ClassRef): Error
  {
    IllegalArgument("The adapter for class " + c.simpleName + " was not found.")
  }

  /** `getAdapter` over the entries of a registry: the registered adapter, or an
      illegal-argument error naming the class. */
  function Lookup(entries: map<ClassRef, Adapter>, c: ClassRef): (r: Result<Adapter, Error>)
    ensures r.Success? <==> c in entries
    ensures r.Success? ==> r.value == entries[c]
    ensures r.Failure? ==> r.error == AdapterNotFound(c)
  {
    if c in entries then Success(entries[c]) else Failure(AdapterNotFound(c))
  }

  /** A registration is seen by the next lookup of its class and by no other lookup. */
  lemma LookupAfterRegister(entries: map<ClassRef, Adapter>, c: ClassRef, a: Adapter, d: ClassRef)
    ensures Lookup(entries[c := a], c) == Success(a)
    ensures d != c ==> Lookup(entries[c := a], d) == Lookup(entries, d)
  {
  }

  /** The result function of `query(sql, consumer, clazz)`: no row gives null without looking
      at the adapter; otherwise the first row is adapted, if an adapter was found. */
  function FirstAdapted(lookup: Result<Adapter, Error>, rows: seq<Row>): Result<Option<Value>, Error>
  {
    if rows == [] then Success(None)
    else match lookup
      case Failure(e) => Failure(e)
      case Success(a) => Success(a.adaptResult(rows[0]))
  }

  /** The loop of `queryMany`: rows adapted in order, nulls skipped, and each value kept once,
      where it first appeared (a `LinkedHashSet`). */
  function AdaptDistinct(adapt: Row -> Option<Value>, rows: seq<Row>): seq<Value>
    decreases |rows|
  {
    if rows == [] then []
    else
      var kept := AdaptDistinct(adapt, rows[..|rows| - 1]);
      match adapt(rows[|rows| - 1])
      case None => kept
      case Some(v) => if v in kept then kept else kept + [v]
  }

  /** A value is in the result exactly when some row adapts to it. */
  lemma {:induction false} AdaptDistinctMembers(adapt: Row -> Option<Value>, rows: seq<Row>, v: Value)
    ensures v in AdaptDistinct(adapt, rows) <==> exists i :: 0 <= i < |rows| && adapt(rows[i]) == Some(v)
    decreases |rows|
  {
    if rows != [] {
      var init := rows[..|rows| - 1];
      AdaptDistinctMembers(adapt, init, v);
      if exists i :: 0 <= i < |init| && adapt(init[i]) == Some(v) {
        var i :| 0 <= i < |init| && adapt(init[i]) == Some(v);
        assert rows[i] == init[i];
      }
      if exists i :: 0 <= i < |rows| && adapt(rows[i]) == Some(v) {
        var i :| 0 <= i < |rows| && adapt(rows[i]) == Some(v);
        if i < |init| {
          assert init[i] == rows[i];
        }
      }
    }
  }

  predicate Distinct(s: seq<Value>)
  {
    forall p, q | 0 <= p < q < |s| :: s[p] != s[q]
  }

  /** No value is kept twice. */
  lemma {:induction false} AdaptDistinctNoDuplicates(adapt: Row -> Option<Value>, rows: seq<Row>)
    ensures Distinct(AdaptDistinct(adapt, rows))
    decreases |rows|
  {
    if rows != [] {
      var kept := AdaptDistinct(adapt, rows[..|rows| - 1]);
      AdaptDistinctNoDuplicates(adapt, rows[..|rows| - 1]);
      var r := AdaptDistinct(adapt, rows);
      match adapt(rows[|rows| - 1])
      case None =>
      case Some(v) =>
        if v !in kept {
          assert r == kept + [v];
          forall p, q | 0 <= p < q < |r|
            ensures r[p] != r[q]
          {
            if q < |kept| {
              assert r[p] == kept[p] && r[q] == kept[q];
            } else {
              assert r[p] == kept[p] && kept[p] in kept && r[q] == v;
            }
          }
        }
    }
  }

  /** Insertion order: of two kept values, the earlier one was produced by some row before
      any row produced the later one. */
  lemma {:induction false} AdaptDistinctFirstOccurrence(adapt: Row -> Option<Value>, rows: seq<Row>, p: nat, q: nat)
    requires p < q < |AdaptDistinct(adapt, rows)|
    ensures var r := AdaptDistinct(adapt, rows);
      exists i :: 0 <= i < |rows| && adapt(rows[i]) == Some(r[p]) &&
        forall j | 0 <= j <= i :: adapt(rows[j]) != Some(r[q])
    decreases |rows|
  {
    var r := AdaptDistinct(adapt, rows);
    var init := rows[..|rows| - 1];
    var kept := AdaptDistinct(adapt, init);
    if q < |kept| {
      assert r[..|kept|] == kept;
      AdaptDistinctFirstOccurrence(adapt, init, p, q);
      var i :| 0 <= i < |init| && adapt(init[i]) == Some(kept[p]) &&
        forall j | 0 <= j <= i :: adapt(init[j]) != Some(kept[q]);
      assert rows[i] == init[i];
      forall j | 0 <= j <= i
        ensures adapt(rows[j]) != Some(r[q])
      {
        assert rows[j] == init[j];
      }
    } else {
      // the later value is the one the last row added, so no earlier row produced it
      assert r == kept + [r[q]] && r[p] == kept[p];
      AdaptDistinctMembers(adapt, init, r[p]);
      AdaptDistinctMembers(adapt, init, r[q]);
      var i :| 0 <= i < |init| && adapt(init[i]) == Some(r[p]);
      assert rows[i] == init[i];
      forall j | 0 <= j <= i
        ensures adapt(rows[j]) != Some(r[q])
      {
        assert rows[j] == init[j];
      }
    }
  }

  /** The statement callbacks `saveAll` collects: one per value, from the adapter. */
  function Bindings(a: Adapter, values: seq<Value>): (hs: seq<StatementConsumer>)
    ensures |hs| == |values|
    decreases |values|
  {
    if values == [] then []
    else Bindings(a, values[..|values| - 1]) + [a.adaptStatement(values[|values| - 1])]
  }

  /** Value `i` is bound by callback `i`: one callback per value, in iteration order. */
  lemma {:induction false} BindingsInOrder(a: Adapter, values: seq<Value>)
    ensures forall i | 0 <= i < |values| :: Bindings(a, values)[i] == a.adaptStatement(values[i])
    decreases |values|
  {
    if values != [] {
      var init := values[..|values| - 1];
      BindingsInOrder(a, init);
      forall i | 0 <= i < |values|
        ensures Bindings(a, values)[i] == a.adaptStatement(values[i])
      {
        if i < |init| {
          assert init[i] == values[i];
        }
      }
    }
  }
}
