/**
 * The units of work that ReactiveEntityManagerImpl hands to the reactive
 * wrapper, as values: for each operation, the provider calls it plans to make,
 * what one run of it records and what its subscriber is signalled.
 *
 * A run is a function of the operation's input and of the provider's answers
 * for that run, so everything about a subscription can be stated here, away
 * from the objects that perform it.
 */
module UnitsOfWork {
  import opened Jpa

  /** What a subscriber of a Mono or Flux sees once the deferred work has run. */
  datatype Signal<R> = Complete(items: seq<R>) | Error(fault: Fault)

  /** One run of a unit of work: the provider calls it made and the signal it produced. */
  datatype Run<T, R> = Run(events: seq<Event<T>>, signal: Signal<R>)

  /** The signal of a trace: its exception if one escaped, else completion with `items`. */
  function Settle<T, R>(tr: Trace<T>, items: seq<R>): Run<T, R>
  {
    Run(tr.events, match tr.thrown case None => Complete(items) case Some(f) => Error(f))
  }

  /** `Mono.fromCallable`: a null result completes the Mono empty. */
  function Items<T>(o: Option<T>): seq<T>
  {
    match o
    case None => []
    case Some(v) => [v]
  }

  // ---------------------------------------------------------------------
  // persist, merge, remove, find: one straight run of calls each, with no
  // handler, so the first exception ends the run with neither a rollback
  // nor a close.
  // ---------------------------------------------------------------------

  function PersistCalls<T>(entities: seq<T>): seq<Event<T>>
  {
    [Create, Begin]
    + seq(|entities|, i requires 0 <= i < |entities| => Persist(entities[i]))
    + [Commit, Close]
  }

  /** `persist` on a non-empty array: completes with no item. */
  function PersistRun<T>(entities: seq<T>, ans: Answers<T>): Run<T, T>
  {
    Settle(Perform(PersistCalls(entities), ans), [])
  }

  function MergeCalls<T>(entities: seq<T>): seq<Event<T>>
  {
    [Create, Begin]
    + seq(|entities|, i requires 0 <= i < |entities| => Merge(entities[i]))
    + [Commit, Close]
  }

  /** The list `merge` builds: the provider's managed instance of each entity, in input order. */
  function MergedAll<T>(entities: seq<T>, merged: T -> T): seq<T>
  {
    seq(|entities|, i requires 0 <= i < |entities| => merged(entities[i]))
  }

  /** `merge` on a non-empty array: the Flux emits the merged list once the transaction committed. */
  function MergeRun<T>(entities: seq<T>, ans: Answers<T>): Run<T, T>
  {
    Settle(Perform(MergeCalls(entities), ans), MergedAll(entities, ans.merged))
  }

  /** `em.remove(em.merge(entity))` for each entity in turn. */
  function MergeRemoves<T>(entities: seq<T>, merged: T -> T): seq<Event<T>>
  {
    if entities == [] then []
    else [Merge(entities[0]), Remove(merged(entities[0]))] + MergeRemoves(entities[1..], merged)
  }

  function RemoveCalls<T>(entities: seq<T>, merged: T -> T): seq<Event<T>>
  {
    [Create, Begin] + MergeRemoves(entities, merged) + [Commit, Close]
  }

  /** `remove` on a non-empty array: completes with no item. */
  function RemoveRun<T>(entities: seq<T>, ans: Answers<T>): Run<T, T>
  {
    Settle(Perform(RemoveCalls(entities, ans.merged), ans), [])
  }

  function FindCalls<T>(entityClass: string, primaryKey: T): seq<Event<T>>
  {
    [Create, Begin, Find(entityClass, primaryKey), Commit, Close]
  }

  /** `find`: the Mono carries the entity found, and is empty when the provider answered null. */
  function FindRun<T>(entityClass: string, primaryKey: T, ans: Answers<T>): Run<T, T>
  {
    Settle(Perform(FindCalls(entityClass, primaryKey), ans), Items(ans.found(entityClass, primaryKey)))
  }

  /** The unit of work an entity operation defers until subscription. */
  datatype EntityJob<T> =
    | PersistAll(entities: seq<T>)
    | MergeAll(entities: seq<T>)
    | RemoveAll(entities: seq<T>)
    | FindByKey(entityClass: string, primaryKey: T)

  function EntityRun<T>(job: EntityJob<T>, ans: Answers<T>): Run<T, T>
  {
    match job
    case PersistAll(es) => PersistRun(es, ans)
    case MergeAll(es) => MergeRun(es, ans)
    case RemoveAll(es) => RemoveRun(es, ans)
    case FindByKey(c, k) => FindRun(c, k, ans)
  }

  // ---------------------------------------------------------------------
  // doInTransaction: create and begin outside the try; the query is built,
  // executed, committed and closed inside it; the catch rolls back and
  // rethrows.
  // ---------------------------------------------------------------------

  /** What a query builder holds: its text, the result class of a typed builder, and what the setters stored. */
  datatype QueryState<T> = QueryState(
    qlString: string,
    resultClass: Option<string>,
    params: map<string, T>,
    startPosition: Int32,
    maxResult: Int32)

  /**
   * `order` lists every binding of `params` exactly once: one possible order
   * in which a HashMap's forEach hands its entries over.
   */
  ghost predicate IsEnumeration<V>(order: seq<(string, V)>, params: map<string, V>)
  {
    && multiset(Names(order)) == multiset(params.Keys)
    && forall i | 0 <= i < |order| :: order[i].0 in params && params[order[i].0] == order[i].1
  }

  /** The names of the bindings, in order. */
  function Names<V>(order: seq<(string, V)>): (names: seq<string>)
    ensures |names| == |order|
    ensures forall i | 0 <= i < |order| :: names[i] == order[i].0
  {
    seq(|order|, i requires 0 <= i < |order| => order[i].0)
  }

  /** `params.forEach(query::setParameter)`, for the traversal order `order`. */
  function ParamCalls<T>(order: seq<(string, T)>): seq<Event<T>>
  {
    seq(|order|, i requires 0 <= i < |order| => SetParam(order[i].0, order[i].1))
  }

  /** The offset and the limit are applied only when they are positive. */
  function Paging<T>(s: QueryState<T>): seq<Event<T>>
  {
    (if s.startPosition > 0 then [SetFirst(s.startPosition)] else [])
    + (if s.maxResult > 0 then [SetMax(s.maxResult)] else [])
  }

  /** The calls inside the try block. */
  function QueryBody<T>(s: QueryState<T>, t: Terminal, order: seq<(string, T)>): seq<Event<T>>
  {
    [CreateQuery(s.qlString, s.resultClass)]
    + ParamCalls(order)
    + Paging(s)
    + [Exec(t), Commit, Close]
  }

  /** Where each call sits in the try block. */
  lemma QueryBodyAt<T>(s: QueryState<T>, t: Terminal, order: seq<(string, T)>)
    ensures var b := QueryBody(s, t, order);
      && var first := if s.startPosition > 0 then 1 else 0;
      && var n := |order| + first + (if s.maxResult > 0 then 1 else 0);
      && |b| == n + 4
      && b[0] == CreateQuery(s.qlString, s.resultClass)
      && (forall i | 0 <= i < |order| :: b[i + 1] == SetParam(order[i].0, order[i].1))
      && (s.startPosition > 0 ==> b[|order| + 1] == SetFirst(s.startPosition))
      && (s.maxResult > 0 ==> b[|order| + first + 1] == SetMax(s.maxResult))
      && b[n + 1] == Exec(t) && b[n + 2] == Commit && b[n + 3] == Close
  {
    var b := QueryBody(s, t, order);
    var head := [CreateQuery(s.qlString, s.resultClass)] + ParamCalls(order);
    assert b == head + Paging(s) + [Exec(t), Commit, Close];
    forall i | 0 <= i < |order| ensures b[i + 1] == SetParam(order[i].0, order[i].1) {
      assert b[i + 1] == head[i + 1];
    }
  }

  /**
   * The transaction doInTransaction wraps around the calls `body` of its try
   * block: create and begin outside it, then the body. An exception inside
   * the try is followed by a rollback and rethrown; an exception from the
   * rollback itself replaces it.
   */
  function InTransaction<T>(body: seq<Event<T>>, ans: Answers<T>): Trace<T>
  {
    var opening := Perform([Create, Begin], ans);
    if opening.thrown.Some? then opening
    else
      var tried := Perform(body, ans);
      match tried.thrown
      case None => Trace([Create, Begin] + tried.events, None)
      case Some(f) =>
        Trace([Create, Begin] + tried.events + [Rollback],
              match ans.throws(Rollback) case Some(g) => Some(g) case None => Some(f))
  }

  /** One run of doInTransaction for the builder state `s` and the terminal `t`. */
  function QueryTrace<T>(s: QueryState<T>, t: Terminal, order: seq<(string, T)>, ans: Answers<T>): Trace<T>
  {
    InTransaction(QueryBody(s, t, order), ans)
  }

  /** `getSingleResult` (a Mono, empty on null) or `getResultList` (a Flux over the list). */
  function SelectRun<T>(s: QueryState<T>, t: Terminal, order: seq<(string, T)>, ans: Answers<T>): Run<T, T>
    requires !t.UpdateCount?
  {
    Settle(QueryTrace(s, t, order, ans), if t.SingleResult? then Items(ans.single) else ans.list)
  }

  /** `executeUpdate`: a Mono with the number of entities updated or deleted. */
  function UpdateRun<T>(s: QueryState<T>, order: seq<(string, T)>, ans: Answers<T>): Run<T, Int32>
  {
    Settle(QueryTrace(s, UpdateCount, order, ans), [ans.updated])
  }
}
