/**
 * ReactiveEntityManagerImpl: the entity operations and the deferred query
 * builders, as objects over the provider's call log.
 *
 * Calling an operation only builds a handle (the Mono or Flux the caller gets
 * back); no provider call is made until the handle is subscribed. Each
 * subscription runs the unit of work once, on a fresh entity manager, with the
 * provider's answers for that run.
 */
module ReactiveJpa {
  import opened Jpa
  import opened UnitsOfWork
  import EntityProperties

  /** A Mono or Flux handed back to the caller: the unit of work it runs on subscription. */
  datatype Handle<T> =
    | Empty                                                         // Mono.empty() / Flux.empty()
    | EntityWork(owner: ReactiveEntityManager<T>, job: EntityJob<T>)
    | QueryWork(query: ReactiveQuery<T>, terminal: Terminal)       // getSingleResult / getResultList

  /** The Mono<Integer> of executeUpdate. */
  datatype UpdateHandle<T> = UpdateWork(query: ReactiveQuery<T>)

  /** The provider a handle talks to when subscribed. */
  function Frame<T>(h: Handle<T>): set<object>
  {
    match h
    case Empty => {}
    case EntityWork(owner, _) => {owner.emf}
    case QueryWork(q, _) => {q.owner.emf}
  }

  /**
   * The order in which `HashMap.forEach` hands over the entries of `m`:
   * every binding exactly once, in an order the model leaves open.
   */
  method IterationOrder<V>(m: map<string, V>) returns (order: seq<(string, V)>)
    ensures IsEnumeration(order, m)
  {
    order := [];
    var rest := m.Keys;
    while rest != {}
      invariant rest <= m.Keys
      invariant multiset(Names(order)) + multiset(rest) == multiset(m.Keys)
      invariant forall i | 0 <= i < |order| :: order[i].0 in m && m[order[i].0] == order[i].1
      decreases |rest|
    {
      var n :| n in rest;
      assert multiset(rest) == multiset(rest - {n}) + multiset{n};
      assert Names(order + [(n, m[n])]) == Names(order) + [n];
      order := order + [(n, m[n])];
      rest := rest - {n};
    }
  }

  class ReactiveEntityManager<T> {
    const emf: EntityManagerFactory<T>

    constructor (emf: EntityManagerFactory<T>)
      ensures this.emf == emf
    {
      this.emf := emf;
    }

    /** `persist(entities...)`: a null or empty array gives Mono.empty() and no unit of work. */
    function Persist(entities: Option<seq<T>>): (h: Handle<T>)
      ensures h.Empty? <==> (entities.None? || entities.value == [])
      ensures !h.Empty? ==> h.EntityWork? && h.owner == this && h.job == PersistAll(entities.value)
    {
      if entities.None? || |entities.value| == 0 then Empty
      else EntityWork(this, PersistAll(entities.value))
    }

    /** `merge(entities...)`: a null or empty array gives Flux.empty() and no unit of work. */
    function Merge(entities: Option<seq<T>>): (h: Handle<T>)
      ensures h.Empty? <==> (entities.None? || entities.value == [])
      ensures !h.Empty? ==> h.EntityWork? && h.owner == this && h.job == MergeAll(entities.value)
    {
      if entities.None? || |entities.value| == 0 then Empty
      else EntityWork(this, MergeAll(entities.value))
    }

    /** `remove(entities...)`: a null or empty array gives Mono.empty() and no unit of work. */
    function Remove(entities: Option<seq<T>>): (h: Handle<T>)
      ensures h.Empty? <==> (entities.None? || entities.value == [])
      ensures !h.Empty? ==> h.EntityWork? && h.owner == this && h.job == RemoveAll(entities.value)
    {
      if entities.None? || |entities.value| == 0 then Empty
      else EntityWork(this, RemoveAll(entities.value))
    }

    /** `find(entityClass, primaryKey)`: always a unit of work, there is no shortcut. */
    function Find(entityClass: string, primaryKey: T): (h: Handle<T>)
      ensures h.EntityWork? && h.owner == this && h.job == FindByKey(entityClass, primaryKey)
    {
      EntityWork(this, FindByKey(entityClass, primaryKey))
    }

    /** `createQuery(qlString, resultClass)`: a fresh typed builder with nothing set. */
    method CreateTypedQuery(qlString: string, resultClass: string) returns (q: ReactiveQuery<T>)
      ensures fresh(q) && q.owner == this
      ensures q.State() == QueryState(qlString, Some(resultClass), map[], 0, 0)
    {
      q := new ReactiveQuery(this, qlString, Some(resultClass));
    }

    /** `createQuery(qlString)`: a fresh untyped builder with nothing set. */
    method CreateQuery(qlString: string) returns (q: ReactiveQuery<T>)
      ensures fresh(q) && q.owner == this
      ensures q.State() == QueryState(qlString, None, map[], 0, 0)
    {
      q := new ReactiveQuery(this, qlString, None);
    }

    /** The unit of work of `persist`: begin, persist each entity in order, commit, close. */
    method RunPersist(entities: seq<T>, ans: Answers<T>) returns (s: Signal<T>)
      modifies emf
      ensures emf.log == old(emf.log) + PersistRun(entities, ans).events
      ensures s == PersistRun(entities, ans).signal
    {
      ghost var calls := PersistCalls(entities);
      ghost var start := emf.log;
      var thrown := emf.Open(calls, start, ans);
      if thrown.Some? { return Error(thrown.value); }
      for i := 0 to |entities|
        invariant Reached(calls, i + 2, ans) && emf.log == start + calls[..i + 2]
      {
        thrown := emf.CallPlanned(Event.Persist(entities[i]), calls, i + 2, start, ans);
        if thrown.Some? { return Error(thrown.value); }
      }
      thrown := emf.Finish(calls, start, ans);
      if thrown.Some? { return Error(thrown.value); }
      s := Complete([]);
    }

    /** The unit of work of `merge`: collect the provider's merged instances in an ArrayList. */
    method RunMerge(entities: seq<T>, ans: Answers<T>) returns (s: Signal<T>)
      modifies emf
      ensures emf.log == old(emf.log) + MergeRun(entities, ans).events
      ensures s == MergeRun(entities, ans).signal
    {
      ghost var calls := MergeCalls(entities);
      ghost var start := emf.log;
      var merged: seq<T> := [];
      var thrown := emf.Open(calls, start, ans);
      if thrown.Some? { return Error(thrown.value); }
      for i := 0 to |entities|
        invariant Reached(calls, i + 2, ans) && emf.log == start + calls[..i + 2]
        invariant merged == MergedAll(entities[..i], ans.merged)
      {
        thrown := emf.CallPlanned(Event.Merge(entities[i]), calls, i + 2, start, ans);
        if thrown.Some? { return Error(thrown.value); }
        merged := merged + [ans.merged(entities[i])];
        assert entities[..i + 1] == entities[..i] + [entities[i]];
      }
      thrown := emf.Finish(calls, start, ans);
      if thrown.Some? { return Error(thrown.value); }
      assert entities[..|entities|] == entities;
      s := Complete(merged);
    }

    /** The unit of work of `remove`: merge each entity, then remove the managed instance. */
    method RunRemove(entities: seq<T>, ans: Answers<T>) returns (s: Signal<T>)
      modifies emf
      ensures emf.log == old(emf.log) + RemoveRun(entities, ans).events
      ensures s == RemoveRun(entities, ans).signal
    {
      ghost var calls := RemoveCalls(entities, ans.merged);
      ghost var start := emf.log;
      EntityProperties.RemoveCallsAt(entities, ans.merged);
      var thrown := emf.Open(calls, start, ans);
      if thrown.Some? { return Error(thrown.value); }
      for i := 0 to |entities|
        invariant Reached(calls, 2 * i + 2, ans) && emf.log == start + calls[..2 * i + 2]
      {
        thrown := emf.CallPlanned(Event.Merge(entities[i]), calls, 2 * i + 2, start, ans);
        if thrown.Some? { return Error(thrown.value); }
        var managed := ans.merged(entities[i]);
        thrown := emf.CallPlanned(Event.Remove(managed), calls, 2 * i + 3, start, ans);
        if thrown.Some? { return Error(thrown.value); }
      }
      thrown := emf.Finish(calls, start, ans);
      if thrown.Some? { return Error(thrown.value); }
      s := Complete([]);
    }

    /** The unit of work of `find`: the entity found, or an empty Mono when the provider answers null. */
    method RunFind(entityClass: string, primaryKey: T, ans: Answers<T>) returns (s: Signal<T>)
      modifies emf
      ensures emf.log == old(emf.log) + FindRun(entityClass, primaryKey, ans).events
      ensures s == FindRun(entityClass, primaryKey, ans).signal
    {
      ghost var calls := FindCalls(entityClass, primaryKey);
      ghost var start := emf.log;
      var thrown := emf.Open(calls, start, ans);
      if thrown.Some? { return Error(thrown.value); }
      thrown := emf.CallPlanned(Event.Find(entityClass, primaryKey), calls, 2, start, ans);
      if thrown.Some? { return Error(thrown.value); }
      var entity := ans.found(entityClass, primaryKey);
      thrown := emf.Finish(calls, start, ans);
      if thrown.Some? { return Error(thrown.value); }
      s := Complete(Items(entity));
    }
  }

  /**
   * ReactiveTypedQueryImpl (`resultClass` is `Some`) and ReactiveQueryImpl
   * (`resultClass` is `None`) in one class: the setters only store, and each
   * terminal method defers a doInTransaction over what is stored when the
   * handle is subscribed.
   */
  class ReactiveQuery<T> {
    const owner: ReactiveEntityManager<T>
    const qlString: string
    const resultClass: Option<string>
    var params: map<string, T>
    var startPosition: Int32
    var maxResult: Int32

    constructor (owner: ReactiveEntityManager<T>, qlString: string, resultClass: Option<string>)
      ensures this.owner == owner
      ensures State() == QueryState(qlString, resultClass, map[], 0, 0)
    {
      this.owner := owner;
      this.qlString := qlString;
      this.resultClass := resultClass;
      params := map[];
      startPosition := 0;
      maxResult := 0;
    }

    /** Everything a run of this builder reads. */
    function State(): QueryState<T>
      reads this
    {
      QueryState(qlString, resultClass, params, startPosition, maxResult)
    }

    /** Stores the binding (a later value for the same name replaces the earlier one) and returns this builder. */
    method SetParameter(name: string, value: T) returns (self: ReactiveQuery<T>)
      modifies this
      ensures self == this
      ensures State() == old(State()).(params := old(params)[name := value])
      ensures owner.emf.log == old(owner.emf.log)
    {
      params := params[name := value];
      self := this;
    }

    /** Stores the offset, unchecked, and returns this builder. */
    method SetFirstResult(startPosition: Int32) returns (self: ReactiveQuery<T>)
      modifies this
      ensures self == this
      ensures State() == old(State()).(startPosition := startPosition)
      ensures owner.emf.log == old(owner.emf.log)
    {
      this.startPosition := startPosition;
      self := this;
    }

    /** Stores the limit, unchecked, and returns this builder. */
    method SetMaxResults(maxResult: Int32) returns (self: ReactiveQuery<T>)
      modifies this
      ensures self == this
      ensures State() == old(State()).(maxResult := maxResult)
      ensures owner.emf.log == old(owner.emf.log)
    {
      this.maxResult := maxResult;
      self := this;
    }

    /** `getSingleResult()`: a Mono that runs doInTransaction on this builder when subscribed. */
    function GetSingleResult(): (h: Handle<T>)
      ensures h.QueryWork? && h.query == this && h.terminal == SingleResult
    {
      QueryWork(this, SingleResult)
    }

    /** `getResultList()`: a Flux that runs doInTransaction on this builder when subscribed. */
    function GetResultList(): (h: Handle<T>)
      ensures h.QueryWork? && h.query == this && h.terminal == ResultList
    {
      QueryWork(this, ResultList)
    }

    /** `executeUpdate()`, which only the untyped builder has. */
    function ExecuteUpdate(): (h: UpdateHandle<T>)
      requires resultClass.None?
      ensures h.query == this
    {
      UpdateWork(this)
    }

    /**
     * doInTransaction: create and begin, then, inside the try, build the
     * query, replay every binding in the map's traversal order, apply the
     * offset and the limit when positive, execute, commit and close; the
     * catch rolls back and rethrows, without closing.
     */
    method DoInTransaction(t: Terminal, ans: Answers<T>) returns (thrown: Option<Fault>, order: seq<(string, T)>)
      modifies owner.emf
      ensures IsEnumeration(order, params)
      ensures owner.emf.log == old(owner.emf.log) + QueryTrace(State(), t, order, ans).events
      ensures thrown == QueryTrace(State(), t, order, ans).thrown
    {
      var emf := owner.emf;
      order := IterationOrder(params);
      ghost var opening: seq<Event<T>> := [Create, Begin];
      ghost var start := emf.log;
      thrown := emf.Open(opening, start, ans);
      if thrown.Some? { return; }
      PerformEnd(opening, ans);
      ghost var body := Perform(QueryBody(State(), t, order), ans);
      thrown := TryBlock(t, order, ans);
      assert emf.log == start + (opening + body.events);
      if thrown.Some? {
        var failure := emf.Call(Rollback, ans);
        assert emf.log == start + (opening + body.events + [Rollback]);
        if failure.Some? { thrown := failure; }
      }
    }

    /** The try block of doInTransaction; any exception escapes to the caller. */
    method TryBlock(t: Terminal, order: seq<(string, T)>, ans: Answers<T>) returns (thrown: Option<Fault>)
      modifies owner.emf
      ensures owner.emf.log == old(owner.emf.log) + Perform(QueryBody(State(), t, order), ans).events
      ensures thrown == Perform(QueryBody(State(), t, order), ans).thrown
    {
      var emf := owner.emf;
      ghost var calls := QueryBody(State(), t, order);
      ghost var start := emf.log;
      QueryBodyAt(State(), t, order);
      thrown := emf.CallPlanned(CreateQuery(qlString, resultClass), calls, 0, start, ans);
      if thrown.Some? { return; }
      thrown := ReplayParameters(order, calls, start, ans);
      if thrown.Some? { return; }
      thrown := ApplyPaging(|order| + 1, calls, start, ans);
      if thrown.Some? { return; }
      thrown := emf.CallPlanned(Exec(t), calls, |calls| - 3, start, ans);
      if thrown.Some? { return; }
      thrown := emf.Finish(calls, start, ans);
    }

    /** `params.forEach(query::setParameter)`: calls 1 to `|order|` of `calls`. */
    method ReplayParameters(order: seq<(string, T)>, ghost calls: seq<Event<T>>, ghost start: seq<Event<T>>, ans: Answers<T>)
      returns (thrown: Option<Fault>)
      requires |order| + 1 <= |calls|
      requires forall i | 0 <= i < |order| :: calls[i + 1] == SetParam(order[i].0, order[i].1)
      requires Reached(calls, 1, ans) && owner.emf.log == start + calls[..1]
      modifies owner.emf
      ensures thrown.None? ==> Reached(calls, |order| + 1, ans) && owner.emf.log == start + calls[..|order| + 1]
      ensures thrown.Some? ==> Perform(calls, ans).thrown == thrown && owner.emf.log == start + Perform(calls, ans).events
    {
      thrown := None;
      for i := 0 to |order|
        invariant thrown.None? && Reached(calls, i + 1, ans) && owner.emf.log == start + calls[..i + 1]
      {
        thrown := owner.emf.CallPlanned(SetParam(order[i].0, order[i].1), calls, i + 1, start, ans);
        if thrown.Some? { return; }
      }
    }

    /** `setFirstResult` and `setMaxResults` on the provider's query, each only for a positive value. */
    method ApplyPaging(k: nat, ghost calls: seq<Event<T>>, ghost start: seq<Event<T>>, ans: Answers<T>)
      returns (thrown: Option<Fault>)
      requires var first := if startPosition > 0 then 1 else 0;
        && k + first + (if maxResult > 0 then 1 else 0) + 3 == |calls|
        && (startPosition > 0 ==> calls[k] == SetFirst(startPosition))
        && (maxResult > 0 ==> calls[k + first] == SetMax(maxResult))
      requires Reached(calls, k, ans) && owner.emf.log == start + calls[..k]
      modifies owner.emf
      ensures thrown.None? ==> Reached(calls, |calls| - 3, ans) && owner.emf.log == start + calls[..|calls| - 3]
      ensures thrown.Some? ==> Perform(calls, ans).thrown == thrown && owner.emf.log == start + Perform(calls, ans).events
    {
      thrown := None;
      ghost var j := k;
      if startPosition > 0 {
        thrown := owner.emf.CallPlanned(SetFirst(startPosition), calls, j, start, ans);
        if thrown.Some? { return; }
        j := j + 1;
      }
      if maxResult > 0 {
        thrown := owner.emf.CallPlanned(SetMax(maxResult), calls, j, start, ans);
      }
    }
  }

  /**
   * Subscribing to a handle: runs its unit of work once. The empty handle
   * makes no provider call; a query handle reads the builder as it is at
   * subscription time and leaves it as it was.
   */
  method Subscribe<T>(h: Handle<T>, ans: Answers<T>) returns (s: Signal<T>, order: seq<(string, T)>)
    requires h.QueryWork? ==> !h.terminal.UpdateCount?
    modifies Frame(h)
    ensures h.Empty? ==> s == Complete([])
    ensures h.EntityWork? ==>
      && h.owner.emf.log == old(h.owner.emf.log) + EntityRun(h.job, ans).events
      && s == EntityRun(h.job, ans).signal
    ensures h.QueryWork? ==>
      && h.query.State() == old(h.query.State())
      && IsEnumeration(order, h.query.params)
      && h.query.owner.emf.log == old(h.query.owner.emf.log) + SelectRun(h.query.State(), h.terminal, order, ans).events
      && s == SelectRun(h.query.State(), h.terminal, order, ans).signal
  {
    order := [];
    match h
    case Empty =>
      s := Complete([]);
    case EntityWork(owner, job) =>
      match job {
        case PersistAll(es) => s := owner.RunPersist(es, ans);
        case MergeAll(es) => s := owner.RunMerge(es, ans);
        case RemoveAll(es) => s := owner.RunRemove(es, ans);
        case FindByKey(c, k) => s := owner.RunFind(c, k, ans);
      }
    case QueryWork(q, t) =>
      var thrown;
      thrown, order := q.DoInTransaction(t, ans);
      match thrown
      case Some(f) => s := Error(f);
      case None => s := Complete(if t.SingleResult? then Items(ans.single) else ans.list);
  }

  /** Subscribing to the Mono of executeUpdate. */
  method SubscribeUpdate<T>(h: UpdateHandle<T>, ans: Answers<T>) returns (s: Signal<Int32>, order: seq<(string, T)>)
    modifies h.query.owner.emf
    ensures h.query.State() == old(h.query.State())
    ensures IsEnumeration(order, h.query.params)
    ensures h.query.owner.emf.log == old(h.query.owner.emf.log) + UpdateRun(h.query.State(), order, ans).events
    ensures s == UpdateRun(h.query.State(), order, ans).signal
  {
    var thrown;
    thrown, order := h.query.DoInTransaction(UpdateCount, ans);
    match thrown
    case Some(f) => s := Error(f);
    case None => s := Complete([ans.updated]);
  }
}
