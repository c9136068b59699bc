/**
 * The JPA provider as the adapter sees it: an opaque blocking API.
 *
 * Every call the adapter makes on the entity manager factory, on an entity
 * manager, on its transaction or on a query it built is recorded as an
 * `Event`. Whether a call throws, and what the provider answers, is decided by
 * an `Answers` oracle supplied for each unit of work; nothing else about the
 * provider (persistence context, query parsing, the exception taxonomy) is
 * modelled.
 */
module Jpa {

  datatype Option<T> = None | Some(value: T)

  /** A Java `int`. */
  type Int32 = x: int | -0x8000_0000 <= x < 0x8000_0000

  /** An exception raised by the provider; the adapter passes it on untouched. */
  datatype Fault = Fault(name: string)

  /** The three ways of executing a built query. */
  datatype Terminal = SingleResult | ResultList | UpdateCount

  /** One provider call. */
  datatype Event<T> =
    | Create                                       // EntityManagerFactory.createEntityManager()
    | Begin                                        // em.getTransaction().begin()
    | Persist(entity: T)                           // em.persist(entity)
    | Merge(entity: T)                             // em.merge(entity)
    | Remove(entity: T)                            // em.remove(entity)
    | Find(entityClass: string, primaryKey: T)     // em.find(entityClass, primaryKey)
    | CreateQuery(qlString: string, resultClass: Option<string>)  // em.createQuery(ql[, resultClass])
    | SetParam(name: string, value: T)             // query.setParameter(name, value)
    | SetFirst(startPosition: Int32)               // query.setFirstResult(startPosition)
    | SetMax(maxResult: Int32)                     // query.setMaxResults(maxResult)
    | Exec(terminal: Terminal)                     // getSingleResult / getResultList / executeUpdate
    | Commit                                       // em.getTransaction().commit()
    | Rollback                                     // em.getTransaction().rollback()
    | Close                                        // em.close()

  /**
   * What the provider does during one unit of work: which calls throw (and
   * what), the managed instance `merge` hands back, what `find` answers
   * (`None` is Java's null), and the answers of the three query executions.
   */
  datatype Answers<!T> = Answers(
    throws: Event<T> -> Option<Fault>,
    merged: T -> T,
    found: (string, T) -> Option<T>,
    single: Option<T>,
    list: seq<T>,
    updated: Int32)

  /** No call in `calls` throws. */
  predicate Clean<T>(calls: seq<Event<T>>, ans: Answers<T>)
  {
    forall i | 0 <= i < |calls| :: ans.throws(calls[i]).None?
  }

  /** The calls that were actually made, and the exception that ended them, if any. */
  datatype Trace<T> = Trace(events: seq<Event<T>>, thrown: Option<Fault>)

  /**
   * Making `calls[k..]` one after the other with no handler around them: the
   * first call that throws is the last one made, and its exception escapes.
   */
  function PerformFrom<T>(calls: seq<Event<T>>, k: nat, ans: Answers<T>): Trace<T>
    requires k <= |calls|
    decreases |calls| - k
  {
    if k == |calls| then Trace([], None)
    else
      match ans.throws(calls[k])
      case Some(f) => Trace([calls[k]], Some(f))
      case None => Prefixed([calls[k]], PerformFrom(calls, k + 1, ans))
  }

  /** Making all of `calls`. */
  function Perform<T>(calls: seq<Event<T>>, ans: Answers<T>): Trace<T>
  {
    PerformFrom(calls, 0, ans)
  }

  /** `done` returned normally, then `rest` happened. */
  function Prefixed<T>(done: seq<Event<T>>, rest: Trace<T>): (r: Trace<T>)
    ensures r.thrown == rest.thrown
    ensures |r.events| == |done| + |rest.events|
    ensures r.events[..|done|] == done && r.events[|done|..] == rest.events
  {
    Trace(done + rest.events, rest.thrown)
  }

  /** Where the calls start does not matter, only which calls are left. */
  lemma {:induction false} PerformFromShift<T>(calls: seq<Event<T>>, k: nat, j: nat, ans: Answers<T>)
    requires k + j <= |calls|
    ensures PerformFrom(calls, k + j, ans) == PerformFrom(calls[k..], j, ans)
    decreases |calls| - k - j
  {
    if k + j < |calls| {
      PerformFromShift(calls, k, j + 1, ans);
      assert calls[k..][j] == calls[k + j];
    }
  }

  /** The first call either throws, ending the unit of work, or returns and the rest are made. */
  lemma PerformCons<T>(calls: seq<Event<T>>, ans: Answers<T>)
    requires calls != []
    ensures Perform(calls, ans) ==
      match ans.throws(calls[0])
      case Some(f) => Trace([calls[0]], Some(f))
      case None => Prefixed([calls[0]], Perform(calls[1..], ans))
  {
    PerformFromShift(calls, 1, 0, ans);
  }

  /** Nothing to call. */
  lemma PerformNil<T>(ans: Answers<T>)
    ensures Perform([], ans) == Trace([], None)
  {
  }

  /**
   * The calls made are a prefix of those planned; the unit of work runs to
   * its end exactly when none of its calls throws, and then every planned
   * call is made.
   */
  lemma {:induction false} PerformReturns<T>(calls: seq<Event<T>>, ans: Answers<T>)
    ensures var r := Perform(calls, ans);
      && r.events <= calls
      && (r.thrown.None? <==> Clean(calls, ans))
      && (r.thrown.None? ==> r.events == calls)
  {
    if calls != [] {
      PerformCons(calls, ans);
    }
    if calls != [] && ans.throws(calls[0]).None? {
      PerformReturns(calls[1..], ans);
      assert calls == [calls[0]] + calls[1..];
      assert Clean(calls, ans) <==> Clean(calls[1..], ans) by {
        if Clean(calls[1..], ans) {
          forall i | 0 <= i < |calls| ensures ans.throws(calls[i]).None? {
            if i > 0 { assert calls[i] == calls[1..][i - 1]; }
          }
        }
      }
    }
  }

  /** Performing `a + b` is performing `a`, then, if nothing threw, `b`. */
  lemma {:induction false} PerformConcat<T>(a: seq<Event<T>>, b: seq<Event<T>>, ans: Answers<T>)
    ensures Perform(a + b, ans) ==
      (var ra := Perform(a, ans);
       if ra.thrown.Some? then ra else Prefixed(a, Perform(b, ans)))
  {
    if a == [] {
      assert a + b == b;
    } else {
      PerformCons(a, ans);
      PerformCons(a + b, ans);
      assert (a + b)[0] == a[0];
      assert (a + b)[1..] == a[1..] + b;
      if ans.throws(a[0]).None? {
        PerformConcat(a[1..], b, ans);
        assert [a[0]] + a[1..] == a;
      }
    }
  }

  /** When a unit of work stops on an exception, the last call made is the one that threw, and every call before it returned. */
  lemma {:induction false} PerformStops<T>(calls: seq<Event<T>>, ans: Answers<T>)
    requires Perform(calls, ans).thrown.Some?
    ensures var r := Perform(calls, ans);
      && |r.events| > 0
      && Clean(r.events[..|r.events| - 1], ans)
      && r.thrown == ans.throws(r.events[|r.events| - 1])
  {
    if calls == [] {
      PerformNil(ans);
    }
    PerformCons(calls, ans);
    if ans.throws(calls[0]).None? {
      PerformStops(calls[1..], ans);
      var rest := Perform(calls[1..], ans).events;
      assert Perform(calls, ans).events == [calls[0]] + rest;
      assert ([calls[0]] + rest)[..|rest|] == [calls[0]] + rest[..|rest| - 1];
    }
  }

  /** The first `k` planned calls have all returned. */
  predicate Reached<T>(calls: seq<Event<T>>, k: nat, ans: Answers<T>)
    decreases k
  {
    k <= |calls| && (k == 0 || (Reached(calls, k - 1, ans) && ans.throws(calls[k - 1]).None?))
  }

  /** Once the first `k` calls have returned, what remains to happen is the rest of the calls. */
  lemma {:induction false} ReachedPerform<T>(calls: seq<Event<T>>, k: nat, ans: Answers<T>)
    requires Reached(calls, k, ans)
    ensures Perform(calls, ans) == Prefixed(calls[..k], PerformFrom(calls, k, ans))
  {
    if k == 0 {
      assert calls[..0] + Perform(calls, ans).events == Perform(calls, ans).events;
    } else {
      ReachedPerform(calls, k - 1, ans);
      var tail := PerformFrom(calls, k, ans);
      assert calls[..k - 1] + ([calls[k - 1]] + tail.events) == calls[..k] + tail.events;
    }
  }

  /** Call `k` is made: it either ends the unit of work with its exception, or returns. */
  lemma PerformStep<T>(calls: seq<Event<T>>, k: nat, ans: Answers<T>)
    requires k < |calls| && Reached(calls, k, ans)
    ensures calls[..k + 1] == calls[..k] + [calls[k]]
    ensures ans.throws(calls[k]).Some? ==>
      Perform(calls, ans) == Trace(calls[..k + 1], ans.throws(calls[k]))
    ensures ans.throws(calls[k]).None? ==> Reached(calls, k + 1, ans)
  {
    ReachedPerform(calls, k, ans);
    assert calls[..k] + [calls[k]] == calls[..k + 1];
  }

  /** Every planned call has returned. */
  lemma PerformEnd<T>(calls: seq<Event<T>>, ans: Answers<T>)
    requires Reached(calls, |calls|, ans)
    ensures Perform(calls, ans) == Trace(calls, None)
  {
    ReachedPerform(calls, |calls|, ans);
    assert calls[..|calls|] == calls;
  }

  /**
   * The entity manager factory together with the entity managers it hands
   * out: `log` holds every provider call made through them, oldest first.
   */
  class EntityManagerFactory<T> {
    var log: seq<Event<T>>

    constructor ()
      ensures log == []
    {
      log := [];
    }

    /** Make one provider call; it is recorded whether or not it throws. */
    method Call(ev: Event<T>, ans: Answers<T>) returns (thrown: Option<Fault>)
      modifies this
      ensures log == old(log) + [ev]
      ensures thrown == ans.throws(ev)
    {
      log := log + [ev];
      thrown := ans.throws(ev);
    }

    /**
     * Make `ev`, planned as call `k` of a unit of work whose earlier calls
     * have all returned and were logged after `start`.
     */
    method CallPlanned(ev: Event<T>, ghost calls: seq<Event<T>>, ghost k: nat, ghost start: seq<Event<T>>, ans: Answers<T>)
      returns (thrown: Option<Fault>)
      requires k < |calls| && ev == calls[k]
      requires Reached(calls, k, ans) && log == start + calls[..k]
      modifies this
      ensures thrown == ans.throws(ev)
      ensures thrown.None? ==> Reached(calls, k + 1, ans) && log == start + calls[..k + 1]
      ensures thrown.Some? ==> Perform(calls, ans).thrown == thrown && log == start + Perform(calls, ans).events
    {
      thrown := Call(ev, ans);
      PerformStep(calls, k, ans);
      assert start + calls[..k] + [ev] == start + calls[..k + 1];
    }

    /** `createEntityManager()` then `getTransaction().begin()`, the first two calls of `calls`. */
    method Open(ghost calls: seq<Event<T>>, ghost start: seq<Event<T>>, ans: Answers<T>) returns (thrown: Option<Fault>)
      requires 2 <= |calls| && calls[0] == Create && calls[1] == Begin && log == start
      modifies this
      ensures thrown.None? ==> Reached(calls, 2, ans) && log == start + calls[..2]
      ensures thrown.Some? ==> Perform(calls, ans).thrown == thrown && log == start + Perform(calls, ans).events
    {
      assert start == start + calls[..0];
      thrown := CallPlanned(Create, calls, 0, start, ans);
      if thrown.Some? { return; }
      thrown := CallPlanned(Begin, calls, 1, start, ans);
    }

    /** `commit()` then `close()`, the last two calls of `calls`, every earlier one having returned. */
    method Finish(ghost calls: seq<Event<T>>, ghost start: seq<Event<T>>, ans: Answers<T>) returns (thrown: Option<Fault>)
      requires 2 <= |calls| && calls[|calls| - 2] == Commit && calls[|calls| - 1] == Close
      requires Reached(calls, |calls| - 2, ans) && log == start + calls[..|calls| - 2]
      modifies this
      ensures thrown == Perform(calls, ans).thrown && log == start + Perform(calls, ans).events
    {
      var n := |calls| - 2;
      thrown := CallPlanned(Commit, calls, n, start, ans);
      if thrown.Some? { return; }
      thrown := CallPlanned(Close, calls, n + 1, start, ans);
      if thrown.Some? { return; }
      PerformEnd(calls, ans);
    }
  }
}
