/**
 * What one subscription to persist, merge, remove or find records and
 * signals. None of these units of work has an exception handler: when a
 * provider call throws, the run stops there, the transaction is neither
 * committed nor rolled back and the entity manager is never closed.
 */
module EntityProperties {
  import opened Jpa
  import opened UnitsOfWork

  /** Where each entity's merge and remove fall in the calls of `remove`. */
  lemma {:induction false} MergeRemovesAt<T>(entities: seq<T>, merged: T -> T)
    ensures |MergeRemoves(entities, merged)| == 2 * |entities|
    ensures forall i | 0 <= i < |entities| ::
      && MergeRemoves(entities, merged)[2 * i] == Merge(entities[i])
      && MergeRemoves(entities, merged)[2 * i + 1] == Remove(merged(entities[i]))
  {
    if entities != [] {
      var rest := entities[1..];
      MergeRemovesAt(rest, merged);
      var mr := MergeRemoves(entities, merged);
      assert mr == [Merge(entities[0]), Remove(merged(entities[0]))] + MergeRemoves(rest, merged);
      forall i | 1 <= i < |entities|
        ensures mr[2 * i] == Merge(entities[i]) && mr[2 * i + 1] == Remove(merged(entities[i]))
      {
        assert mr[2 * i] == MergeRemoves(rest, merged)[2 * (i - 1)];
        assert mr[2 * i + 1] == MergeRemoves(rest, merged)[2 * (i - 1) + 1];
        assert rest[i - 1] == entities[i];
      }
    }
  }

  /** `persist`: create, begin, one persist per entity in input order, commit, close. */
  lemma PersistCallsAt<T>(entities: seq<T>)
    ensures var c := PersistCalls(entities);
      && |c| == |entities| + 4
      && c[0] == Create && c[1] == Begin
      && (forall i | 0 <= i < |entities| :: c[i + 2] == Persist(entities[i]))
      && c[|entities| + 2] == Commit && c[|entities| + 3] == Close
  {
  }

  /** `merge`: create, begin, one merge per entity in input order, commit, close. */
  lemma MergeCallsAt<T>(entities: seq<T>)
    ensures var c := MergeCalls(entities);
      && |c| == |entities| + 4
      && c[0] == Create && c[1] == Begin
      && (forall i | 0 <= i < |entities| :: c[i + 2] == Merge(entities[i]))
      && c[|entities| + 2] == Commit && c[|entities| + 3] == Close
  {
  }

  /** `remove`: create, begin, a merge then a remove of the managed instance per entity, commit, close. */
  lemma RemoveCallsAt<T>(entities: seq<T>, merged: T -> T)
    ensures var c := RemoveCalls(entities, merged);
      && |c| == 2 * |entities| + 4
      && c[0] == Create && c[1] == Begin
      && (forall i | 0 <= i < |entities| ::
            c[2 * i + 2] == Merge(entities[i]) && c[2 * i + 3] == Remove(merged(entities[i])))
      && c[2 * |entities| + 2] == Commit && c[2 * |entities| + 3] == Close
  {
    MergeRemovesAt(entities, merged);
    var c := RemoveCalls(entities, merged);
    var mr := MergeRemoves(entities, merged);
    forall i | 0 <= i < |entities|
      ensures c[2 * i + 2] == Merge(entities[i]) && c[2 * i + 3] == Remove(merged(entities[i]))
    {
      assert c[2 * i + 2] == mr[2 * i] && c[2 * i + 3] == mr[2 * i + 1];
    }
  }

  /** The calls an entity operation plans, given the provider's merge. */
  function EntityCalls<T>(job: EntityJob<T>, merged: T -> T): seq<Event<T>>
  {
    match job
    case PersistAll(es) => PersistCalls(es)
    case MergeAll(es) => MergeCalls(es)
    case RemoveAll(es) => RemoveCalls(es, merged)
    case FindByKey(c, k) => FindCalls(c, k)
  }

  /**
   * A unit of work with its own entity manager and transaction: create and
   * begin first, commit then close last, no rollback anywhere and no close
   * before the end.
   */
  ghost predicate Bracketed<T>(c: seq<Event<T>>)
  {
    && 4 <= |c|
    && c[0] == Create && c[1] == Begin
    && c[|c| - 2] == Commit && c[|c| - 1] == Close
    && (forall i | 0 <= i < |c| :: c[i] != Rollback)
    && (forall i | 0 <= i < |c| - 1 :: c[i] != Close)
  }

  lemma PersistBracketed<T>(entities: seq<T>)
    ensures Bracketed(PersistCalls(entities))
  {
    PersistCallsAt(entities);
    var c := PersistCalls(entities);
    forall i | 2 <= i < |c| - 2 ensures c[i] != Rollback && c[i] != Close {
      assert c[(i - 2) + 2] == Persist(entities[i - 2]);
    }
  }

  lemma MergeBracketed<T>(entities: seq<T>)
    ensures Bracketed(MergeCalls(entities))
  {
    MergeCallsAt(entities);
    var c := MergeCalls(entities);
    forall i | 2 <= i < |c| - 2 ensures c[i] != Rollback && c[i] != Close {
      assert c[(i - 2) + 2] == Merge(entities[i - 2]);
    }
  }

  lemma RemoveBracketed<T>(entities: seq<T>, merged: T -> T)
    ensures Bracketed(RemoveCalls(entities, merged))
  {
    RemoveCallsAt(entities, merged);
    var c := RemoveCalls(entities, merged);
    forall i | 2 <= i < |c| - 2 ensures c[i] != Rollback && c[i] != Close {
      var j := (i - 2) / 2;
      if i % 2 == 0 {
        assert c[2 * j + 2] == Merge(entities[j]);
      } else {
        assert c[2 * j + 3] == Remove(merged(entities[j]));
      }
    }
  }

  /** Every entity operation opens its own entity manager and transaction and plans no rollback at all. */
  lemma EntityCallsShape<T>(job: EntityJob<T>, merged: T -> T)
    ensures Bracketed(EntityCalls(job, merged))
  {
    match job
    case PersistAll(es) => PersistBracketed(es);
    case MergeAll(es) => MergeBracketed(es);
    case RemoveAll(es) => RemoveBracketed(es, merged);
    case FindByKey(c, k) =>
  }

  /** An entity operation's run is its planned calls made in order. */
  lemma EntityRunPerforms<T>(job: EntityJob<T>, ans: Answers<T>)
    ensures var r := EntityRun(job, ans);
      var tr := Perform(EntityCalls(job, ans.merged), ans);
      && r.events == tr.events
      && (r.signal.Error? <==> tr.thrown.Some?)
      && (r.signal.Error? ==> tr.thrown == Some(r.signal.fault))
  {
  }

  /**
   * A committed `persist`: it completes, with no item, exactly when no call
   * throws, and then every entity was persisted once, in input order, inside
   * one transaction that was committed and whose entity manager was closed.
   */
  lemma PersistCommitted<T>(entities: seq<T>, ans: Answers<T>)
    ensures PersistRun(entities, ans).signal.Complete? <==> Clean(PersistCalls(entities), ans)
    ensures PersistRun(entities, ans).signal.Complete? ==>
      var ev := PersistRun(entities, ans).events;
      && PersistRun(entities, ans).signal.items == []
      && |ev| == |entities| + 4
      && ev[0] == Create && ev[1] == Begin
      && (forall i | 0 <= i < |entities| :: ev[i + 2] == Persist(entities[i]))
      && ev[|entities| + 2] == Commit && ev[|entities| + 3] == Close
  {
    PerformReturns(PersistCalls(entities), ans);
    PersistCallsAt(entities);
  }

  /**
   * A committed `merge`: it completes exactly when no call throws, and then
   * it emits the provider's managed instance of every entity, in input order,
   * after one transaction that was committed and closed.
   */
  lemma MergeCommitted<T>(entities: seq<T>, ans: Answers<T>)
    ensures MergeRun(entities, ans).signal.Complete? <==> Clean(MergeCalls(entities), ans)
    ensures MergeRun(entities, ans).signal.Complete? ==>
      var ev := MergeRun(entities, ans).events;
      var items := MergeRun(entities, ans).signal.items;
      && |items| == |entities|
      && (forall i | 0 <= i < |entities| :: items[i] == ans.merged(entities[i]))
      && |ev| == |entities| + 4
      && ev[0] == Create && ev[1] == Begin
      && (forall i | 0 <= i < |entities| :: ev[i + 2] == Merge(entities[i]))
      && ev[|entities| + 2] == Commit && ev[|entities| + 3] == Close
  {
    PerformReturns(MergeCalls(entities), ans);
    MergeCallsAt(entities);
  }

  /**
   * A committed `remove`: it completes exactly when no call throws, and then
   * each entity was merged and the instance the merge returned removed, in
   * input order, inside one committed and closed transaction.
   */
  lemma RemoveCommitted<T>(entities: seq<T>, ans: Answers<T>)
    ensures RemoveRun(entities, ans).signal.Complete? <==> Clean(RemoveCalls(entities, ans.merged), ans)
    ensures RemoveRun(entities, ans).signal.Complete? ==>
      var ev := RemoveRun(entities, ans).events;
      && RemoveRun(entities, ans).signal.items == []
      && |ev| == 2 * |entities| + 4
      && ev[0] == Create && ev[1] == Begin
      && (forall i | 0 <= i < |entities| ::
            ev[2 * i + 2] == Merge(entities[i]) && ev[2 * i + 3] == Remove(ans.merged(entities[i])))
      && ev[2 * |entities| + 2] == Commit && ev[2 * |entities| + 3] == Close
  {
    PerformReturns(RemoveCalls(entities, ans.merged), ans);
    RemoveCallsAt(entities, ans.merged);
  }

  /**
   * A committed `find`: it completes exactly when no call throws; the Mono
   * then carries the entity found, and is empty, not failed, when the
   * provider found nothing.
   */
  lemma FindCommitted<T>(entityClass: string, primaryKey: T, ans: Answers<T>)
    ensures FindRun(entityClass, primaryKey, ans).signal.Complete? <==> Clean(FindCalls(entityClass, primaryKey), ans)
    ensures FindRun(entityClass, primaryKey, ans).signal.Complete? ==>
      && FindRun(entityClass, primaryKey, ans).events == [Create, Begin, Find(entityClass, primaryKey), Commit, Close]
      && FindRun(entityClass, primaryKey, ans).signal.items ==
           match ans.found(entityClass, primaryKey) case None => [] case Some(e) => [e]
  {
    PerformReturns(FindCalls(entityClass, primaryKey), ans);
  }

  /**
   * A bracketed unit of work with no handler that fails: it stopped at the
   * call that threw, never rolled back, and closed only if the close threw.
   */
  lemma BracketedAborts<T>(plan: seq<Event<T>>, ans: Answers<T>)
    requires Bracketed(plan) && Perform(plan, ans).thrown.Some?
    ensures var tr := Perform(plan, ans);
      var n := |tr.events|;
      && 0 < n <= |plan| && tr.events == plan[..n]
      && tr.thrown == ans.throws(tr.events[n - 1])
      && Clean(tr.events[..n - 1], ans)
      && Rollback !in tr.events
      && (Close in tr.events ==> tr.events == plan && ans.throws(Close).Some?)
  {
    var tr := Perform(plan, ans);
    PerformReturns(plan, ans);
    PerformStops(plan, ans);
    var n := |tr.events|;
    assert tr.events == plan[..n];
    if Close in tr.events {
      var j :| 0 <= j < n && tr.events[j] == Close;
      assert plan[j] == Close;
    }
  }

  /**
   * A failed entity operation stops at the call that threw and signals that
   * exception: the calls made are a prefix of the plan, all but the last
   * returned, no rollback is ever attempted, and the entity manager was not
   * closed, unless it was the close that threw.
   */
  lemma EntityAborted<T>(job: EntityJob<T>, ans: Answers<T>)
    requires EntityRun(job, ans).signal.Error?
    ensures var r := EntityRun(job, ans);
      var plan := EntityCalls(job, ans.merged);
      var n := |r.events|;
      && 0 < n <= |plan| && r.events == plan[..n]
      && Some(r.signal.fault) == ans.throws(r.events[n - 1])
      && Clean(r.events[..n - 1], ans)
      && Rollback !in r.events
      && (Close in r.events ==> r.events == plan && ans.throws(Close).Some?)
  {
    EntityRunPerforms(job, ans);
    EntityCallsShape(job, ans.merged);
    BracketedAborts(EntityCalls(job, ans.merged), ans);
  }
}
