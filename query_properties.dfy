/**
 * What one subscription to getSingleResult, getResultList or executeUpdate
 * records and signals, and why the order in which the stored bindings are
 * replayed does not matter.
 */
module QueryProperties {
  import opened Jpa
  import opened UnitsOfWork

  /** Two equal elements at distinct positions count twice. */
  lemma CountsTwice<X>(s: seq<X>, i: nat, j: nat)
    requires i < j < |s| && s[i] == s[j]
    ensures multiset(s)[s[i]] >= 2
  {
    assert s == s[..j] + [s[j]] + s[j + 1..];
    assert s[i] in s[..j];
  }

  /**
   * An enumeration of a map lists as many bindings as the map has, each
   * name at most once, and every name of the map.
   */
  lemma EnumerationFacts<V>(order: seq<(string, V)>, params: map<string, V>)
    requires IsEnumeration(order, params)
    ensures |order| == |params|
    ensures forall i, j | 0 <= i < j < |order| :: order[i].0 != order[j].0
    ensures forall n | n in params :: exists i | 0 <= i < |order| :: order[i].0 == n
  {
    var names := Names(order);
    assert |names| == |multiset(names)| == |multiset(params.Keys)| == |params.Keys|;
    forall i, j | 0 <= i < j < |order| ensures order[i].0 != order[j].0 {
      if order[i].0 == order[j].0 {
        CountsTwice(names, i, j);
      }
    }
    forall n | n in params ensures exists i | 0 <= i < |order| :: order[i].0 == n {
      assert n in multiset(names);
      var i :| 0 <= i < |names| && names[i] == n;
      assert order[i].0 == n;
    }
  }

  /** `e` sets a binding that `params` holds, with the value stored under its name. */
  ghost predicate IsBinding<T>(e: Event<T>, params: map<string, T>)
  {
    e.SetParam? && e.name in params && params[e.name] == e.value
  }

  /**
   * `params.forEach(query::setParameter)` hands the provider every stored
   * binding exactly once, each with the value stored last under its name,
   * and nothing else.
   */
  lemma ParamsReplayedOnce<T>(order: seq<(string, T)>, params: map<string, T>)
    requires IsEnumeration(order, params)
    ensures |ParamCalls(order)| == |params|
    ensures forall e :: multiset(ParamCalls(order))[e] == if IsBinding(e, params) then 1 else 0
  {
    EnumerationFacts(order, params);
    var pc := ParamCalls(order);
    forall i, j | 0 <= i < j < |pc| ensures pc[i] != pc[j] {
      assert pc[i].name == order[i].0 && pc[j].name == order[j].0;
    }
    DistinctCounts(pc);
    forall e ensures multiset(pc)[e] == if IsBinding(e, params) then 1 else 0 {
      if e in pc {
        var i :| 0 <= i < |pc| && pc[i] == e;
        assert IsBinding(e, params);
      }
      if IsBinding(e, params) {
        var i :| 0 <= i < |order| && order[i].0 == e.name;
        assert pc[i] == e;
      }
    }
  }

  /** A sequence without repetitions holds each of its elements once. */
  lemma {:induction false} DistinctCounts<X>(xs: seq<X>)
    requires forall i, j | 0 <= i < j < |xs| :: xs[i] != xs[j]
    ensures forall x :: multiset(xs)[x] == if x in xs then 1 else 0
  {
    if xs != [] {
      var rest := xs[1..];
      forall i, j | 0 <= i < j < |rest| ensures rest[i] != rest[j] {
        assert rest[i] == xs[i + 1] && rest[j] == xs[j + 1];
      }
      DistinctCounts(rest);
      assert xs == [xs[0]] + rest;
      assert xs[0] !in rest;
      forall x ensures multiset(xs)[x] == if x in xs then 1 else 0 {
        assert multiset(xs) == multiset{xs[0]} + multiset(rest);
        assert x in xs <==> x == xs[0] || x in rest;
      }
    }
  }

  /** Any two traversal orders of the same map replay the same calls, only permuted. */
  lemma ReplayOrderIrrelevant<T>(o1: seq<(string, T)>, o2: seq<(string, T)>, params: map<string, T>)
    requires IsEnumeration(o1, params) && IsEnumeration(o2, params)
    ensures |o1| == |o2|
    ensures multiset(ParamCalls(o1)) == multiset(ParamCalls(o2))
  {
    ParamsReplayedOnce(o1, params);
    ParamsReplayedOnce(o2, params);
    assert forall e :: multiset(ParamCalls(o1))[e] == multiset(ParamCalls(o2))[e];
  }

  /** Whether every call of a sequence returns depends only on its calls, not their order. */
  lemma CleanPermuted<T>(p1: seq<Event<T>>, p2: seq<Event<T>>, ans: Answers<T>)
    requires multiset(p1) == multiset(p2) && Clean(p1, ans)
    ensures Clean(p2, ans)
  {
    forall j | 0 <= j < |p2| ensures ans.throws(p2[j]).None? {
      assert p2[j] in multiset(p1);
      var i :| 0 <= i < |p1| && p1[i] == p2[j];
    }
  }

  /** A block of calls that all return is passed through as it is. */
  lemma CleanBlock<T>(pre: seq<Event<T>>, p: seq<Event<T>>, post: seq<Event<T>>, ans: Answers<T>)
    requires Clean(p, ans)
    ensures Perform(pre + p + post, ans) ==
      var a := Perform(pre, ans);
      if a.thrown.Some? then a else Prefixed(pre + p, Perform(post, ans))
  {
    assert pre + p + post == pre + (p + post);
    PerformConcat(pre, p + post, ans);
    PerformConcat(p, post, ans);
    PerformReturns(p, ans);
    assert pre + (p + Perform(post, ans).events) == pre + p + Perform(post, ans).events;
  }

  /** Replacing a block of a sequence by a permutation of it changes nothing outside the block. */
  lemma SameOutsideBlock<X>(a: seq<X>, p1: seq<X>, p2: seq<X>, c: seq<X>)
    requires multiset(p1) == multiset(p2)
    ensures |a + p1 + c| == |a + p2 + c|
    ensures multiset(a + p1 + c) == multiset(a + p2 + c)
    ensures forall i | 0 <= i < |a + p1 + c| && (i < |a| || |a| + |p1| <= i) :: (a + p1 + c)[i] == (a + p2 + c)[i]
  {
    assert |p1| == |multiset(p1)| == |multiset(p2)| == |p2|;
  }

  /**
   * Two transactions whose try blocks differ only in the order of a block of
   * calls that all return end the same way and make the same calls, only
   * permuted inside that block.
   */
  lemma PermutedBlock<T>(pre: seq<Event<T>>, p1: seq<Event<T>>, p2: seq<Event<T>>, post: seq<Event<T>>, ans: Answers<T>)
    requires multiset(p1) == multiset(p2) && Clean(p1, ans)
    ensures var r1 := InTransaction(pre + p1 + post, ans);
      var r2 := InTransaction(pre + p2 + post, ans);
      && r1.thrown == r2.thrown
      && |r1.events| == |r2.events|
      && multiset(r1.events) == multiset(r2.events)
      && (forall i | 0 <= i < |r1.events| && (i < 2 + |pre| || 2 + |pre| + |p1| <= i) :: r1.events[i] == r2.events[i])
  {
    CleanPermuted(p1, p2, ans);
    OpeningTrace(ans);
    if ans.throws(Create).None? && ans.throws(Begin).None? {
      if Perform(pre, ans).thrown.None? {
        OpenedBlock(pre, p1, post, ans);
        OpenedBlock(pre, p2, post, ans);
        var rest := Perform(post, ans);
        SameOutsideBlock([Create, Begin] + pre, p1, p2, rest.events + if rest.thrown.Some? then [Rollback] else []);
      } else {
        CleanBlock(pre, p1, post, ans);
        CleanBlock(pre, p2, post, ans);
      }
    }
  }

  /** A transaction that opened and got through `pre` passes the block `p` of calls that all return. */
  lemma OpenedBlock<T>(pre: seq<Event<T>>, p: seq<Event<T>>, post: seq<Event<T>>, ans: Answers<T>)
    requires ans.throws(Create).None? && ans.throws(Begin).None?
    requires Perform(pre, ans).thrown.None? && Clean(p, ans)
    ensures var rest := Perform(post, ans);
      var r := InTransaction(pre + p + post, ans);
      && r.events == [Create, Begin] + pre + p + (rest.events + if rest.thrown.Some? then [Rollback] else [])
      && r.thrown == (if rest.thrown.None? then None else if ans.throws(Rollback).Some? then ans.throws(Rollback) else rest.thrown)
  {
    OpeningTrace(ans);
    CleanBlock(pre, p, post, ans);
  }

  /** What remains of the try block once every binding has been set. */
  function AfterParams<T>(s: QueryState<T>, t: Terminal): seq<Event<T>>
  {
    Paging(s) + [Exec(t), Commit, Close]
  }

  /**
   * Two runs of doInTransaction that differ only in the traversal order of
   * the same bindings, where the provider accepts every binding, end the
   * same way, make the same calls outside the block of setParameter calls,
   * and make the same calls overall, up to order.
   */
  lemma RunsAgreeUpToParamOrder<T>(s: QueryState<T>, t: Terminal, o1: seq<(string, T)>, o2: seq<(string, T)>, ans: Answers<T>)
    requires IsEnumeration(o1, s.params) && IsEnumeration(o2, s.params)
    requires Clean(ParamCalls(o1), ans)
    ensures var r1 := QueryTrace(s, t, o1, ans);
      var r2 := QueryTrace(s, t, o2, ans);
      && r1.thrown == r2.thrown
      && |r1.events| == |r2.events|
      && multiset(r1.events) == multiset(r2.events)
      && (forall i | 0 <= i < |r1.events| && (i < 3 || 3 + |o1| <= i) :: r1.events[i] == r2.events[i])
  {
    ReplayOrderIrrelevant(o1, o2, s.params);
    var pre: seq<Event<T>> := [CreateQuery(s.qlString, s.resultClass)];
    assert QueryBody(s, t, o1) == pre + ParamCalls(o1) + AfterParams(s, t);
    assert QueryBody(s, t, o2) == pre + ParamCalls(o2) + AfterParams(s, t);
    PermutedBlock(pre, ParamCalls(o1), ParamCalls(o2), AfterParams(s, t), ans);
  }

  /**
   * The shape of a try block: execute, commit and close are its last three
   * calls; it never creates, begins or rolls back; and it neither commits
   * nor closes before the end.
   */
  ghost predicate TryShaped<T>(b: seq<Event<T>>, t: Terminal)
  {
    && 4 <= |b| && b[|b| - 3] == Exec(t) && b[|b| - 2] == Commit && b[|b| - 1] == Close
    && (forall i | 0 <= i < |b| :: b[i] != Rollback && b[i] != Create && b[i] != Begin)
    && (forall i | 0 <= i < |b| - 2 :: b[i] != Commit && b[i] != Close)
  }

  /** The try block of doInTransaction has that shape. */
  lemma QueryBodyShape<T>(s: QueryState<T>, t: Terminal, order: seq<(string, T)>)
    ensures TryShaped(QueryBody(s, t, order), t)
  {
    var b := QueryBody(s, t, order);
    QueryBodyAt(s, t, order);
    forall i | 0 <= i < |b|
      ensures b[i] != Rollback && b[i] != Create && b[i] != Begin
      ensures i < |b| - 2 ==> b[i] != Commit && b[i] != Close
    {
      if 1 <= i <= |order| {
        assert b[(i - 1) + 1] == SetParam(order[i - 1].0, order[i - 1].1);
      }
    }
  }

  /**
   * A committed transaction: it ends normally exactly when no call throws,
   * and then it made every planned call, ending with execute, commit and
   * close, and never rolled back.
   */
  lemma TransactionCommitted<T>(body: seq<Event<T>>, t: Terminal, ans: Answers<T>)
    requires TryShaped(body, t)
    ensures InTransaction(body, ans).thrown.None? <==>
      ans.throws(Create).None? && ans.throws(Begin).None? && Clean(body, ans)
    ensures InTransaction(body, ans).thrown.None? ==>
      var ev := InTransaction(body, ans).events;
      && ev == [Create, Begin] + body
      && ev[|ev| - 3..] == [Exec(t), Commit, Close]
      && Rollback !in ev
  {
    OpeningTrace(ans);
    PerformReturns(body, ans);
    if InTransaction(body, ans).thrown.None? {
      OpenedTry(body, ans);
      CommittedShape(body, t);
    }
  }

  /** The calls of a transaction that ran its whole shaped try block. */
  lemma CommittedShape<T>(body: seq<Event<T>>, t: Terminal)
    requires TryShaped(body, t)
    ensures var ev := [Create, Begin] + body;
      ev[|ev| - 3..] == [Exec(t), Commit, Close] && Rollback !in ev
  {
    var ev := [Create, Begin] + body;
    assert ev[|ev| - 3..] == body[|body| - 3..];
    forall i | 0 <= i < |ev| ensures ev[i] != Rollback {
      if 2 <= i {
        assert ev[i] == body[i - 2];
      }
    }
  }

  /**
   * A committed query: besides the above, the provider saw the query created
   * right after begin, then every stored binding.
   */
  lemma QueryCommitted<T>(s: QueryState<T>, t: Terminal, order: seq<(string, T)>, ans: Answers<T>)
    ensures QueryTrace(s, t, order, ans).thrown.None? <==>
      ans.throws(Create).None? && ans.throws(Begin).None? && Clean(QueryBody(s, t, order), ans)
    ensures QueryTrace(s, t, order, ans).thrown.None? ==>
      var ev := QueryTrace(s, t, order, ans).events;
      && |ev| == 6 + |order| + |Paging(s)|
      && ev[2] == CreateQuery(s.qlString, s.resultClass)
      && ev[3..3 + |order|] == ParamCalls(order)
      && ev[3 + |order|..|ev| - 3] == Paging(s)
      && ev[|ev| - 3..] == [Exec(t), Commit, Close]
      && Rollback !in ev
  {
    QueryBodyShape(s, t, order);
    TransactionCommitted(QueryBody(s, t, order), t, ans);
    OpenedQueryLayout(s, t, order);
  }

  /** Where the query, its bindings and its paging sit among the calls of a whole transaction. */
  lemma OpenedQueryLayout<T>(s: QueryState<T>, t: Terminal, order: seq<(string, T)>)
    ensures var ev := [Create, Begin] + QueryBody(s, t, order);
      && |ev| == 6 + |order| + |Paging(s)|
      && ev[2] == CreateQuery(s.qlString, s.resultClass)
      && ev[3..3 + |order|] == ParamCalls(order)
      && ev[3 + |order|..|ev| - 3] == Paging(s)
  {
    var pre: seq<Event<T>> := [Create, Begin, CreateQuery(s.qlString, s.resultClass)];
    var ev := [Create, Begin] + QueryBody(s, t, order);
    assert ev == pre + ParamCalls(order) + AfterParams(s, t);
    assert ev[3..3 + |order|] == ParamCalls(order);
    assert ev[3 + |order|..|ev| - 3] == Paging(s);
  }

  /**
   * A transaction whose try block throws is rolled back and the exception is
   * rethrown, or replaced by the rollback's own; the transaction was
   * committed only if it was the commit or the close that threw, and the
   * entity manager is never closed on this path, unless it was the close
   * itself that threw.
   */
  lemma TransactionRolledBack<T>(body: seq<Event<T>>, t: Terminal, ans: Answers<T>)
    requires TryShaped(body, t)
    requires ans.throws(Create).None? && ans.throws(Begin).None? && Perform(body, ans).thrown.Some?
    ensures var r := InTransaction(body, ans);
      var b := Perform(body, ans);
      var n := |b.events|;
      && r.events == [Create, Begin] + b.events + [Rollback]
      && 0 < n <= |body| && b.events == body[..n]
      && b.thrown == ans.throws(b.events[n - 1])
      && r.thrown == (if ans.throws(Rollback).Some? then ans.throws(Rollback) else b.thrown)
      && (Commit in r.events ==> b.events[n - 1] == Commit || b.events[n - 1] == Close)
      && (Close in r.events ==> b.events == body && ans.throws(Close).Some?)
  {
    var b := Perform(body, ans);
    OpenedTry(body, ans);
    PerformReturns(body, ans);
    PerformStops(body, ans);
    var n := |b.events|;
    assert b.events == body[..n];
    CloseOnlyLast(body, t, [Create, Begin], n, [Rollback]);
    CommitOnlyLate(body, t, [Create, Begin], n, [Rollback]);
  }

  /** A prefix of a shaped try block, between calls that are not commit, holds commit only if it ends with commit or close. */
  lemma CommitOnlyLate<T>(body: seq<Event<T>>, t: Terminal, pre: seq<Event<T>>, n: nat, post: seq<Event<T>>)
    requires TryShaped(body, t) && 0 < n <= |body|
    requires Commit !in pre && Commit !in post
    ensures Commit in pre + body[..n] + post ==> body[n - 1] == Commit || body[n - 1] == Close
  {
    if Commit in pre + body[..n] + post {
      var j :| 0 <= j < |pre + body[..n] + post| && (pre + body[..n] + post)[j] == Commit;
      assert body[j - |pre|] == Commit;
    }
  }

  /** A prefix of a shaped try block, between calls that are not close, holds close only if it is the whole block. */
  lemma CloseOnlyLast<T>(body: seq<Event<T>>, t: Terminal, pre: seq<Event<T>>, n: nat, post: seq<Event<T>>)
    requires TryShaped(body, t) && n <= |body|
    requires Close !in pre && Close !in post
    ensures Close in pre + body[..n] + post ==> n == |body|
  {
    if Close in pre + body[..n] + post {
      var j :| 0 <= j < |pre + body[..n] + post| && (pre + body[..n] + post)[j] == Close;
      assert body[j - |pre|] == Close;
    }
  }

  /** What createEntityManager and begin, the calls before the try block, record and throw. */
  lemma OpeningTrace<T>(ans: Answers<T>)
    ensures Perform([Create, Begin], ans) ==
      if ans.throws(Create).Some? then Trace([Create], ans.throws(Create))
      else if ans.throws(Begin).Some? then Trace([Create, Begin], ans.throws(Begin))
      else Trace([Create, Begin], None)
  {
    var opening: seq<Event<T>> := [Create, Begin];
    PerformCons(opening, ans);
    PerformCons(opening[1..], ans);
    PerformNil(ans);
  }

  /** A transaction whose opening returned is its try block, then a rollback if that threw. */
  lemma OpenedTry<T>(body: seq<Event<T>>, ans: Answers<T>)
    requires ans.throws(Create).None? && ans.throws(Begin).None?
    ensures var b := Perform(body, ans);
      InTransaction(body, ans) ==
        if b.thrown.None? then Trace([Create, Begin] + b.events, None)
        else Trace([Create, Begin] + b.events + [Rollback],
                   if ans.throws(Rollback).Some? then ans.throws(Rollback) else b.thrown)
  {
    OpeningTrace(ans);
  }

  /** The first `k` calls all returned. */
  lemma {:induction false} CleanReached<T>(calls: seq<Event<T>>, k: nat, ans: Answers<T>)
    requires k <= |calls| && Clean(calls[..k], ans)
    ensures Reached(calls, k, ans)
  {
    if k > 0 {
      assert calls[..k - 1] == calls[..k][..k - 1];
      assert calls[k - 1] == calls[..k][k - 1];
      CleanReached(calls, k - 1, ans);
    }
  }

  /**
   * When the execution itself fails (the statement is rejected, a single
   * result is not unique, ...), the run ends with the execution and a
   * rollback: nothing is committed and the entity manager is not closed.
   */
  lemma TransactionExecFails<T>(body: seq<Event<T>>, t: Terminal, ans: Answers<T>)
    requires TryShaped(body, t)
    requires ans.throws(Create).None? && ans.throws(Begin).None? && Clean(body[..|body| - 3], ans)
    requires ans.throws(Exec(t)).Some?
    ensures var r := InTransaction(body, ans);
      && r.events == [Create, Begin] + body[..|body| - 2] + [Rollback]
      && r.events[|r.events| - 2..] == [Exec(t), Rollback]
      && Commit !in r.events && Close !in r.events
      && r.thrown == (if ans.throws(Rollback).Some? then ans.throws(Rollback) else ans.throws(Exec(t)))
  {
    CleanReached(body, |body| - 3, ans);
    PerformStep(body, |body| - 3, ans);
    OpenedTry(body, ans);
    var r := InTransaction(body, ans);
    var pre := body[..|body| - 2];
    assert r.events == [Create, Begin] + pre + [Rollback];
    forall j | 0 <= j < |r.events| ensures r.events[j] != Commit && r.events[j] != Close {
      if 2 <= j < |r.events| - 1 {
        assert r.events[j] == body[j - 2];
      }
    }
  }

  /**
   * createEntityManager and begin are outside the try block: when either
   * throws, nothing is rolled back and the exception escapes as it is.
   */
  lemma TransactionOpenFails<T>(body: seq<Event<T>>, ans: Answers<T>)
    ensures ans.throws(Create).Some? ==>
      InTransaction(body, ans) == Trace([Create], ans.throws(Create))
    ensures ans.throws(Create).None? && ans.throws(Begin).Some? ==>
      InTransaction(body, ans) == Trace([Create, Begin], ans.throws(Begin))
  {
    OpeningTrace(ans);
  }
}
