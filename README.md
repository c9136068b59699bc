# Reactive JPA entity manager — a Dafny model of its transactional protocol

This project models `ReactiveEntityManagerImpl` from simter-reactive-jpa. The class puts a reactive
front (Reactor `Mono` and `Flux`) on a blocking JPA `EntityManagerFactory`, and the model covers:

* The entity operations `persist`, `merge`, `remove` and `find`. Each returns a deferred handle.
  Subscribing to the handle runs one unit of work on a fresh entity manager:
  create, begin, the provider calls, commit, close.
* The two `createQuery` overloads and the builders they return: `ReactiveTypedQueryImpl` and
  `ReactiveQueryImpl`. Their setters only store a value. Their terminal methods (`getSingleResult`,
  `getResultList`, `executeUpdate`) defer a `doInTransaction`. That method opens a transaction and,
  inside a `try`, builds the provider query. It then replays the stored bindings, applies the
  offset and the limit when they are positive, executes, commits and closes. Its `catch` rolls back
  and rethrows.

The provider is not modelled: the provider calls are only recorded, never interpreted.
`Jpa.EntityManagerFactory` keeps a log of every call made through it (`Jpa.Event`). Each run also
takes an oracle, `Jpa.Answers`, which gives the provider's answers for that run:
* which call throws, and with which exception;
* what `merge` and `find` return;
* the single result, the result list and the update count.

A unit of work is specified as a planned list of calls. `Jpa.Perform` runs that list up to and
including the first call that throws. The imperative lambda bodies are
`ReactiveJpa.ReactiveEntityManager.RunPersist` … `RunFind` and
`ReactiveJpa.ReactiveQuery.DoInTransaction`. Each is proved to append exactly the trace of its
specification function (`UnitsOfWork.PersistRun` … `UnitsOfWork.QueryTrace`) to the log, and to
signal exactly that function's result. Lemmas in `EntityProperties` and `QueryProperties` then
state what those traces mean: commit, rollback and close behaviour, error propagation, and the
order of calls.

`HashMap.forEach` hands over its entries in an unspecified order. `ReactiveJpa.IterationOrder`
therefore returns *some* enumeration of the stored bindings, and the query trace is a function of
that order. The replay properties are stated over multisets.

Both query builder classes are modelled by one class, `ReactiveJpa.ReactiveQuery`. The typed
builder has `resultClass == Some(name)`; the untyped builder has `None` and is the only one with
`executeUpdate`. Their `doInTransaction` bodies are the same apart from the `createQuery`
overload.

The model follows the code as written, including the places where its paths treat failure
differently:

* **No handler in the entity operations.** The query builders' `doInTransaction` rolls back in a
  `catch` (ReactiveEntityManagerImpl.java lines 162-165). `persist`, `merge`, `remove` and `find`
  have no `try`/`catch` at all (lines 46-95). A failing provider call ends their run, which
  neither rolls back nor closes the entity manager (`EntityProperties.EntityAborted`).
* **The catch path of `doInTransaction` never closes.** The success path calls `em.close()` after
  the commit (line 160). The catch path (lines 162-165 and 228-231) rolls back and rethrows but
  never calls `em.close()` (`QueryProperties.TransactionRolledBack`,
  `QueryProperties.TransactionExecFails`).
* **A failing rollback replaces the original exception.** The rollback's own exception escapes
  and the original exception is lost (`UnitsOfWork.InTransaction`).
* **Negative offsets and limits are accepted.** The javadoc of `setFirstResult` and
  `setMaxResults` says a negative argument throws `IllegalArgumentException` (ReactiveQuery.java
  lines 25-40). The implementation stores any value unchecked. `doInTransaction` then forwards the
  value only when it is positive, so a negative (or zero) value is silently ignored and never
  reaches the provider.

## Model

| member | source | states |
|---|---|---|
| Jpa.EntityManagerFactory.Call | src/main/java/tech/simter/reactive/jpa/impl/ReactiveEntityManagerImpl.java:38-40 | every provider call is appended to the log, and throws exactly what the oracle says for it |
| Jpa.EntityManagerFactory.Open | src/main/java/tech/simter/reactive/jpa/impl/ReactiveEntityManagerImpl.java:47-48 | createEntityManager then begin, stopping at the first that throws: on success both are logged and the plan has reached its third call; on failure the log and the exception are those of the whole plan's run |
| Jpa.EntityManagerFactory.Finish | src/main/java/tech/simter/reactive/jpa/impl/ReactiveEntityManagerImpl.java:50-51 | commit then close as the last two planned calls: afterwards the log and the exception are exactly those of the whole plan's run (lines 65-66, 80-81, 92-93, 159-160 alike) |
| Jpa.Perform | src/main/java/tech/simter/reactive/jpa/impl/ReactiveEntityManagerImpl.java:47-51 | definition: the calls of a plan made in order up to and including the first one that throws, and that call's exception; its properties are PerformReturns, PerformStops and PerformConcat |
| Jpa.PerformReturns | src/main/java/tech/simter/reactive/jpa/impl/ReactiveEntityManagerImpl.java:47-51 | the statements of a unit of work run in order: the calls made are a prefix of the plan; the run ends normally iff no planned call throws, and then every planned call was made |
| Jpa.PerformStops | src/main/java/tech/simter/reactive/jpa/impl/ReactiveEntityManagerImpl.java:47-51 | a run that throws stopped at the throwing call: every earlier call returned, and the exception is that call's |
| Jpa.PerformConcat | src/main/java/tech/simter/reactive/jpa/impl/ReactiveEntityManagerImpl.java:151-161 | running two blocks of statements one after the other is running the first, then the second only if the first returned |
| UnitsOfWork.QueryBodyAt | src/main/java/tech/simter/reactive/jpa/impl/ReactiveEntityManagerImpl.java:151-161 | the try block of doInTransaction (lines 217-227 alike) makes createQuery, one setParameter per binding, setFirstResult only when positive, setMaxResults only when positive, the execution, commit and close, in that order |
| UnitsOfWork.Settle | src/main/java/tech/simter/reactive/jpa/impl/ReactiveJpaWrapperImpl.java:39-52 | definition: an exception that escapes a unit of work becomes the error signal of its Mono or Flux; otherwise the signal completes with the unit's items |
| UnitsOfWork.Items | src/main/java/tech/simter/reactive/jpa/impl/ReactiveJpaWrapperImpl.java:44-47 | definition: `Mono.fromCallable` completes empty when the callable returns null and with one item otherwise (used by FindCommitted) |
| UnitsOfWork.PersistCalls | src/main/java/tech/simter/reactive/jpa/impl/ReactiveEntityManagerImpl.java:47-51 | definition: the plan of the persist lambda; its layout is PersistCallsAt and its shape PersistBracketed |
| UnitsOfWork.PersistRun | src/main/java/tech/simter/reactive/jpa/impl/ReactiveEntityManagerImpl.java:46-52 | definition: one subscription of persist, completing with no item (fromRunnable); decided by PersistCommitted and EntityAborted |
| UnitsOfWork.MergeCalls | src/main/java/tech/simter/reactive/jpa/impl/ReactiveEntityManagerImpl.java:62-66 | definition: the plan of the merge lambda; its layout is MergeCallsAt and its shape MergeBracketed |
| UnitsOfWork.MergedAll | src/main/java/tech/simter/reactive/jpa/impl/ReactiveEntityManagerImpl.java:61-64 | definition: the ArrayList the merge lambda fills, the provider's merged instance of each entity in input order (MergeCommitted) |
| UnitsOfWork.MergeRun | src/main/java/tech/simter/reactive/jpa/impl/ReactiveEntityManagerImpl.java:60-68 | definition: one subscription of merge, emitting that list (fromIterable); decided by MergeCommitted and EntityAborted |
| UnitsOfWork.MergeRemoves | src/main/java/tech/simter/reactive/jpa/impl/ReactiveEntityManagerImpl.java:79 | definition: `em.remove(em.merge(entity))` for each entity; its layout is MergeRemovesAt |
| UnitsOfWork.RemoveCalls | src/main/java/tech/simter/reactive/jpa/impl/ReactiveEntityManagerImpl.java:77-81 | definition: the plan of the remove lambda; its layout is RemoveCallsAt and its shape RemoveBracketed |
| UnitsOfWork.RemoveRun | src/main/java/tech/simter/reactive/jpa/impl/ReactiveEntityManagerImpl.java:76-82 | definition: one subscription of remove, completing with no item; decided by RemoveCommitted and EntityAborted |
| UnitsOfWork.FindCalls | src/main/java/tech/simter/reactive/jpa/impl/ReactiveEntityManagerImpl.java:89-93 | definition: the plan of the find lambda: create, begin, find, commit, close |
| UnitsOfWork.FindRun | src/main/java/tech/simter/reactive/jpa/impl/ReactiveEntityManagerImpl.java:88-95 | definition: one subscription of find, carrying the entity found or nothing; decided by FindCommitted and EntityAborted |
| UnitsOfWork.EntityRun | src/main/java/tech/simter/reactive/jpa/impl/ReactiveEntityManagerImpl.java:42-96 | definition: the run of whichever entity operation a handle defers |
| UnitsOfWork.IsEnumeration | src/main/java/tech/simter/reactive/jpa/impl/ReactiveEntityManagerImpl.java:153 | definition: a sequence of entries lists every binding of the map exactly once with its stored value, one possible HashMap traversal (EnumerationFacts) |
| UnitsOfWork.ParamCalls | src/main/java/tech/simter/reactive/jpa/impl/ReactiveEntityManagerImpl.java:153 | definition: one setParameter call per entry of a traversal, in traversal order (ParamsReplayedOnce, ReplayOrderIrrelevant) |
| UnitsOfWork.Paging | src/main/java/tech/simter/reactive/jpa/impl/ReactiveEntityManagerImpl.java:154-155 | definition: setFirstResult when the stored offset is positive, then setMaxResults when the stored limit is positive (QueryCommitted) |
| UnitsOfWork.QueryBody | src/main/java/tech/simter/reactive/jpa/impl/ReactiveEntityManagerImpl.java:151-161 | definition: the calls of the try block (lines 217-227 alike); its layout is QueryBodyAt and its shape QueryBodyShape |
| UnitsOfWork.InTransaction | src/main/java/tech/simter/reactive/jpa/impl/ReactiveEntityManagerImpl.java:148-166 | definition: the try/catch of doInTransaction (lines 214-232 alike): create and begin outside the try; on an exception inside it one rollback, no close, and the rollback's own exception replacing the original; decided by TransactionCommitted, TransactionRolledBack, TransactionExecFails and TransactionOpenFails |
| UnitsOfWork.QueryTrace | src/main/java/tech/simter/reactive/jpa/impl/ReactiveEntityManagerImpl.java:148-166 | definition: doInTransaction for a builder state, a terminal and a traversal order (QueryCommitted, RunsAgreeUpToParamOrder) |
| UnitsOfWork.SelectRun | src/main/java/tech/simter/reactive/jpa/impl/ReactiveEntityManagerImpl.java:139-146 | definition: one subscription of getSingleResult (empty on a null result) or getResultList (lines 199-207 alike) |
| UnitsOfWork.UpdateRun | src/main/java/tech/simter/reactive/jpa/impl/ReactiveEntityManagerImpl.java:210-212 | definition: one subscription of executeUpdate, completing with the update count |
| EntityProperties.PersistCallsAt | src/main/java/tech/simter/reactive/jpa/impl/ReactiveEntityManagerImpl.java:47-51 | persist plans create, begin, one persist per entity in input order, commit, close |
| EntityProperties.MergeCallsAt | src/main/java/tech/simter/reactive/jpa/impl/ReactiveEntityManagerImpl.java:62-66 | merge plans create, begin, one merge per entity in input order, commit, close |
| EntityProperties.MergeRemovesAt | src/main/java/tech/simter/reactive/jpa/impl/ReactiveEntityManagerImpl.java:79 | `em.remove(em.merge(entity))` per entity is a merge of the entity followed by a remove of the instance that merge returned, entity after entity |
| EntityProperties.RemoveCallsAt | src/main/java/tech/simter/reactive/jpa/impl/ReactiveEntityManagerImpl.java:77-81 | remove plans create, begin, that merge/remove pair per entity, commit, close |
| EntityProperties.PersistBracketed | src/main/java/tech/simter/reactive/jpa/impl/ReactiveEntityManagerImpl.java:47-51 | the persist plan opens with create and begin, ends with commit and close, never rolls back and closes only last |
| EntityProperties.MergeBracketed | src/main/java/tech/simter/reactive/jpa/impl/ReactiveEntityManagerImpl.java:62-66 | the same shape for the merge plan |
| EntityProperties.RemoveBracketed | src/main/java/tech/simter/reactive/jpa/impl/ReactiveEntityManagerImpl.java:77-81 | the same shape for the remove plan |
| EntityProperties.EntityCallsShape | src/main/java/tech/simter/reactive/jpa/impl/ReactiveEntityManagerImpl.java:42-96 | every entity operation's plan, find's included, has that shape |
| EntityProperties.EntityRunPerforms | src/main/java/tech/simter/reactive/jpa/impl/ReactiveEntityManagerImpl.java:42-96 | an entity operation's run makes its planned calls, and its Mono/Flux fails iff a call threw, with that exception |
| EntityProperties.PersistCommitted | src/main/java/tech/simter/reactive/jpa/impl/ReactiveEntityManagerImpl.java:42-54 | persist completes, with no item, iff no call throws, and then each entity was persisted exactly once in input order between begin and commit, followed by close |
| EntityProperties.MergeCommitted | src/main/java/tech/simter/reactive/jpa/impl/ReactiveEntityManagerImpl.java:56-70 | merge completes iff no call throws, and then the Flux emits the provider's managed instance of each entity in input order, after a committed and closed transaction that merged each entity once |
| EntityProperties.RemoveCommitted | src/main/java/tech/simter/reactive/jpa/impl/ReactiveEntityManagerImpl.java:72-84 | remove completes iff no call throws, and then each entity was merged and its managed instance removed, in input order, inside one committed and closed transaction |
| EntityProperties.FindCommitted | src/main/java/tech/simter/reactive/jpa/impl/ReactiveEntityManagerImpl.java:86-96 | find completes iff no call throws; the Mono then carries the entity found, and is empty, not failed, when the provider finds nothing (ReactiveEntityManager.java:46) |
| EntityProperties.BracketedAborts | src/main/java/tech/simter/reactive/jpa/impl/ReactiveEntityManagerImpl.java:46-52 | a unit of work with no handler that throws stops at the throwing call, never rolls back, and has closed only if the close itself threw |
| EntityProperties.EntityAborted | src/main/java/tech/simter/reactive/jpa/impl/ReactiveEntityManagerImpl.java:42-96 | a failing persist, merge, remove or find signals the exception of the call that threw: all calls before it returned, nothing was rolled back, and the entity manager stays open unless the close threw |
| ReactiveJpa.IterationOrder | src/main/java/tech/simter/reactive/jpa/impl/ReactiveEntityManagerImpl.java:153 | the traversal of the parameter map lists every stored binding exactly once, with its stored value |
| ReactiveJpa.ReactiveEntityManager.constructor | src/main/java/tech/simter/reactive/jpa/impl/ReactiveEntityManagerImpl.java:33-36 | the manager keeps the factory it is given; every unit of work it defers logs its calls there |
| ReactiveJpa.ReactiveEntityManager.Persist | src/main/java/tech/simter/reactive/jpa/impl/ReactiveEntityManagerImpl.java:43-53 | the handle is empty iff the array is null or empty; otherwise it defers persisting exactly that array on this manager |
| ReactiveJpa.ReactiveEntityManager.Merge | src/main/java/tech/simter/reactive/jpa/impl/ReactiveEntityManagerImpl.java:57-69 | the handle is empty iff the array is null or empty; otherwise it defers merging exactly that array |
| ReactiveJpa.ReactiveEntityManager.Remove | src/main/java/tech/simter/reactive/jpa/impl/ReactiveEntityManagerImpl.java:73-83 | the handle is empty iff the array is null or empty; otherwise it defers removing exactly that array |
| ReactiveJpa.ReactiveEntityManager.Find | src/main/java/tech/simter/reactive/jpa/impl/ReactiveEntityManagerImpl.java:87-95 | find always defers a lookup of that class and key; there is no shortcut |
| ReactiveJpa.ReactiveEntityManager.CreateTypedQuery | src/main/java/tech/simter/reactive/jpa/impl/ReactiveEntityManagerImpl.java:99-101 | a new typed builder on this manager, with the text and result class given, no binding, no offset, no limit |
| ReactiveJpa.ReactiveEntityManager.CreateQuery | src/main/java/tech/simter/reactive/jpa/impl/ReactiveEntityManagerImpl.java:104-106 | a new untyped builder on this manager, with the text given and nothing set |
| ReactiveJpa.ReactiveEntityManager.RunPersist | src/main/java/tech/simter/reactive/jpa/impl/ReactiveEntityManagerImpl.java:46-52 | the persist lambda makes exactly the calls of the persist trace and signals its outcome |
| ReactiveJpa.ReactiveEntityManager.RunMerge | src/main/java/tech/simter/reactive/jpa/impl/ReactiveEntityManagerImpl.java:60-68 | the merge lambda makes exactly the calls of the merge trace and emits the list it collected, which is the merged instances in input order |
| ReactiveJpa.ReactiveEntityManager.RunRemove | src/main/java/tech/simter/reactive/jpa/impl/ReactiveEntityManagerImpl.java:76-82 | the remove lambda makes exactly the calls of the remove trace and signals its outcome |
| ReactiveJpa.ReactiveEntityManager.RunFind | src/main/java/tech/simter/reactive/jpa/impl/ReactiveEntityManagerImpl.java:88-95 | the find lambda makes exactly the calls of the find trace and yields the entity found, or nothing |
| ReactiveJpa.ReactiveQuery.constructor | src/main/java/tech/simter/reactive/jpa/impl/ReactiveEntityManagerImpl.java:109-118 | a builder starts with an empty parameter map and a zero offset and limit |
| ReactiveJpa.ReactiveQuery.SetParameter | src/main/java/tech/simter/reactive/jpa/impl/ReactiveEntityManagerImpl.java:121-124 | stores the binding, replacing any earlier value under that name, changes nothing else, makes no provider call and returns the same builder (lines 180-183 alike) |
| ReactiveJpa.ReactiveQuery.SetFirstResult | src/main/java/tech/simter/reactive/jpa/impl/ReactiveEntityManagerImpl.java:127-130 | stores the offset unchecked, changes nothing else, makes no provider call and returns the same builder (lines 186-189 alike) |
| ReactiveJpa.ReactiveQuery.SetMaxResults | src/main/java/tech/simter/reactive/jpa/impl/ReactiveEntityManagerImpl.java:133-136 | stores the limit unchecked, changes nothing else, makes no provider call and returns the same builder (lines 192-195 alike) |
| ReactiveJpa.ReactiveQuery.GetSingleResult | src/main/java/tech/simter/reactive/jpa/impl/ReactiveEntityManagerImpl.java:139-141 | a Mono deferring this builder's transaction with the single-result execution (lines 199-201 alike) |
| ReactiveJpa.ReactiveQuery.GetResultList | src/main/java/tech/simter/reactive/jpa/impl/ReactiveEntityManagerImpl.java:144-146 | a Flux deferring this builder's transaction with the list execution (lines 205-207 alike) |
| ReactiveJpa.ReactiveQuery.ExecuteUpdate | src/main/java/tech/simter/reactive/jpa/impl/ReactiveEntityManagerImpl.java:210-212 | a Mono<Integer> deferring the untyped builder's transaction with the update execution |
| ReactiveJpa.ReactiveQuery.DoInTransaction | src/main/java/tech/simter/reactive/jpa/impl/ReactiveEntityManagerImpl.java:148-166 | makes exactly the calls of the query trace for the builder's state and some traversal order of its bindings, and throws what that trace throws (lines 214-232 alike) |
| ReactiveJpa.ReactiveQuery.TryBlock | src/main/java/tech/simter/reactive/jpa/impl/ReactiveEntityManagerImpl.java:151-161 | the try block makes its planned calls up to the first that throws, and lets that exception escape |
| ReactiveJpa.ReactiveQuery.ReplayParameters | src/main/java/tech/simter/reactive/jpa/impl/ReactiveEntityManagerImpl.java:153 | one setParameter on the provider's query per entry, in traversal order, stopping at the first that throws |
| ReactiveJpa.ReactiveQuery.ApplyPaging | src/main/java/tech/simter/reactive/jpa/impl/ReactiveEntityManagerImpl.java:154-155 | setFirstResult and setMaxResults reach the provider exactly when the stored value is positive, in that order |
| ReactiveJpa.Subscribe | src/main/java/tech/simter/reactive/jpa/impl/ReactiveJpaWrapperImpl.java:39-52 | subscribing runs the deferred unit of work once: the empty handle completes with no call; an entity handle records its operation's run; a query handle records its transaction, reads the builder as it is at subscription and leaves it unchanged |
| ReactiveJpa.SubscribeUpdate | src/main/java/tech/simter/reactive/jpa/impl/ReactiveEntityManagerImpl.java:209-212 | subscribing to executeUpdate records the query transaction and completes with the update count, or fails with its exception |
| QueryProperties.EnumerationFacts | src/main/java/tech/simter/reactive/jpa/impl/ReactiveEntityManagerImpl.java:153 | a traversal of the parameter map has as many entries as the map, no name twice, and every name of the map |
| QueryProperties.ParamsReplayedOnce | src/main/java/tech/simter/reactive/jpa/impl/ReactiveEntityManagerImpl.java:153 | the replay makes one setParameter per stored binding, with the value stored last under that name, and no other call |
| QueryProperties.ReplayOrderIrrelevant | src/main/java/tech/simter/reactive/jpa/impl/ReactiveEntityManagerImpl.java:153 | any two traversal orders of the same map replay the same multiset of setParameter calls |
| QueryProperties.PermutedBlock | src/main/java/tech/simter/reactive/jpa/impl/ReactiveEntityManagerImpl.java:148-166 | permuting a block of calls that all return inside the try leaves the transaction's outcome and its calls outside the block unchanged, and its calls overall equal up to order |
| QueryProperties.RunsAgreeUpToParamOrder | src/main/java/tech/simter/reactive/jpa/impl/ReactiveEntityManagerImpl.java:148-166 | two runs of the same builder that differ only in traversal order end the same way and make the same calls, which differ only in the order of the setParameter block |
| QueryProperties.QueryBodyShape | src/main/java/tech/simter/reactive/jpa/impl/ReactiveEntityManagerImpl.java:151-161 | the try block ends with execute, commit, close; it never creates, begins or rolls back, and commits and closes only at its end |
| QueryProperties.OpeningTrace | src/main/java/tech/simter/reactive/jpa/impl/ReactiveEntityManagerImpl.java:149-150 | createEntityManager then begin, before the try: either may throw, and begin is not reached when create throws |
| QueryProperties.TransactionOpenFails | src/main/java/tech/simter/reactive/jpa/impl/ReactiveEntityManagerImpl.java:149-151 | an exception from createEntityManager or begin escapes as it is, with no rollback and no further call |
| QueryProperties.TransactionCommitted | src/main/java/tech/simter/reactive/jpa/impl/ReactiveEntityManagerImpl.java:148-161 | doInTransaction returns normally iff no call throws, and then it made every planned call, ended with execute, commit and close, and never rolled back |
| QueryProperties.QueryCommitted | src/main/java/tech/simter/reactive/jpa/impl/ReactiveEntityManagerImpl.java:148-161 | a committed query run also created the provider query right after begin, then set every replayed binding, then applied exactly the positive offset and limit, before execute, commit and close |
| QueryProperties.TransactionRolledBack | src/main/java/tech/simter/reactive/jpa/impl/ReactiveEntityManagerImpl.java:162-165 | an exception inside the try is followed by exactly one rollback and rethrown, replaced by the rollback's own exception if that throws; a commit was made on this path only if the commit or the close threw, and the entity manager was closed only if the close itself threw |
| QueryProperties.TransactionExecFails | src/main/java/tech/simter/reactive/jpa/impl/ReactiveEntityManagerImpl.java:157-165 | when the execution throws, the run ends with the execution and a rollback, never commits, never closes, and fails with the execution's exception (or the rollback's) |

## Left out

- Scheduling: `subscribeOn(scheduler)`, the bounded elastic pool and threading are not modelled. A subscription runs its unit of work synchronously, and concurrent subscriptions are not modelled.
- `fromStream` of the wrapper is not part of this model; the entity manager never calls it.
- Cancellation of a subscription and back-pressure are not modelled.
- Provider semantics: what persist, merge, remove, find and the queries do to the database and the persistence context. The oracle gives the model the provider's answers; identity and managed/detached states are not modelled.
- History-dependent provider failures are not modelled. The oracle answers a call from the call's value alone, so repeated equal calls within one run always get the same answer. For example, `remove(e, e)` makes merge(e), remove(m), merge(e), and under JPA the second merge of an entity just removed throws while the first returned; the model cannot produce that trace. Likewise, persisting two equal entities cannot fail on the second one only.
- Entity-manager identity is not modelled. Every call of every run goes to the factory's one log, and nothing records which entity manager received it. That a run's calls all land on the one entity manager it created rests on subscriptions running one after the other.
- `getTransaction()` returning the same transaction object is folded into the begin, commit and rollback events of the entity manager.
- `catch (Exception e)`: every fault is modelled as an `Exception`. A Java `Error` would skip the rollback; that case is not modelled.
- The caller may mutate the varargs array between the call and the subscription, and the lambda would see the change. The model captures the array's contents at call time: aliasing of the array is not modelled.
- The unchecked `(T)` cast of the untyped `getSingleResult` and Java generics are not modelled. Values are an opaque type parameter.
- A null list from `getResultList`, which would fail inside `Flux.fromIterable`, is not modelled. The oracle's list is never null.
- A null element inside the list of `getResultList` is not modelled. `Flux.fromIterable` would emit the earlier items and then fail with a NullPointerException, after the transaction committed; the model completes with every item.
- Spring wiring (`@Component`, `@Autowired`, `ModuleConfiguration`) is not modelled. The constructor of `ReactiveEntityManagerImpl` is modelled without its `wrapper` argument, whose scheduling is left out above.
- QueryProperties.RunsAgreeUpToParamOrder: stated only when the provider accepts every binding. When a setParameter call throws, the two runs stop at different bindings; that case is not related here.
- ReactiveJpa.ReactiveQuery.ExecuteUpdate: requires the untyped builder. In the source, `executeUpdate` does not exist on the typed builder.
