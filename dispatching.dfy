/**
 * The dispatcher contract (IDispatcher.kt): `register` records a worker for
 * a task ID, replacing any earlier one, and `dispatch` looks the ID up,
 * answering `null` when nothing is registered. The contract is stated here on
 * the registry as a map; TestDispatcher implements it in place.
 */
module Dispatching {
  import opened Wrappers
  import opened TaskIds

  /** What `dispatch(forTask)` answers for a registry: the registered worker, or `null`. */
  function Lookup<W>(registry: map<TaskId, W>, forTask: TaskId): (r: Option<W>)
    ensures r.Some? <==> forTask in registry
    ensures r.Some? ==> r.value == registry[forTask]
  {
    if forTask in registry then Some(registry[forTask]) else None
  }

  /** The registry after `register(forTask, toWorker)`. */
  function Registered<W>(registry: map<TaskId, W>, forTask: TaskId, toWorker: W): (r: map<TaskId, W>)
    ensures r.Keys == registry.Keys + {forTask}
    ensures r[forTask] == toWorker
    ensures forall k :: k in registry && k != forTask ==> r[k] == registry[k]
  {
    registry[forTask := toWorker]
  }

  /**
   * After `register(forTask, toWorker)`, dispatching `forTask` answers
   * `toWorker`, and dispatching any other ID answers what it did before.
   */
  lemma DispatchAfterRegister<W>(registry: map<TaskId, W>, forTask: TaskId, toWorker: W, other: TaskId)
    ensures Lookup(Registered(registry, forTask, toWorker), forTask) == Some(toWorker)
    ensures other != forTask ==> Lookup(Registered(registry, forTask, toWorker), other) == Lookup(registry, other)
  {
  }

  /** A second registration under the same ID replaces the first rather than accumulating. */
  lemma RegisterOverwrites<W>(registry: map<TaskId, W>, forTask: TaskId, first: W, second: W)
    ensures Registered(Registered(registry, forTask, first), forTask, second) == Registered(registry, forTask, second)
  {
  }

  /** Nothing registered, nothing dispatched. */
  lemma DispatchOnEmpty<W>(forTask: TaskId)
    ensures Lookup<W>(map[], forTask) == None
  {
  }
}
