// Which serial queue a module's wrapper gets from the module's thread type, how clones for
// further concurrent events share it, and what that guarantees for all events in flight.

module ThreadTypes {
  import opened Basics
  import opened Schedulers
  import opened SchedulerQueues
  import opened SchedulerNextEvent

  datatype ThreadType = Unsafe | SafeBetweenModules | SafeBetweenInstances

  /** Queues are named by numbers: 0 is the job's one queue for everything thread-unsafe. */
  const NON_THREAD_SAFE_QUEUE: nat := 0

  /** `made` names the queue that a new SerialTaskQueue would be. */
  function ChooseQueue(t: ThreadType, made: nat): Option<nat> {
    match t
    case SafeBetweenModules => Some(made)
    case Unsafe => Some(NON_THREAD_SAFE_QUEUE)
    case SafeBetweenInstances => None
  }

  class ModuleWrapper {
    const threadType: ThreadType
    var runQueue: Option<nat>

    constructor (t: ThreadType, made: nat)
      ensures threadType == t && runQueue == ChooseQueue(t, made)
    {
      threadType := t;
      runQueue := ChooseQueue(t, made);
    }

    /** The wrapper of the same module for another event. */
    constructor Clone(other: ModuleWrapper)
      ensures threadType == other.threadType
      ensures runQueue == if other.threadType.SafeBetweenInstances? then None else other.runQueue
    {
      threadType := other.threadType;
      runQueue := None;
      new;
      if threadType != SafeBetweenInstances {
        runQueue := other.runQueue;
      }
    }
  }

  /** The queue of module m's wrapper, the same for every event in flight. */
  function QueueOf(types: seq<ThreadType>, m: nat): Option<nat>
    requires m < |types|
  {
    ChooseQueue(types[m], m + 1)
  }

  /** The wrappers of one schedule, in the order the modules were added. */
  ghost predicate Wraps(types: seq<ThreadType>, ws: seq<ModuleWrapper>)
    reads ws
  {
    && |ws| == |types|
    && forall m | 0 <= m < |ws| :: ws[m].threadType == types[m] && ws[m].runQueue == QueueOf(types, m)
  }

  /** The first schedule: each module's wrapper makes its own choice. */
  method MakeSchedule(types: seq<ThreadType>) returns (ws: seq<ModuleWrapper>)
    ensures Wraps(types, ws)
  {
    ws := [];
    for m := 0 to |types|
      invariant Wraps(types[..m], ws)
    {
      var w := new ModuleWrapper(types[m], m + 1);
      ws := ws + [w];
    }
    assert types[..|types|] == types;
  }

  /** Every further one is cloned, and its wrappers end up with the same queues. */
  method CloneSchedule(types: seq<ThreadType>, original: seq<ModuleWrapper>) returns (ws: seq<ModuleWrapper>)
    requires Wraps(types, original)
    ensures Wraps(types, ws)
  {
    ws := [];
    for m := 0 to |original|
      invariant Wraps(types, original)
      invariant Wraps(types[..m], ws)
    {
      var w := new ModuleWrapper.Clone(original[m]);
      ws := ws + [w];
    }
    assert types[..|original|] == types;
  }

  /** Two wrappers, of whatever events, share a queue exactly when both modules are
      thread-unsafe, or it is one module that is safe only between modules. */
  lemma SharedExactly(types: seq<ThreadType>, m: nat, k: nat)
    requires m < |types| && k < |types|
    ensures QueueOf(types, m).Some? && QueueOf(types, m) == QueueOf(types, k)
      <==> (types[m].Unsafe? && types[k].Unsafe?) || (m == k && types[m].SafeBetweenModules?)
  {
  }

  /** The job's nodes are wrappers: node n is the one of module moduleOf[n], for some event. */
  ghost predicate Arranged(c: Config, types: seq<ThreadType>, moduleOf: seq<nat>) {
    && |moduleOf| == |c.queue|
    && (forall n | 0 <= n < |moduleOf| :: moduleOf[n] < |types| && c.queue[n] == QueueOf(types, moduleOf[n]))
  }

  /** At every moment of every run: of all events in flight, at most one runs a given module
      that is safe only between modules, and at most one thread-unsafe module runs at all. */
  lemma ThreadTypeGuarantee(c: Config, types: seq<ThreadType>, moduleOf: seq<nat>, s: State, n: nat, k: nat)
    requires Schedulers.Valid(c) && Reachable(c, s) && Arranged(c, types, moduleOf) && n < |c.queue| && k < |c.queue|
    requires s.nodes[n].phase.Running? || s.nodes[n].phase.Worked?
    requires s.nodes[k].phase.Running? || s.nodes[k].phase.Worked?
    ensures types[moduleOf[n]].SafeBetweenModules? && moduleOf[n] == moduleOf[k] ==> n == k
    ensures types[moduleOf[n]].Unsafe? && types[moduleOf[k]].Unsafe? ==> n == k
  {
    Reached(c, s);
    SharedExactly(types, moduleOf[n], moduleOf[k]);
    if c.queue[n].Some? && c.queue[n] == c.queue[k] {
      QueueExcludes(c, s, n, k);
    }
  }

  /** A module that is safe between instances never waits for a queue. */
  lemma NeverQueued(c: Config, types: seq<ThreadType>, moduleOf: seq<nat>, s: State, n: nat)
    requires Schedulers.Valid(c) && Reachable(c, s) && Arranged(c, types, moduleOf) && n < |c.queue|
    requires types[moduleOf[n]].SafeBetweenInstances?
    ensures !s.nodes[n].phase.Queued?
  {
    Reached(c, s);
    assert SeatAt(c, s, n);
  }
}
