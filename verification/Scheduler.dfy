// The asynchronous run of the events in flight: modules requested on demand, run after
// their prefetches and inside their serial queue, and the paths of filters that request
// them. The wait lists and queues are the atomic ones that WaitingTaskList.dfy and
// SerialTaskQueue.dfy refine. One action is one atomic access, by whichever thread.

module Schedulers {
  import opened Basics
  import opened ModuleGraphs
  import WL = WaitLists
  import WQ = WorkQueues

  /** The job: the module graph, the serial queue of each node, the filters of each path
      and its event, the paths of each event. */
  datatype Config = Config(
    g: Graph,
    queue: seq<Option<nat>>,
    queues: nat,
    filters: seq<seq<nat>>,
    eventOf: seq<nat>,
    pathsOf: seq<seq<nat>>)

  ghost predicate Valid(c: Config) {
    && Acyclic(c.g)
    && |c.queue| == |c.g.deps|
    && (forall n | 0 <= n < |c.queue| :: c.queue[n].Some? ==> c.queue[n].value < c.queues)
    && (forall p | 0 <= p < |c.filters| :: Filters(c.g, c.filters[p]))
    && |c.eventOf| == |c.filters|
    && (forall p | 0 <= p < |c.eventOf| ::
          c.eventOf[p] < |c.pathsOf| && p in c.pathsOf[c.eventOf[p]])
    && (forall e, k {:trigger c.pathsOf[e][k]} | 0 <= e < |c.pathsOf| && 0 <= k < |c.pathsOf[e]| ::
          c.pathsOf[e][k] < |c.eventOf| && c.eventOf[c.pathsOf[e][k]] == e)
    && (forall e, k, l | 0 <= e < |c.pathsOf| && 0 <= k < l < |c.pathsOf[e]| ::
          c.pathsOf[e][k] != c.pathsOf[e][l])
  }

  /** Who waits for a node: the run task of a module, for one of its getters, or a path, for
      the filter at this place. */
  datatype Waiter = Getter(node: nat, index: nat) | OnPath(path: nat, at: nat)

  // A wait list has two preallocated nodes at first.
  const CACHE: nat := 2

  datatype Phase =
    | Idle                           // m_workStarted is false
    | Fetch(at: nat, added: bool)    // in the loop of prefetchAsync; added: in add or before m_workStarted's exchange
    | Prefetched                     // the loop's holder is gone, getters outstanding
    | Ready                          // the reference count fell to 0: the run task is scheduled
    | Queued                         // pushed to the serial queue
    | Running                        // before implDoWork
    | Worked(exc: Option<Exc>)       // before doneWaiting
    | Ended                          // its list is closed

  /** Inside its serial queue, if it has one, with something still to do there. */
  predicate Inside(x: NodeState) {
    x.phase.Running? || x.phase.Worked?
  }

  /** A ModuleWrapper with its run task and product. History: `out`, the getters whose
      holder is in a wait list. */
  datatype NodeState = NodeState(
    phase: Phase,
    refs: nat,
    failed: Option<Exc>,
    list: WL.WaitList<Waiter>,
    value: int,
    cached: bool,
    out: set<nat>)

  datatype PathPc =
    | Dormant
    | Request(at: nat)                     // runFilterAsync reads the fatal error flag
    | Ask(at: nat)                         // adds the next-filter task to the filter's list
    | Asked(at: nat)
    | Fired(at: nat, exc: Option<Exc>)     // filterFinished
    | Stopping(exc: Option<Exc>)           // m_callback.doneWaiting
    | Done(exc: Option<Exc>)

  /** History: `asked`, how many filters the path requested. */
  datatype PathState = PathState(pc: PathPc, asked: nat)

  datatype EventPc = Launch(at: nat) | Launched | Scheduled | Finished

  /** The all-paths-done task of an event. History: `live`, the paths that hold it. */
  datatype EventState = EventState(pc: EventPc, refs: nat, exc: Option<Exc>, live: set<nat>)

  /** The thread that asked for the filter at this place of a path: it has added the path's
      task to the filter's list, may still have to look at it again, and is about to exchange
      its m_workStarted. */
  datatype Starter = Starter(path: nat, at: nat)

  /** `starts` are the threads on their way to an exchange, `fatal` is the job's fatal error
      flag. History: `ran`, the nodes whose own code ran, in that order. */
  datatype State = State(
    nodes: seq<NodeState>,
    queues: seq<WQ.WorkQueue<nat>>,
    paths: seq<PathState>,
    events: seq<EventState>,
    starts: set<Starter>,
    fatal: bool,
    ran: seq<nat>)

  datatype Action =
    | FetchAdd(node: nat, late: bool)      // late: join a list that has just been closed
    | FetchStart(node: nat)
    | FetchEnd(node: nat)
    | Execute(node: nat)
    | StartQueued(queue: nat)
    | Work(node: nat)
    | Announce(node: nat)                  // doneWaiting clears m_waiting
    | Take(node: nat)                      // and takes what is at the head
    | Recheck(node: nat, waiter: Waiter)   // an adder looks again, and takes that if the list was closed
    | Release(node: nat, waiter: Waiter, reader: bool)
    | Look(node: nat)                      // doneWaiting looks at the node of whom it let go
    | Leave(queue: nat)
    | LaunchPath(event: nat)
    | LaunchEnd(event: nat)
    | PathRequest(path: nat)
    | PathAsk(path: nat, late: bool)
    | StartFilter(starter: Starter)
    | PathFire(path: nat)
    | PathEnd(path: nat)
    | EventFire(event: nat)

  function Init(c: Config): State {
    State(seq(|c.g.deps|, _ => NodeState(Idle, 0, None, WL.Empty(CACHE), 0, false, {})),
          seq(c.queues, _ => WQ.Empty()),
          seq(|c.filters|, _ => PathState(Dormant, 0)),
          seq(|c.pathsOf|, _ => EventState(Launch(0), 1, None, {})),
          {}, false, [])
  }

  // ---------- the steps ----------

  /** Every component the job names is there. */
  ghost predicate Fits(c: Config, s: State) {
    && |s.nodes| == |c.g.deps| && |s.queues| == c.queues
    && |s.paths| == |c.filters| && |s.events| == |c.pathsOf|
  }

  /** The node that a node or a path is about to ask. */
  function Dep(c: Config, n: nat, i: nat): nat
    requires n < |c.g.deps| && i < |c.g.deps[n]|
  {
    c.g.deps[n][i]
  }

  predicate CanLetGo(s: State, d: nat, w: Waiter) {
    match w
    case Getter(n, i) => n < |s.nodes| && n != d && s.nodes[n].refs > 0
    case OnPath(p, j) => p < |s.paths| && s.paths[p].pc == Asked(j)
  }

  /** The thread that called runAsync has come back from it: it asks for the first filter
      and exchanges its m_workStarted itself. */
  predicate Back(s: State, p: nat) {
    && (p < |s.paths| ==> s.paths[p].pc != Request(0) && s.paths[p].pc != Ask(0))
    && Starter(p, 0) !in s.starts
  }

  /** processAsync starts the paths one after the other. */
  predicate LauncherBack(c: Config, s: State, e: nat)
    requires e < |s.events| && e < |c.pathsOf| && s.events[e].pc.Launch?
  {
    0 < s.events[e].pc.at <= |c.pathsOf[e]| ==> Back(s, c.pathsOf[e][s.events[e].pc.at - 1])
  }

  ghost predicate Enabled(c: Config, s: State, a: Action)
    requires Valid(c) && Fits(c, s)
  {
    match a
    case FetchAdd(n, late) =>
      && n < |s.nodes| && s.nodes[n].phase.Fetch? && !s.nodes[n].phase.added
      && s.nodes[n].phase.at < |c.g.deps[n]|
      && (late ==> s.nodes[Dep(c, n, s.nodes[n].phase.at)].list.closed)
    case FetchStart(n) =>
      && n < |s.nodes| && s.nodes[n].phase.Fetch? && s.nodes[n].phase.added
      && s.nodes[n].phase.at < |c.g.deps[n]|
      && Getter(n, s.nodes[n].phase.at) !in s.nodes[Dep(c, n, s.nodes[n].phase.at)].list.rechecks
    case FetchEnd(n) =>
      && n < |s.nodes| && s.nodes[n].phase == Fetch(|c.g.deps[n]|, false) && s.nodes[n].refs > 0
    case Execute(n) => n < |s.nodes| && s.nodes[n].phase.Ready?
    case StartQueued(q) =>
      && q < |s.queues| && s.queues[q].running == None && s.queues[q].waiting != []
      && s.queues[q].waiting[0] < |s.nodes|
    case Work(n) => n < |s.nodes| && s.nodes[n].phase.Running?
    case Announce(n) => n < |s.nodes| && s.nodes[n].phase.Worked?
    case Leave(q) =>
      && q < |s.queues| && s.queues[q].running.Some?
      && (s.queues[q].running.value < |s.nodes| ==> !Inside(s.nodes[s.queues[q].running.value]))
    case Take(d) => d < |s.nodes| && s.nodes[d].list.taking
    case Recheck(d, w) => d < |s.nodes| && w in s.nodes[d].list.rechecks
    case Release(d, w, reader) =>
      && d < |s.nodes| && w in s.nodes[d].list.waiting && w !in s.nodes[d].list.head && CanLetGo(s, d, w)
      && (reader ==> !s.nodes[d].list.taking)
    case Look(d) => d < |s.nodes| && s.nodes[d].list.reading
    case LaunchPath(e) =>
      e < |s.events| && s.events[e].pc.Launch? && s.events[e].pc.at < |c.pathsOf[e]| && LauncherBack(c, s, e)
    case LaunchEnd(e) =>
      e < |s.events| && s.events[e].pc == Launch(|c.pathsOf[e]|) && s.events[e].refs > 0 && LauncherBack(c, s, e)
    case PathRequest(p) => p < |s.paths| && s.paths[p].pc.Request?
    case PathAsk(p, late) =>
      && p < |s.paths| && s.paths[p].pc.Ask? && s.paths[p].pc.at < |c.filters[p]|
      && (late ==> s.nodes[c.filters[p][s.paths[p].pc.at]].list.closed)
    case StartFilter(t) =>
      && t in s.starts && t.path < |c.filters| && t.at < |c.filters[t.path]|
      && OnPath(t.path, t.at) !in s.nodes[c.filters[t.path][t.at]].list.rechecks
    case PathFire(p) => p < |s.paths| && s.paths[p].pc.Fired? && s.paths[p].pc.at < |c.filters[p]|
    case PathEnd(p) => p < |s.paths| && s.paths[p].pc.Stopping? && s.events[c.eventOf[p]].refs > 0
    case EventFire(e) => e < |s.events| && s.events[e].pc.Scheduled?
  }

  function SetNode(s: State, n: nat, x: NodeState): State
    requires n < |s.nodes|
  {
    s.(nodes := s.nodes[n := x])
  }

  function SetPath(s: State, p: nat, x: PathState): State
    requires p < |s.paths|
  {
    s.(paths := s.paths[p := x])
  }

  function SetEvent(s: State, e: nat, x: EventState): State
    requires e < |s.events|
  {
    s.(events := s.events[e := x])
  }

  /** add with a copy of the run task's holder: the copy joins the list, or, if the list
      is closed, is let go at once with the exception of the list. */
  function DoFetchAdd(c: Config, s: State, n: nat, d: nat, i: nat, late: bool): State
    requires n < |s.nodes| && d < |s.nodes|
  {
    var x, y := s.nodes[n], s.nodes[d];
    if y.list.closed && !late
    then SetNode(s, n, x.(phase := Fetch(i, true), failed := FirstOf(x.failed, y.list.exc)))
    else SetNode(SetNode(s, d, y.(list := WL.Join(y.list, Getter(n, i)))),
                 n, x.(phase := Fetch(i, true), refs := x.refs + 1, out := x.out + {i}))
  }

  /** m_workStarted.compare_exchange_strong(false, true), and prefetchAsync begins. */
  function Started(x: NodeState): NodeState {
    if x.phase.Idle? then x.(phase := Fetch(0, false), refs := 1) else x
  }

  function DoFetchStart(c: Config, s: State, n: nat, d: nat, i: nat): State
    requires n < |s.nodes| && d < |s.nodes|
  {
    SetNode(SetNode(s, d, Started(s.nodes[d])), n, s.nodes[n].(phase := Fetch(i + 1, false)))
  }

  function DoFetchEnd(s: State, n: nat): State
    requires n < |s.nodes| && s.nodes[n].refs > 0
  {
    var x := s.nodes[n];
    SetNode(s, n, x.(refs := x.refs - 1, phase := if x.refs == 1 then Ready else Prefetched))
  }

  function DoExecute(c: Config, s: State, n: nat): State
    requires n < |s.nodes| && n < |c.queue|
  {
    var x := s.nodes[n];
    if c.queue[n].Some? && c.queue[n].value < |s.queues| then
      var q := c.queue[n].value;
      SetNode(s, n, x.(phase := Queued)).(queues := s.queues[q := WQ.Push(s.queues[q], n)])
    else SetNode(s, n, x.(phase := Running))
  }

  function DoStartQueued(s: State, q: nat): State
    requires q < |s.queues| && s.queues[q].waiting != [] && s.queues[q].waiting[0] < |s.nodes|
  {
    var n := s.queues[q].waiting[0];
    SetNode(s, n, s.nodes[n].(phase := Running)).(queues := s.queues[q := WQ.Start(s.queues[q])])
  }

  /** What get(Getter) reads for the getters of a node. */
  function Read(c: Config, s: State, n: nat): (r: seq<int>)
    requires n < |c.g.deps|
  {
    seq(|c.g.deps[n]|, i requires 0 <= i < |c.g.deps[n]| =>
      if c.g.deps[n][i] < |s.nodes| then s.nodes[c.g.deps[n][i]].value else 0)
  }

  /** runModuleAfterAsyncPrefetch: the module's own code, unless a prefetch failed. Nobody
      looks at the product before the list is closed, so that its writes are one step. */
  function DoWork(c: Config, s: State, n: nat): State
    requires n < |s.nodes| && n < |c.g.deps|
  {
    var x := s.nodes[n];
    if x.failed.Some? then SetNode(s, n, x.(phase := Worked(x.failed)))
    else
      match c.g.work(n, Read(c, s, n))
      case Put(v) => SetNode(s, n, x.(phase := Worked(None), value := v, cached := true)).(ran := s.ran + [n])
      case Threw => SetNode(s, n, x.(phase := Worked(Some(n)))).(ran := s.ran + [n])
  }

  /** m_waitingTasks.doneWaiting closes the list, and has still to take what is there. */
  function DoAnnounce(s: State, n: nat): State
    requires n < |s.nodes| && s.nodes[n].phase.Worked?
  {
    var x := s.nodes[n];
    SetNode(s, n, x.(phase := Ended, list := WL.Close(x.list, x.phase.exc)))
  }

  /** A step inside the list of d that its waiters do not see. */
  function SetList(s: State, d: nat, l: WL.WaitList<Waiter>): State
    requires d < |s.nodes|
  {
    SetNode(s, d, s.nodes[d].(list := l))
  }

  /** The queued action returns and the queue is free. */
  function DoLeave(s: State, q: nat): State
    requires q < |s.queues|
  {
    s.(queues := s.queues[q := WQ.Finish(s.queues[q])])
  }

  /** announce lets one waiter go: the exception first, then the reference count. */
  function LetGo(x: NodeState, i: nat, exc: Option<Exc>): NodeState
    requires x.refs > 0
  {
    x.(failed := FirstOf(x.failed, exc), refs := x.refs - 1, out := x.out - {i},
       phase := if x.refs == 1 then Ready else x.phase)
  }

  function DoRelease(s: State, d: nat, w: Waiter, reader: bool): State
    requires d < |s.nodes| && CanLetGo(s, d, w)
  {
    var y := s.nodes[d];
    var t := SetList(s, d, WL.Leave(y.list, w, reader));
    match w
    case Getter(n, i) => SetNode(t, n, LetGo(s.nodes[n], i, y.list.exc))
    case OnPath(p, j) => SetPath(t, p, s.paths[p].(pc := Fired(j, y.list.exc)))
  }

  /** Path::runAsync with a copy of the all-paths-done holder. */
  function DoLaunchPath(c: Config, s: State, e: nat): State
    requires Valid(c) && Fits(c, s) && Enabled(c, s, LaunchPath(e))
  {
    var x := s.events[e];
    var p := c.pathsOf[e][x.pc.at];
    SetEvent(SetPath(s, p, s.paths[p].(pc := if c.filters[p] == [] then Stopping(None) else Request(0))),
             e, x.(pc := Launch(x.pc.at + 1), refs := x.refs + 1, live := x.live + {p}))
  }

  function DoLaunchEnd(s: State, e: nat): State
    requires e < |s.events| && s.events[e].refs > 0
  {
    var x := s.events[e];
    SetEvent(s, e, x.(refs := x.refs - 1, pc := if x.refs == 1 then Scheduled else Launched))
  }

  function DoPathRequest(s: State, p: nat): State
    requires p < |s.paths| && s.paths[p].pc.Request?
  {
    SetPath(s, p, s.paths[p].(pc := if s.fatal then Stopping(None) else Ask(s.paths[p].pc.at)))
  }

  function DoPathAsk(s: State, p: nat, f: nat, i: nat, late: bool): State
    requires p < |s.paths| && f < |s.nodes|
  {
    var y := s.nodes[f];
    var t := s.(starts := s.starts + {Starter(p, i)});
    if y.list.closed && !late
    then SetPath(t, p, PathState(Fired(i, y.list.exc), i + 1))
    else SetPath(SetNode(t, f, y.(list := WL.Join(y.list, OnPath(p, i)))), p, PathState(Asked(i), i + 1))
  }

  function DoStartFilter(s: State, f: nat, t: Starter): State
    requires f < |s.nodes|
  {
    SetNode(s, f, Started(s.nodes[f])).(starts := s.starts - {t})
  }

  /** filterFinished: go on only without an exception or a fatal error, if the filter kept
      the event and is not the last one. */
  function DoPathFire(c: Config, s: State, p: nat, f: nat): State
    requires p < |s.paths| && p < |c.filters| && s.paths[p].pc.Fired? && f < |s.nodes|
  {
    var x := s.paths[p];
    var goOn := x.pc.exc == None && !s.fatal && s.nodes[f].value != 0 && x.pc.at + 1 < |c.filters[p]|;
    SetPath(s, p, x.(pc := if goOn then Request(x.pc.at + 1) else Stopping(x.pc.exc)))
  }

  function DoPathEnd(s: State, p: nat, e: nat): State
    requires p < |s.paths| && s.paths[p].pc.Stopping? && e < |s.events| && s.events[e].refs > 0
  {
    var x := s.events[e];
    SetEvent(SetPath(s, p, s.paths[p].(pc := Done(s.paths[p].pc.exc))),
             e, x.(exc := FirstOf(x.exc, s.paths[p].pc.exc), refs := x.refs - 1, live := x.live - {p},
                   pc := if x.refs == 1 then Scheduled else x.pc))
  }

  function DoEventFire(s: State, e: nat): State
    requires e < |s.events|
  {
    SetEvent(s, e, s.events[e].(pc := Finished)).(fatal := s.fatal || s.events[e].exc.Some?)
  }

  ghost function Apply(c: Config, s: State, a: Action): State
    requires Valid(c) && Fits(c, s) && Enabled(c, s, a)
  {
    match a
    case FetchAdd(n, late) => DoFetchAdd(c, s, n, Dep(c, n, s.nodes[n].phase.at), s.nodes[n].phase.at, late)
    case FetchStart(n) => DoFetchStart(c, s, n, Dep(c, n, s.nodes[n].phase.at), s.nodes[n].phase.at)
    case FetchEnd(n) => DoFetchEnd(s, n)
    case Execute(n) => DoExecute(c, s, n)
    case StartQueued(q) => DoStartQueued(s, q)
    case Work(n) => DoWork(c, s, n)
    case Announce(n) => DoAnnounce(s, n)
    case Leave(q) => DoLeave(s, q)
    case Take(d) => SetList(s, d, WL.Take(s.nodes[d].list))
    case Recheck(d, w) => SetList(s, d, WL.Recheck(s.nodes[d].list, w))
    case Release(d, w, reader) => DoRelease(s, d, w, reader)
    case Look(d) => SetList(s, d, WL.Look(s.nodes[d].list))
    case LaunchPath(e) => DoLaunchPath(c, s, e)
    case LaunchEnd(e) => DoLaunchEnd(s, e)
    case PathRequest(p) => DoPathRequest(s, p)
    case PathAsk(p, late) => DoPathAsk(s, p, c.filters[p][s.paths[p].pc.at], s.paths[p].pc.at, late)
    case StartFilter(t) => DoStartFilter(s, c.filters[t.path][t.at], t)
    case PathFire(p) => DoPathFire(c, s, p, c.filters[p][s.paths[p].pc.at])
    case PathEnd(p) => DoPathEnd(s, p, c.eventOf[p])
    case EventFire(e) => DoEventFire(s, e)
  }

  lemma NodeFits(c: Config, s: State, a: Action)
    requires Valid(c) && Fits(c, s) && Enabled(c, s, a)
    requires a.FetchAdd? || a.FetchStart? || a.FetchEnd? || a.Execute? || a.StartQueued? || a.Work? || a.Announce?
          || a.Leave? || a.Take? || a.Recheck? || a.Look? || a.Release?
    ensures Fits(c, Apply(c, s, a))
  {
  }

  lemma ApplyFits(c: Config, s: State, a: Action)
    requires Valid(c) && Fits(c, s) && Enabled(c, s, a)
    ensures Fits(c, Apply(c, s, a))
  {
    if a.FetchAdd? || a.FetchStart? || a.FetchEnd? || a.Execute? || a.StartQueued? || a.Work? || a.Announce?
      || a.Leave? || a.Take? || a.Recheck? || a.Look? || a.Release? {
      NodeFits(c, s, a);
    }
  }

  ghost function Step(c: Config, s: State, a: Action): (s': State)
    requires Valid(c) && Fits(c, s)
    ensures Fits(c, s')
  {
    if Enabled(c, s, a) then ApplyFits(c, s, a); Apply(c, s, a) else s
  }

  ghost function Run(c: Config, s: State, acts: seq<Action>): (s': State)
    requires Valid(c) && Fits(c, s)
    ensures Fits(c, s')
    decreases |acts|
  {
    if acts == [] then s else Run(c, Step(c, s, acts[0]), acts[1..])
  }
}
