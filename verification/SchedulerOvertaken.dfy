// A run that leaves a late closer. Path 0 has filter 0 and then filter 1, path 1 has filter 2;
// filters 1 and 2 get what module 3 makes. The thread that prefetches for filter 1 joins the
// list of module 3 first and is held up before it looks again, while the one of filter 2
// starts the module. The thread that runs it closes the list and is held up before it takes
// the head; the first one looks again and lets everybody go, and the event calls back. In
// the next event the late closer lets filter 2 go before module 3 has worked, and it runs.

module SchedulerOvertaken {
  import opened Basics
  import opened ModuleGraphs
  import opened Schedulers
  import opened SchedulerProgress
  import opened SchedulerReuse
  import opened SchedulerReset
  import opened SchedulerNextEvent
  import opened SchedulerRuns
  import WL = WaitLists

  const ALWAYS: (nat, seq<int>) -> Outcome := (n: nat, inputs: seq<int>) => Put(1)

  function Four(): Config {
    Config(Graph([[], [3], [3], []], [0, 1, 1, 0], ALWAYS), [None, None, None, None], 0, [[0, 1], [2]], [0, 0], [[0, 1]])
  }

  /** What of it decides the steps. */
  ghost predicate IsFour(c: Config) {
    && Valid(c) && c.filters == [[0, 1], [2]] && c.eventOf == [0, 0] && c.pathsOf == [[0, 1]]
    && c.queue == [None, None, None, None] && c.queues == 0 && c.g.deps == [[], [3], [3], []]
    && forall n: nat, inputs :: c.g.work(n, inputs) == Put(1)
  }

  function New(): NodeState {
    NodeState(Idle, 0, None, WL.Empty(CACHE), 0, false, {})
  }

  /** Started by the path w, and joined by nobody else. */
  function StartedBy(w: Waiter): NodeState {
    New().(phase := Fetch(0, false), refs := 1, list := JoinedBy(WL.Empty(CACHE), w))
  }

  /** It has ended and nobody is in its list. */
  function Over(w: Waiter): NodeState {
    AtEnd(StartedBy(w), 1).(list := WL.WaitList(true, None, {}, {}, {}, false, {w}, CACHE, false, false))
  }

  /** Its list has been joined by one getter, that has not looked again, and by both. */
  function JoinedByOne(): WL.WaitList<Waiter> {
    WL.WaitList(false, None, {Getter(1, 0)}, {Getter(1, 0)}, {Getter(1, 0)}, false, {Getter(1, 0)}, CACHE, false, false)
  }

  function JoinedByBoth(): WL.WaitList<Waiter> {
    WL.WaitList(false, None, {Getter(1, 0), Getter(2, 0)}, {Getter(1, 0), Getter(2, 0)}, {Getter(1, 0)}, false,
                {Getter(1, 0), Getter(2, 0)}, CACHE, false, false)
  }

  /** Everybody was let go, and the closer has not taken the head. */
  function LeftLate(): WL.WaitList<Waiter> {
    WL.WaitList(true, None, {}, {}, {}, true, {Getter(1, 0), Getter(2, 0)}, CACHE, false, false)
  }

  function At(nodes: seq<NodeState>, p: PathState, q: PathState, e: EventState, ran: seq<nat>): State {
    State(nodes, [], [p, q], [e], {}, false, ran)
  }

  /** Path 0 asks for filter 0, which ends. */
  lemma FirstEnds(c: Config) returns (acts: seq<Action>, s: State)
    requires IsFour(c)
    ensures Fits(c, Init(c)) && Fits(c, s) && Leads(c, Init(c), acts, s)
    ensures s == At([AtEnd(StartedBy(OnPath(0, 0)), 1), New(), New(), New()], PathState(Asked(0), 1), QUIET,
                    EventState(Launch(1), 2, None, {0}), [0])
  {
    s := Init(c);
    assert s == At([New(), New(), New(), New()], QUIET, QUIET, EventState(Launch(0), 1, None, {}), []);
    acts := [];
    acts, s := Go(c, Init(c), acts, s, LaunchPath(0));
    assert s.events[0].live == {0};
    acts, s := GoAsk(c, Init(c), acts, s, 0, 0, 0);
    acts, s := GoToEnd(c, Init(c), acts, s, 0, 1);
  }

  lemma FirstFilter(c: Config) returns (acts: seq<Action>, s: State)
    requires IsFour(c)
    ensures Fits(c, Init(c)) && Fits(c, s) && Leads(c, Init(c), acts, s)
    ensures s == At([Over(OnPath(0, 0)), New(), New(), New()], PathState(Request(1), 1), QUIET,
                    EventState(Launch(1), 2, None, {0}), [0])
  {
    acts, s := FirstEnds(c);
    acts, s := GoLetGo(c, Init(c), acts, s, 0, 0, 0);
    assert s.nodes[0] == Over(OnPath(0, 0));
    acts, s := Go(c, Init(c), acts, s, PathFire(0));
  }

  /** Filter 1 prefetches: it has joined the list of module 3, and not looked again. */
  lemma FirstPrefetches(c: Config) returns (acts: seq<Action>, s: State)
    requires IsFour(c)
    ensures Fits(c, Init(c)) && Fits(c, s) && Leads(c, Init(c), acts, s)
    ensures s == At([Over(OnPath(0, 0)), Prefetching(OnPath(0, 1)), New(), New().(list := JoinedByOne())],
                    PathState(Asked(1), 2), PathState(Request(0), 0), EventState(Launch(2), 3, None, {0, 1}), [0])
  {
    acts, s := FirstFilter(c);
    acts, s := GoAsk(c, Init(c), acts, s, 0, 1, 1);
    acts, s := Go(c, Init(c), acts, s, FetchAdd(1, false));
    assert s.nodes[3].list == JoinedByOne() && s.nodes[1] == Prefetching(OnPath(0, 1));
    acts, s := Go(c, Init(c), acts, s, LaunchPath(0));
    assert s.events[0].live == {0, 1};
  }

  /** It has joined the list of what it gets. */
  function Prefetching(w: Waiter): NodeState {
    StartedBy(w).(phase := Fetch(0, true), refs := 2, out := {0})
  }

  /** So does filter 2, which starts it. */
  lemma BothPrefetch(c: Config) returns (acts: seq<Action>, s: State)
    requires IsFour(c)
    ensures Fits(c, Init(c)) && Fits(c, s) && Leads(c, Init(c), acts, s)
    ensures s == At([Over(OnPath(0, 0)), Prefetching(OnPath(0, 1)),
                     Prefetching(OnPath(1, 0)).(phase := Fetch(1, false)),
                     New().(phase := Fetch(0, false), refs := 1, list := JoinedByBoth())],
                    PathState(Asked(1), 2), PathState(Asked(0), 1), EventState(Launch(2), 3, None, {0, 1}), [0])
  {
    acts, s := FirstPrefetches(c);
    acts, s := GoAsk(c, Init(c), acts, s, 1, 0, 2);
    acts, s := Go(c, Init(c), acts, s, FetchAdd(2, false));
    assert s.nodes[3].list == JoinedByBoth() && s.nodes[2] == Prefetching(OnPath(1, 0));
    acts, s := Go(c, Init(c), acts, s, FetchStart(2));
  }

  /** Module 3 works and closes its list. The first getter overtakes the closer: it looks again,
      and takes both. */
  lemma LooksAgain(c: Config) returns (acts: seq<Action>, s: State)
    requires IsFour(c)
    ensures Fits(c, Init(c)) && Fits(c, s) && Leads(c, Init(c), acts, s)
    ensures s == At([Over(OnPath(0, 0)), Prefetching(OnPath(0, 1)),
                     Prefetching(OnPath(1, 0)).(phase := Fetch(1, false)),
                     Closed3().(list := LeftLate().(waiting := {Getter(1, 0), Getter(2, 0)}))],
                    PathState(Asked(1), 2), PathState(Asked(0), 1), EventState(Launch(2), 3, None, {0, 1}), [0, 3])
  {
    acts, s := BothPrefetch(c);
    acts, s := GoToEnd(c, Init(c), acts, s, 3, 1);
    acts, s := Go(c, Init(c), acts, s, Recheck(3, Getter(1, 0)));
    assert s.nodes[3].list == LeftLate().(waiting := {Getter(1, 0), Getter(2, 0)});
  }

  /** And lets both go. */
  lemma LetsBothGo(c: Config) returns (acts: seq<Action>, s: State)
    requires IsFour(c)
    ensures Fits(c, Init(c)) && Fits(c, s) && Leads(c, Init(c), acts, s)
    ensures s == At([Over(OnPath(0, 0)), Prefetching(OnPath(0, 1)).(refs := 1, out := {}),
                     StartedBy(OnPath(1, 0)).(phase := Fetch(1, false)), Closed3()],
                    PathState(Asked(1), 2), PathState(Asked(0), 1), EventState(Launch(2), 3, None, {0, 1}), [0, 3])
  {
    acts, s := LooksAgain(c);
    acts, s := Go(c, Init(c), acts, s, Release(3, Getter(1, 0), false));
    assert s.nodes[1] == Prefetching(OnPath(0, 1)).(refs := 1, out := {});
    acts, s := Go(c, Init(c), acts, s, Release(3, Getter(2, 0), false));
    assert s.nodes[3] == Closed3() && s.nodes[2] == StartedBy(OnPath(1, 0)).(phase := Fetch(1, false));
  }

  lemma Overtakes(c: Config) returns (acts: seq<Action>, s: State)
    requires IsFour(c)
    ensures Fits(c, Init(c)) && Fits(c, s) && Leads(c, Init(c), acts, s)
    ensures s == At([Over(OnPath(0, 0)), StartedBy(OnPath(0, 1)).(phase := Fetch(1, false)),
                     StartedBy(OnPath(1, 0)).(phase := Fetch(1, false)), Closed3()],
                    PathState(Asked(1), 2), PathState(Asked(0), 1), EventState(Launch(2), 3, None, {0, 1}), [0, 3])
  {
    acts, s := LetsBothGo(c);
    acts, s := Go(c, Init(c), acts, s, FetchStart(1));
    assert s.nodes[1] == StartedBy(OnPath(0, 1)).(phase := Fetch(1, false));
  }

  function Closed3(): NodeState {
    NodeState(Ended, 0, None, LeftLate(), 1, true, {})
  }

  lemma BothWork(c: Config) returns (acts: seq<Action>, s: State)
    requires IsFour(c)
    ensures Fits(c, Init(c)) && Fits(c, s) && Leads(c, Init(c), acts, s)
    ensures s == At([Over(OnPath(0, 0)), Over(OnPath(0, 1)), Over(OnPath(1, 0)), Closed3()],
                    PathState(Fired(1, None), 2), PathState(Fired(0, None), 1), EventState(Launch(2), 3, None, {0, 1}),
                    [0, 3, 1, 2])
  {
    acts, s := Overtakes(c);
    acts, s := GoToEnd(c, Init(c), acts, s, 1, 1);
    acts, s := GoLetGo(c, Init(c), acts, s, 1, 0, 1);
    assert s.nodes[1] == Over(OnPath(0, 1));
    acts, s := GoToEnd(c, Init(c), acts, s, 2, 1);
    acts, s := GoLetGo(c, Init(c), acts, s, 2, 1, 0);
    assert s.nodes[2] == Over(OnPath(1, 0));
  }

  /** The event calls back, while the closer of module 3 has not yet taken the head. */
  lemma CallsBack(c: Config) returns (acts: seq<Action>, s: State)
    requires IsFour(c)
    ensures Fits(c, Init(c)) && Fits(c, s) && Leads(c, Init(c), acts, s)
    ensures s == At([Over(OnPath(0, 0)), Over(OnPath(0, 1)), Over(OnPath(1, 0)), Closed3()],
                    PathState(Done(None), 2), PathState(Done(None), 1), EventState(Finished, 0, None, {}), [0, 3, 1, 2])
  {
    acts, s := BothWork(c);
    acts, s := Go(c, Init(c), acts, s, PathFire(0));
    acts, s := Go(c, Init(c), acts, s, PathEnd(0));
    assert s.events[0] == EventState(Launch(2), 2, None, {1});
    acts, s := Go(c, Init(c), acts, s, PathFire(1));
    acts, s := Go(c, Init(c), acts, s, PathEnd(1));
    assert s.events[0] == EventState(Launch(2), 1, None, {});
    acts, s := Go(c, Init(c), acts, s, LaunchEnd(0));
    acts, s := Go(c, Init(c), acts, s, EventFire(0));
  }

  // ---------- the next event ----------

  /** The stream has been reset. */
  ghost predicate Again(s: State) {
    && |s.nodes| == 4 && |s.paths| == 2 && |s.events| == 1 && s.queues == [] && !s.fatal && s.starts == {}
    && s.paths == [QUIET, QUIET] && s.events == [EventState(Launch(0), 1, None, {})]
    && (forall n | 0 <= n < 4 :: s.nodes[n].phase.Idle? && s.nodes[n].failed == None && s.nodes[n].out == {})
    && (forall n | 0 <= n < 4 :: Nobody(s.nodes[n].list) && !s.nodes[n].cached)
    && s.nodes[3].list.taking
  }

  /** Path 1 asks for filter 2, whose getter joins the list of module 3. */
  lemma SecondAgain(c: Config, s0: State) returns (acts: seq<Action>, s: State)
    requires IsFour(c) && Fits(c, s0) && Again(s0)
    ensures Fits(c, s) && Leads(c, s0, acts, s) && s.starts == {} && !s.fatal
    ensures s.nodes[2].phase == Fetch(0, true) && s.nodes[2].refs == 2 && s.nodes[2].failed == None && s.nodes[2].out == {0}
    ensures s.nodes[3].phase.Idle? && !s.nodes[3].cached && s.nodes[3].list.taking && !s.nodes[3].list.closed
    ensures s.nodes[3].list.waiting == {Getter(2, 0)} && s.nodes[3].list.exc == s0.nodes[3].list.exc
    ensures s.nodes[3].list.rechecks == {Getter(2, 0)}
  {
    acts, s := [], s0;
    acts, s := Go(c, s0, acts, s, LaunchPath(0));
    acts, s := GoAsk(c, s0, acts, s, 0, 0, 0);
    acts, s := Go(c, s0, acts, s, FetchEnd(0));
    acts, s := Go(c, s0, acts, s, LaunchPath(0));
    acts, s := GoAsk(c, s0, acts, s, 1, 0, 2);
    acts, s := Go(c, s0, acts, s, FetchAdd(2, false));
    assert s.nodes[3].list.waiting == {Getter(2, 0)};
  }

  /** The late closer takes it, and lets it go. */
  lemma LetsGoEarly(c: Config, s0: State) returns (acts: seq<Action>, s: State)
    requires IsFour(c) && Fits(c, s0) && Again(s0) && s0.nodes[3].list.exc == None
    ensures Fits(c, s) && Leads(c, s0, acts, s)
    ensures s.nodes[2].phase == Fetch(0, true) && s.nodes[2].refs == 1 && s.nodes[2].failed == None
    ensures s.nodes[3].phase.Idle? && !s.nodes[3].cached && Getter(2, 0) !in s.nodes[3].list.rechecks
  {
    acts, s := SecondAgain(c, s0);
    acts, s := Go(c, s0, acts, s, Take(3));
    acts, s := Go(c, s0, acts, s, Release(3, Getter(2, 0), false));
    acts, s := Go(c, s0, acts, s, Recheck(3, Getter(2, 0)));
  }

  /** Filter 2 runs on a product that is not there. */
  lemma RunsTooEarly(c: Config, s0: State) returns (acts: seq<Action>, s: State)
    requires IsFour(c) && Fits(c, s0) && Again(s0) && s0.nodes[3].list.exc == None
    ensures Leads(c, s0, acts, s) && Misses(c, s, 2, 0)
  {
    acts, s := LetsGoEarly(c, s0);
    acts, s := Go(c, s0, acts, s, FetchStart(2));
    acts, s := Go(c, s0, acts, s, FetchEnd(3));
    acts, s := Go(c, s0, acts, s, FetchEnd(2));
    acts, s := Go(c, s0, acts, s, Execute(2));
  }

  /** What the assertion in get(Getter) forbids: n runs, its prefetching went well, and what its
      i-th getter gets is not there. */
  ghost predicate Misses(c: Config, s: State, n: nat, i: nat)
    requires Valid(c)
  {
    && Fits(c, s) && n < |s.nodes| && i < |c.g.deps[n]|
    && s.nodes[n].phase.Running? && s.nodes[n].failed == None && !s.nodes[c.g.deps[n][i]].cached
  }

  lemma FourIsValid()
    ensures IsFour(Four())
  {
    var c := Four();
    assert c.pathsOf[0][0] == 0 && c.pathsOf[0][1] == 1;
  }

  lemma OneStream(c: Config)
    requires Valid(c) && |c.pathsOf| == 1
    ensures Separate(c)
  {
    forall e, d, n | Owns(c, e, n) && Owns(c, d, n) ensures e == d {
      var p: nat, j: nat :| OnPathOf(c, e, p, j);
      var q: nat, l: nat :| OnPathOf(c, d, q, l);
    }
  }

  lemma OwnsThis(c: Config, p: nat, j: nat, n: nat)
    requires Valid(c) && p < |c.filters| && j < |c.filters[p]| && c.filters[p][j] == n && c.eventOf[p] == 0
    ensures Owns(c, 0, n)
  {
    OwnsFilter(c, p, j);
  }

  lemma FourOwns(c: Config)
    requires Valid(c) && c.eventOf == [0, 0] && |c.pathsOf| == 1
    requires c.filters == [[0, 1], [2]] && |c.g.deps| == 4 && c.g.deps[1] == [3]
    ensures Separate(c) && Owns(c, 0, 0) && Owns(c, 0, 1) && Owns(c, 0, 2) && Owns(c, 0, 3)
  {
    OneStream(c);
    OwnsThis(c, 0, 0, 0);
    OwnsThis(c, 0, 1, 1);
    OwnsThis(c, 1, 0, 2);
    OwnsGetter(c, 0, 1, 0);
  }

  /** The job came to s, where its event has called back without an exception and no straggler
      is left, but a late closer; the stream goes on to another event, and in it the assertion
      fails. */
  ghost predicate Overtaken(s: State, acts: seq<Action>) {
    var c := Four();
    && IsFour(c) && Reachable(c, s) && Prepared(c, s, 0, ALWAYS) && NoStraggler(c, s, 0) && !NoLateCloser(c, s, 0)
    && Misses(c, Run(c, ResetEvent(c, s, 0), acts), 2, 0)
  }

  lemma LeavesCloser() returns (s: State)
    ensures IsFour(Four()) && Reachable(Four(), s) && Fits(Four(), s)
    ensures s == At([Over(OnPath(0, 0)), Over(OnPath(0, 1)), Over(OnPath(1, 0)), Closed3()],
                    PathState(Done(None), 2), PathState(Done(None), 1), EventState(Finished, 0, None, {}), [0, 3, 1, 2])
  {
    FourIsValid();
    var acts;
    acts, s := CallsBack(Four());
    var steps := AsJob(Stage(Four(), Init(Four())), acts);
    assert FromStart(Stage(Four(), Init(Four())), steps, Four(), s);
  }

  /** Nobody is in the list of a wrapper that has not failed. */
  predicate Left(x: NodeState) {
    x.failed == None && x.out == {} && x.list.waiting == {} && x.list.head == {} && x.list.rechecks == {}
  }

  lemma ResetAgain(c: Config, s: State)
    requires Valid(c) && Fits(c, s) && |s.nodes| == 4 && |s.paths| == 2 && c.eventOf == [0, 0] && |s.events| == 1
    requires s.queues == [] && s.starts == {} && !s.fatal && s.nodes[3].list.taking
    requires forall n: nat | n < 4 :: Owns(c, 0, n) && Left(s.nodes[n])
    ensures Again(ResetEvent(c, s, 0)) && ResetEvent(c, s, 0).nodes[3].list.exc == None
  {
    var s' := ResetEvent(c, s, 0);
    assert s'.paths == [QUIET, QUIET];
    forall n: nat | n < 4 ensures s'.nodes[n] == ResetNode(s.nodes[n]) && Left(s.nodes[n]) {
      assert Owns(c, 0, n);
    }
  }

  lemma LeftOwned(c: Config, s: State)
    requires Valid(c) && Fits(c, s) && c.eventOf == [0, 0] && |c.pathsOf| == 1
    requires c.filters == [[0, 1], [2]] && |c.g.deps| == 4 && c.g.deps[1] == [3]
    requires s.queues == [] && s.starts == {} && !s.fatal && s.nodes[3].list.taking
    requires Left(s.nodes[0]) && Left(s.nodes[1]) && Left(s.nodes[2]) && Left(s.nodes[3])
    ensures Separate(c) && Owns(c, 0, 3)
    ensures Again(ResetEvent(c, s, 0)) && ResetEvent(c, s, 0).nodes[3].list.exc == None
  {
    FourOwns(c);
    ResetAgain(c, s);
  }

  /** The reset leaves the late closer where it is. */
  lemma GoesOnTooEarly(c: Config, s: State) returns (acts: seq<Action>)
    requires IsFour(c) && Fits(c, s)
    requires s == At([Over(OnPath(0, 0)), Over(OnPath(0, 1)), Over(OnPath(1, 0)), Closed3()],
                     PathState(Done(None), 2), PathState(Done(None), 1), EventState(Finished, 0, None, {}), [0, 3, 1, 2])
    ensures Separate(c) && Owns(c, 0, 3)
    ensures Misses(c, Run(c, ResetEvent(c, s, 0), acts), 2, 0)
  {
    LeftOwned(c, s);
    var t;
    acts, t := RunsTooEarly(c, ResetEvent(c, s, 0));
  }

  /** There is such a run. */
  lemma CloserRuns()
    ensures exists s, acts :: Overtaken(s, acts)
  {
    var s := LeavesCloser();
    var acts := GoesOnTooEarly(Four(), s);
    IsOvertaken(s, acts);
  }

  /** Another event may be like the last one. */
  lemma SameWork(c: Config, s: State)
    requires Valid(c) && Fits(c, s) && Called(c, s, 0)
    ensures Prepared(c, s, 0, c.g.work)
  {
  }

  lemma IsOvertaken(s: State, acts: seq<Action>)
    requires IsFour(Four()) && Separate(Four()) && Reachable(Four(), s) && Fits(Four(), s) && Owns(Four(), 0, 3)
    requires |s.nodes| == 4 && |s.events| == 1 && s.events[0] == EventState(Finished, 0, None, {})
    requires s.starts == {} && s.nodes[3].list.taking
    requires Misses(Four(), Run(Four(), ResetEvent(Four(), s, 0), acts), 2, 0)
    ensures Overtaken(s, acts)
  {
    SameWork(Four(), s);
    assert !ClosersPast(s.nodes[3].list);
  }
}
