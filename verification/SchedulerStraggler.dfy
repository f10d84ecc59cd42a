// A run that leaves a straggler: two paths share their second filter, and the thread of the
// second path that asked for it is held up just before the exchange. The event calls back,
// the stream goes on, and the late exchange runs the filter for the next event, which rejects
// at the first filter.

module SchedulerStraggler {
  import opened Basics
  import opened ModuleGraphs
  import opened Schedulers
  import opened SchedulerProgress
  import opened SchedulerReuse
  import opened SchedulerReset
  import opened SchedulerNextEvent
  import opened SchedulerRuns
  import WL = WaitLists

  /** One event, two paths, both with filter 0 and then filter 1; nothing is got. Filter 0
      makes `first`, filter 1 keeps. */
  function Two(first: int): Config {
    Config(Graph([[], []], [0, 0], (n, inputs) => Put(if n == 0 then first else 1)),
           [None, None], 0, [[0, 1], [0, 1]], [0, 0], [[0, 1]])
  }

  /** What of it decides the steps. */
  ghost predicate IsTwo(c: Config, first: int) {
    && Valid(c) && c.filters == [[0, 1], [0, 1]] && c.eventOf == [0, 0] && c.pathsOf == [[0, 1]]
    && c.queue == [None, None] && c.queues == 0 && c.g.deps == [[], []]
    && forall n: nat, inputs :: c.g.work(n, inputs) == Put(if n == 0 then first else 1)
  }

  lemma TwoIsValid(first: int)
    ensures IsTwo(Two(first), first) && Separate(Two(first))
    ensures Owns(Two(first), 0, 0) && Owns(Two(first), 0, 1)
  {
    var c := Two(first);
    assert c.pathsOf[0][0] == 0 && c.pathsOf[0][1] == 1;
    assert IsTwo(c, first);
    TwoOwns(c, first);
  }

  /** The one event owns both filters. */
  lemma TwoOwns(c: Config, first: int)
    requires IsTwo(c, first)
    ensures Separate(c) && Owns(c, 0, 0) && Owns(c, 0, 1)
  {
    OwnsFilter(c, 0, 0);
    OwnsFilter(c, 0, 1);
    forall e, d, n | Owns(c, e, n) && Owns(c, d, n) ensures e == d {
      var p: nat, j: nat :| OnPathOf(c, e, p, j);
      var q: nat, l: nat :| OnPathOf(c, d, q, l);
    }
  }

  /** A wrapper with an open list, before its work, and one that has ended. */
  function Open(phase: Phase, refs: nat, waiting: set<Waiter>): NodeState {
    NodeState(phase, refs, None, WL.WaitList(false, None, waiting, waiting, {}, false, waiting, CACHE, false, false),
              0, false, {})
  }

  function Over(joined: set<Waiter>): NodeState {
    NodeState(Ended, 0, None, WL.WaitList(true, None, {}, {}, {}, false, joined, CACHE, false, false), 1, true, {})
  }

  /** A state of the job: its two filters, its two paths, its event. */
  function At(x: NodeState, y: NodeState, p: PathState, q: PathState, e: EventState, starts: set<Starter>,
              ran: seq<nat>): State {
    State([x, y], [], [p, q], [e], starts, false, ran)
  }

  /** The first path asks for filter 0 and starts it. */
  lemma FirstAsks(c: Config) returns (acts: seq<Action>, s: State)
    requires IsTwo(c, 1)
    ensures Fits(c, Init(c)) && Leads(c, Init(c), acts, s)
    ensures s == At(Open(Fetch(0, false), 1, {OnPath(0, 0)}), Open(Idle, 0, {}), PathState(Asked(0), 1), QUIET,
                    EventState(Launch(1), 2, None, {0}), {}, [])
  {
    s := Init(c);
    assert s == At(Open(Idle, 0, {}), Open(Idle, 0, {}), QUIET, QUIET, EventState(Launch(0), 1, None, {}), {}, []);
    acts := [];
    acts, s := Go(c, Init(c), acts, s, LaunchPath(0));
    assert s.events[0].live == {0};
    acts, s := Go(c, Init(c), acts, s, PathRequest(0));
    acts, s := Go(c, Init(c), acts, s, PathAsk(0, false));
    acts, s := Go(c, Init(c), acts, s, Recheck(0, OnPath(0, 0)));
    assert s.nodes[0] == Open(Idle, 0, {OnPath(0, 0)});
    acts, s := Go(c, Init(c), acts, s, StartFilter(Starter(0, 0)));
    assert s.starts == {};
  }

  lemma FirstGoesOn(c: Config) returns (acts: seq<Action>, s: State)
    requires IsTwo(c, 1)
    ensures Fits(c, Init(c)) && Leads(c, Init(c), acts, s)
    ensures s == At(Over({OnPath(0, 0)}), Open(Fetch(0, false), 1, {OnPath(0, 1)}), PathState(Asked(1), 2), QUIET,
                    EventState(Launch(1), 2, None, {0}), {}, [0])
  {
    acts, s := FirstAsks(c);
    acts, s := FilterEnds(c, acts, s, 0);
    acts, s := Go(c, Init(c), acts, s, PathFire(0));
    acts, s := Go(c, Init(c), acts, s, PathRequest(0));
    acts, s := Go(c, Init(c), acts, s, PathAsk(0, false));
    acts, s := Go(c, Init(c), acts, s, Recheck(1, OnPath(0, 1)));
    assert s.nodes[1] == Open(Idle, 0, {OnPath(0, 1)});
    acts, s := Go(c, Init(c), acts, s, StartFilter(Starter(0, 1)));
    assert s.starts == {};
  }

  /** A filter that the first path waits for runs, keeps the event, and lets the path go. */
  lemma FilterEnds(c: Config, before: seq<Action>, s0: State, f: nat) returns (acts: seq<Action>, s: State)
    requires IsTwo(c, 1) && Fits(c, Init(c)) && Leads(c, Init(c), before, s0) && f < 2
    requires s0 == At(s0.nodes[0], s0.nodes[1], s0.paths[0], s0.paths[1], s0.events[0], {}, s0.ran)
    requires s0.nodes[f] == Open(Fetch(0, false), 1, {OnPath(0, f)}) && s0.paths[0].pc == Asked(f)
    ensures Leads(c, Init(c), acts, s)
    ensures s == s0.(nodes := s0.nodes[f := Over({OnPath(0, f)})], ran := s0.ran + [f],
                     paths := s0.paths[0 := s0.paths[0].(pc := Fired(f, None))])
  {
    assert WorksFreely(c, f, 1);
    acts, s := GoToEnd(c, Init(c), before, s0, f, 1);
    acts, s := Go(c, Init(c), acts, s, Take(f));
    acts, s := Go(c, Init(c), acts, s, Release(f, OnPath(0, f), false));
    assert s.nodes[f] == Over({OnPath(0, f)});
  }

  lemma FirstEnds(c: Config) returns (acts: seq<Action>, s: State)
    requires IsTwo(c, 1)
    ensures Fits(c, Init(c)) && Leads(c, Init(c), acts, s)
    ensures s == At(Over({OnPath(0, 0)}), Over({OnPath(0, 1)}), PathState(Done(None), 2), QUIET, EventState(Launch(1), 1, None, {}), {}, [0, 1])
  {
    acts, s := FirstGoesOn(c);
    acts, s := FilterEnds(c, acts, s, 1);
    acts, s := Go(c, Init(c), acts, s, PathFire(0));
    acts, s := Go(c, Init(c), acts, s, PathEnd(0));
    assert s.events[0] == EventState(Launch(1), 1, None, {});
  }

  /** The second path finds filter 0 done. */
  lemma SecondAsks(c: Config) returns (acts: seq<Action>, s: State)
    requires IsTwo(c, 1)
    ensures Fits(c, Init(c)) && Leads(c, Init(c), acts, s)
    ensures s == At(Over({OnPath(0, 0)}), Over({OnPath(0, 1)}), PathState(Done(None), 2), PathState(Fired(0, None), 1),
                    EventState(Launched, 1, None, {1}), {}, [0, 1])
  {
    acts, s := FirstEnds(c);
    acts, s := Go(c, Init(c), acts, s, LaunchPath(0));
    assert s.events[0].live == {1};
    acts, s := Go(c, Init(c), acts, s, PathRequest(1));
    acts, s := Go(c, Init(c), acts, s, PathAsk(1, false));
    acts, s := Go(c, Init(c), acts, s, StartFilter(Starter(1, 0)));
    assert s.starts == {};
    acts, s := Go(c, Init(c), acts, s, LaunchEnd(0));
  }

  /** It finds filter 1 done too and is let go at once; the thread that asked is held up before
      its exchange, while the path ends and the event calls back. */
  lemma SecondHeldUp(c: Config) returns (acts: seq<Action>, s: State)
    requires IsTwo(c, 1)
    ensures Fits(c, Init(c)) && Leads(c, Init(c), acts, s)
    ensures s == At(Over({OnPath(0, 0)}), Over({OnPath(0, 1)}), PathState(Done(None), 2), PathState(Done(None), 2),
                    EventState(Finished, 0, None, {}), {Starter(1, 1)}, [0, 1])
  {
    acts, s := SecondAsks(c);
    acts, s := Go(c, Init(c), acts, s, PathFire(1));
    acts, s := Go(c, Init(c), acts, s, PathRequest(1));
    acts, s := Go(c, Init(c), acts, s, PathAsk(1, false));
    assert s.starts == {Starter(1, 1)};
    acts, s := Go(c, Init(c), acts, s, PathFire(1));
    acts, s := Go(c, Init(c), acts, s, PathEnd(1));
    assert s.events[0] == EventState(Scheduled, 0, None, {});
    acts, s := Go(c, Init(c), acts, s, EventFire(0));
  }

  /** In the next event, which filter 0 rejects, the straggler starts filter 1. */
  lemma LateStart(c: Config, s0: State) returns (acts: seq<Action>, s: State)
    requires IsTwo(c, 0) && Fits(c, s0) && Starter(1, 1) in s0.starts
    requires s0.nodes[1] == ResetNode(Over({OnPath(0, 1)}))
    ensures Leads(c, s0, acts, s) && 1 in s.ran
  {
    acts, s := [], s0;
    acts, s := Go(c, s0, acts, s, StartFilter(Starter(1, 1)));
    acts, s := Go(c, s0, acts, s, FetchEnd(1));
    acts, s := Go(c, s0, acts, s, Execute(1));
    acts, s := Go(c, s0, acts, s, Work(1));
    assert 1 in s.ran;
  }

  /** The job came to s, where its event has called back without an exception and a straggler
      is left; the stream goes on to an event whose paths both end after filter 0; and filter 1
      runs in it. */
  ghost predicate Strays(s: State, work: (nat, seq<int>) -> Outcome, acts: seq<Action>) {
    var c := Two(1);
    && IsTwo(c, 1) && Reachable(c, s) && Prepared(c, s, 0, work) && !NoStraggler(c, s, 0)
    && var c' := Reworked(c, work);
    && IsTwo(c', 0) && Visited(c'.g, c'.filters[0], 0) == 1 && Visited(c'.g, c'.filters[1], 0) == 1
    && 1 in Run(c', ResetEvent(c, s, 0), acts).ran
  }

  lemma LeavesStraggler() returns (s: State)
    ensures IsTwo(Two(1), 1) && Reachable(Two(1), s)
    ensures s == At(Over({OnPath(0, 0)}), Over({OnPath(0, 1)}), PathState(Done(None), 2), PathState(Done(None), 2),
                    EventState(Finished, 0, None, {}), {Starter(1, 1)}, [0, 1])
  {
    TwoIsValid(1);
    var acts;
    acts, s := SecondHeldUp(Two(1));
    var steps := AsJob(Stage(Two(1), Init(Two(1))), acts);
    assert FromStart(Stage(Two(1), Init(Two(1))), steps, Two(1), s);
  }

  lemma OtherWork()
    ensures IsTwo(Two(1), 1) && OnlyFor(Two(1), 0, Two(0).g.work)
    ensures Reworked(Two(1), Two(0).g.work) == Two(0)
  {
    TwoIsValid(1);
    forall n: nat, inputs ensures Owns(Two(1), 0, n) || Two(0).g.work(n, inputs) == Two(1).g.work(n, inputs) {
      SameButFirst(n, inputs);
    }
  }

  lemma SameButFirst(n: nat, inputs: seq<int>)
    ensures n == 0 || Two(0).g.work(n, inputs) == Two(1).g.work(n, inputs)
  {
  }

  lemma GoesOnAstray(s: State) returns (acts: seq<Action>)
    requires IsTwo(Two(1), 1) && IsTwo(Two(0), 0) && Fits(Two(1), s) && |s.events| == 1
    requires Starter(1, 1) in s.starts && s.nodes[1] == Over({OnPath(0, 1)}) && Owns(Two(1), 0, 1)
    ensures Fits(Two(0), ResetEvent(Two(1), s, 0)) && 1 in Run(Two(0), ResetEvent(Two(1), s, 0), acts).ran
  {
    var t;
    acts, t := LateStart(Two(0), ResetEvent(Two(1), s, 0));
  }

  /** There is such a run. */
  lemma StragglerRuns()
    ensures exists s, work, acts :: Strays(s, work, acts)
  {
    TwoIsValid(1);
    TwoIsValid(0);
    var s := LeavesStraggler();
    var acts := GoesOnAstray(s);
    Astray(s, acts);
  }

  lemma Astray(s: State, acts: seq<Action>)
    requires IsTwo(Two(1), 1) && IsTwo(Two(0), 0) && Separate(Two(1)) && Reachable(Two(1), s)
    requires |s.events| == 1 && s.events[0] == EventState(Finished, 0, None, {}) && Starter(1, 1) in s.starts
    requires 1 in Run(Two(0), ResetEvent(Two(1), s, 0), acts).ran
    ensures Strays(s, Two(0).g.work, acts)
  {
    OtherWork();
    RejectsFirst(Two(0));
    assert Two(1).eventOf[1] == 0;
  }

  lemma RejectsFirst(c: Config)
    requires IsTwo(c, 0)
    ensures Visited(c.g, c.filters[0], 0) == 1 && Visited(c.g, c.filters[1], 0) == 1
  {
    assert Inputs(c.g, 0, 0) == Some([]);
    VisitedIs(c.g, c.filters[0], 0, 1);
    VisitedIs(c.g, c.filters[1], 0, 1);
  }
}
