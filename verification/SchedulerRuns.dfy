// Runs written out step by step.

module SchedulerRuns {
  import opened Schedulers
  import opened Basics
  import opened ModuleGraphs
  import opened SchedulerNextEvent
  import WL = WaitLists

  lemma {:induction false} RunOneMore(c: Config, s: State, acts: seq<Action>, a: Action)
    requires Valid(c) && Fits(c, s)
    ensures Run(c, s, acts + [a]) == Step(c, Run(c, s, acts), a)
    decreases |acts|
  {
    if acts == [] {
      assert Run(c, s, [a]) == Run(c, Step(c, s, a), [a][1..]);
    } else {
      assert (acts + [a])[1..] == acts[1..] + [a];
      RunOneMore(c, Step(c, s, acts[0]), acts[1..], a);
    }
  }

  /** The run `acts` leads from s0 to s. */
  ghost predicate Leads(c: Config, s0: State, acts: seq<Action>, s: State)
    requires Valid(c)
  {
    Fits(c, s0) && Run(c, s0, acts) == s
  }

  /** One more step. */
  lemma Go(c: Config, s0: State, acts: seq<Action>, s: State, a: Action) returns (more: seq<Action>, s': State)
    requires Valid(c) && Fits(c, s) && Leads(c, s0, acts, s) && Enabled(c, s, a)
    ensures Fits(c, s') && Leads(c, s0, more, s') && s' == Apply(c, s, a)
  {
    RunOneMore(c, s0, acts, a);
    ApplyFits(c, s, a);
    more, s' := acts + [a], Apply(c, s, a);
  }

  /** A run of one event is a run of the job. */
  lemma {:induction false} AsJob(g: Stage, acts: seq<Action>) returns (steps: seq<JobStep>)
    requires Sane(g)
    ensures RunJob(g, steps) == Stage(g.c, Run(g.c, g.s, acts))
    decreases |acts|
  {
    if acts == [] {
      steps := [];
    } else {
      var rest := AsJob(StageStep(g, Act(acts[0])), acts[1..]);
      steps := [Act(acts[0])] + rest;
      assert steps[1..] == rest;
    }
  }

  const QUIET: PathState := PathState(Dormant, 0)

  /** Nothing more to get, no queue, and a product that does not depend on anything. */
  ghost predicate WorksFreely(c: Config, n: nat, v: int)
    requires Valid(c)
  {
    n < |c.g.deps| && c.queue[n] == None && forall inputs :: c.g.work(n, inputs) == Put(v)
  }

  /** A module at the end of its prefetching works and closes its list. */
  lemma GoToEnd(c: Config, s0: State, before: seq<Action>, s: State, n: nat, v: int)
    returns (acts: seq<Action>, s': State)
    requires Valid(c) && Fits(c, s) && Leads(c, s0, before, s) && WorksFreely(c, n, v)
    requires s.nodes[n].phase == Fetch(|c.g.deps[n]|, false) && s.nodes[n].refs == 1 && s.nodes[n].failed == None
    ensures Fits(c, s') && Leads(c, s0, acts, s')
    ensures s' == s.(nodes := s.nodes[n := AtEnd(s.nodes[n], v)], ran := s.ran + [n])
  {
    acts, s' := Go(c, s0, before, s, FetchEnd(n));
    acts, s' := Go(c, s0, acts, s', Execute(n));
    acts, s' := Go(c, s0, acts, s', Work(n));
    acts, s' := Go(c, s0, acts, s', Announce(n));
    assert s'.nodes == s.nodes[n := AtEnd(s.nodes[n], v)];
  }

  function AtEnd(x: NodeState, v: int): NodeState {
    x.(phase := Ended, refs := 0, value := v, cached := true, list := WL.Close(x.list, None))
  }

  /** A path asks for its next filter, for which nobody else waits. */
  lemma GoJoin(c: Config, s0: State, before: seq<Action>, s: State, p: nat, j: nat, f: nat)
    returns (acts: seq<Action>, s': State)
    requires Valid(c) && Fits(c, s) && Leads(c, s0, before, s) && !s.fatal
    requires p < |s.paths| && s.paths[p].pc == Request(j) && j < |c.filters[p]| && f == c.filters[p][j]
    requires Nobody(s.nodes[f].list)
    ensures Fits(c, s') && Leads(c, s0, acts, s')
    ensures s' == s.(paths := s.paths[p := PathState(Asked(j), j + 1)], starts := s.starts + {Starter(p, j)},
                     nodes := s.nodes[f := s.nodes[f].(list := JoinedBy(s.nodes[f].list, OnPath(p, j)))])
  {
    acts, s' := Go(c, s0, before, s, PathRequest(p));
    acts, s' := Go(c, s0, acts, s', PathAsk(p, false));
    acts, s' := Go(c, s0, acts, s', Recheck(f, OnPath(p, j)));
    assert s'.nodes[f].list == JoinedBy(s.nodes[f].list, OnPath(p, j));
  }

  /** And starts it. */
  lemma GoAsk(c: Config, s0: State, before: seq<Action>, s: State, p: nat, j: nat, f: nat)
    returns (acts: seq<Action>, s': State)
    requires Valid(c) && Fits(c, s) && Leads(c, s0, before, s) && !s.fatal && Starter(p, j) !in s.starts
    requires p < |s.paths| && s.paths[p].pc == Request(j) && j < |c.filters[p]| && f == c.filters[p][j]
    requires s.nodes[f].phase.Idle? && Nobody(s.nodes[f].list)
    ensures Fits(c, s') && Leads(c, s0, acts, s')
    ensures s' == s.(paths := s.paths[p := PathState(Asked(j), j + 1)],
                     nodes := s.nodes[f := s.nodes[f].(phase := Fetch(0, false), refs := 1,
                                                       list := JoinedBy(s.nodes[f].list, OnPath(p, j)))])
  {
    acts, s' := GoJoin(c, s0, before, s, p, j, f);
    acts, s' := Go(c, s0, acts, s', StartFilter(Starter(p, j)));
    assert s'.starts == s.starts;
  }

  /** An open list that nobody has joined, and one that somebody has who is still at its head. */
  predicate Nobody(l: WL.WaitList<Waiter>) {
    !l.closed && l.waiting == {} && l.head == {} && l.rechecks == {}
  }

  function JoinedBy(l: WL.WaitList<Waiter>, w: Waiter): WL.WaitList<Waiter> {
    l.(waiting := {w}, head := {w}, joined := l.joined + {w})
  }

  /** The closer takes the one path that waits, and it is let go. */
  lemma GoLetGo(c: Config, s0: State, before: seq<Action>, s: State, f: nat, p: nat, j: nat)
    returns (acts: seq<Action>, s': State)
    requires Valid(c) && Fits(c, s) && Leads(c, s0, before, s) && f < |s.nodes| && p < |s.paths|
    requires s.nodes[f].list.taking && s.nodes[f].list.waiting == {OnPath(p, j)} && s.paths[p].pc == Asked(j)
    ensures Fits(c, s') && Leads(c, s0, acts, s')
    ensures s' == s.(paths := s.paths[p := s.paths[p].(pc := Fired(j, s.nodes[f].list.exc))],
                     nodes := s.nodes[f := s.nodes[f].(list := s.nodes[f].list.(waiting := {}, head := {}, taking := false))])
  {
    acts, s' := Go(c, s0, before, s, Take(f));
    acts, s' := Go(c, s0, acts, s', Release(f, OnPath(p, j), false));
    assert s'.nodes[f].list == s.nodes[f].list.(waiting := {}, head := {}, taking := false);
  }
}
