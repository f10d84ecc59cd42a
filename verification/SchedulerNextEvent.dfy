// When a stream may go on to its next event: exactly when no thread of the last one is left
// that has still to exchange the m_workStarted of one of its filters, or to take the head of a
// list that it closed, or to look at a node that the reset deletes. And the runs of a job
// whose streams process one event after the other.

module SchedulerNextEvent {
  import opened Basics
  import opened ModuleGraphs
  import opened Schedulers
  import opened SchedulerPrefetch
  import opened SchedulerPaths
  import opened SchedulerDemand
  import opened SchedulerStarters
  import opened SchedulerLists
  import opened SchedulerProgress
  import opened SchedulerReuse
  import opened SchedulerReset
  import WL = WaitLists

  // ---------- fit for the next event ----------

  /** However the job goes on, the wrapper n starts only if a filter that needs it has been
      requested for the event under way. */
  ghost predicate WaitsForDemand(c: Config, s: State, n: nat)
    requires Valid(c) && Fits(c, s)
  {
    forall acts :: OnDemand(c, Run(c, s, acts), n)
  }

  ghost predicate OnDemand(c: Config, s: State, n: nat)
    requires Valid(c) && Fits(c, s)
  {
    n < |s.nodes| && !s.nodes[n].phase.Idle? ==> Wanted(c, s, n)
  }

  /** A wrapper as in the beginning, but for its value, which nobody may read yet, and the size
      of its list's cache. */
  predicate AsNew(x: NodeState) {
    && x.phase.Idle? && x.refs == 0 && x.failed == None && x.out == {} && !x.cached
    && !x.list.closed && x.list.exc == None && x.list.joined == {}
    && x.list.waiting == {} && x.list.head == {} && x.list.rechecks == {}
  }

  /** The wrappers of e are as new. They wait to be asked for; and whatever is done with their
      lists, nobody is let go before the module has worked. */
  ghost predicate Fresh(c: Config, s: State, e: nat)
    requires Valid(c) && Fits(c, s)
  {
    forall n: nat {:trigger Owns(c, e, n)} | n < |s.nodes| && Owns(c, e, n) ::
      AsNew(s.nodes[n]) && WL.Fit(s.nodes[n].list) && WaitsForDemand(c, s, n)
  }

  /** A straggler starts its filter for an event that has not asked for it. */
  lemma StragglerStarts(c: Config, s: State, e: nat, work: (nat, seq<int>) -> Outcome, t: Starter)
    requires Valid(c) && Fits(c, s) && Inv(c, s) && Prepared(c, s, e, work) && Valid(Reworked(c, work))
    requires t in s.starts && t.path < |c.eventOf| && c.eventOf[t.path] == e
    requires t.at < |c.filters[t.path]| && OnPath(t.path, t.at) !in s.nodes[c.filters[t.path][t.at]].list.rechecks
    ensures var c', s' := Reworked(c, work), ResetEvent(c, s, e);
      && Enabled(c', s', StartFilter(t))
      && var f := c.filters[t.path][t.at];
      && Owns(c, e, f)
      && Fits(c', Apply(c', s', StartFilter(t)))
      && !OnDemand(c', Apply(c', s', StartFilter(t)), f)
  {
    var c', s' := Reworked(c, work), ResetEvent(c, s, e);
    assert StarterAt(c, s, t);
    var f := c.filters[t.path][t.at];
    OwnsFilter(c, t.path, t.at);
    var s'' := Apply(c', s', StartFilter(t));
    forall p: nat, j: nat | Requested(c', s'', p, j) ensures f !in Needs(c'.g, c'.filters[p][j]) {
      SameNeeds(c.g, c'.g, c.filters[p][j]);
      if f in Needs(c.g, c.filters[p][j]) {
        assert OnPathOf(c, c.eventOf[p], p, j);
        assert Owns(c, c.eventOf[p], f);
      }
    }
  }

  lemma FreshWithout(c: Config, s: State, e: nat, work: (nat, seq<int>) -> Outcome, n: nat)
    requires Valid(c) && Fits(c, s) && Inv(c, s) && Prepared(c, s, e, work) && Valid(Reworked(c, work))
    requires NoStraggler(c, s, e) && NoLateCloser(c, s, e) && n < |s.nodes| && Owns(c, e, n)
    ensures AsNew(ResetEvent(c, s, e).nodes[n]) && WL.Fit(ResetEvent(c, s, e).nodes[n].list)
    ensures WaitsForDemand(Reworked(c, work), ResetEvent(c, s, e), n)
  {
    var c', s' := Reworked(c, work), ResetEvent(c, s, e);
    ResetKeepsInv(c, s, e, work);
    ResetIsNew(c, s, e, n);
    WL.FitExactly(s'.nodes[n].list, Getter(0, 0));
    forall acts ensures OnDemand(c', Run(c', s', acts), n) {
      RunKeepsInv(c', s', acts);
      assert WantedAt(c', Run(c', s', acts), n);
    }
  }

  lemma ResetIsNew(c: Config, s: State, e: nat, n: nat)
    requires Valid(c) && Fits(c, s) && Inv(c, s) && Called(c, s, e)
    requires NoStraggler(c, s, e) && n < |s.nodes| && Owns(c, e, n)
    ensures AsNew(ResetEvent(c, s, e).nodes[n]) && !s.nodes[n].list.deleted
  {
    FinishedWrapper(c, s, e, n);
    assert NodeAt(c, s, n) && ListAt(c, s, n);
    forall w ensures w !in s.nodes[n].list.waiting && w !in s.nodes[n].list.rechecks {
      NobodyWaitsFor(c, s, e, n, w);
      NobodyInside(c, s, e, n, w);
    }
  }

  lemma StaleWith(c: Config, s: State, e: nat, work: (nat, seq<int>) -> Outcome, t: Starter)
    requires Valid(c) && Fits(c, s) && Inv(c, s) && Prepared(c, s, e, work) && Valid(Reworked(c, work))
    requires t in s.starts && t.path < |c.eventOf| && c.eventOf[t.path] == e
    ensures !Fresh(Reworked(c, work), ResetEvent(c, s, e), e)
  {
    var c', s' := Reworked(c, work), ResetEvent(c, s, e);
    assert StarterAt(c, s, t);
    var f := c.filters[t.path][t.at];
    OwnsFilter(c, t.path, t.at);
    SameOwns(c, work, e, f);
    if OnPath(t.path, t.at) in s.nodes[f].list.rechecks {
      assert !AsNew(s'.nodes[f]);
    } else {
      StragglerStarts(c, s, e, work, t);
      OneStep(c', s', StartFilter(t));
      assert !OnDemand(c', Run(c', s', [StartFilter(t)]), f);
    }
  }

  /** A late closer makes the list unfit. */
  lemma UnfitWith(c: Config, s: State, e: nat, work: (nat, seq<int>) -> Outcome, n: nat)
    requires Valid(c) && Fits(c, s) && Inv(c, s) && Prepared(c, s, e, work) && Valid(Reworked(c, work))
    requires n < |s.nodes| && Owns(c, e, n) && !ClosersPast(s.nodes[n].list)
    ensures !Fresh(Reworked(c, work), ResetEvent(c, s, e), e)
  {
    SameOwns(c, work, e, n);
    assert ListAt(c, s, n);
    forall w ensures w !in s.nodes[n].list.waiting {
      NobodyWaitsFor(c, s, e, n, w);
    }
    WL.FitExactly(ResetEvent(c, s, e).nodes[n].list, Getter(0, 0));
  }

  /** The code resets a stream when its event has called back without an exception. For every
      such moment, whatever else is in flight and whatever the next event is: the wrappers are
      fit for the next event if and only if no straggler of the last one is left, and nobody
      that closed one of their lists and is not past its head. */
  lemma FreshExactly(c: Config, s: State, e: nat, work: (nat, seq<int>) -> Outcome)
    requires Valid(c) && Fits(c, s) && Inv(c, s) && Prepared(c, s, e, work)
    ensures Valid(Reworked(c, work))
    ensures Fresh(Reworked(c, work), ResetEvent(c, s, e), e) <==> NoStraggler(c, s, e) && NoLateCloser(c, s, e)
  {
    StillValid(c, work);
    if t :| t in s.starts && t.path < |c.eventOf| && c.eventOf[t.path] == e {
      StaleWith(c, s, e, work, t);
    } else if n: nat :| n < |s.nodes| && Owns(c, e, n) && !ClosersPast(s.nodes[n].list) {
      UnfitWith(c, s, e, work, n);
    } else {
      forall n: nat | n < |s.nodes| && Owns(Reworked(c, work), e, n)
        ensures AsNew(ResetEvent(c, s, e).nodes[n]) && WL.Fit(ResetEvent(c, s, e).nodes[n].list)
        ensures WaitsForDemand(Reworked(c, work), ResetEvent(c, s, e), n)
      {
        SameOwns(c, work, e, n);
        FreshWithout(c, s, e, work, n);
      }
    }
  }

  lemma OneStep(c: Config, s: State, a: Action)
    requires Valid(c) && Fits(c, s) && Enabled(c, s, a)
    ensures Run(c, s, [a]) == Apply(c, s, a)
  {
    assert Run(c, s, [a]) == Run(c, Step(c, s, a), [a][1..]);
  }

  // ---------- the runs of a job ----------

  /** The job with the events under way, and where it has come to. */
  datatype Stage = Stage(c: Config, s: State)

  /** A step of the job: an action, or a stream going on to an event with this work. */
  datatype JobStep = Act(action: Action) | NextEvent(event: nat, work: (nat, seq<int>) -> Outcome)

  ghost predicate Sane(g: Stage) {
    Valid(g.c) && Fits(g.c, g.s)
  }

  ghost predicate GoesOnTo(g: Stage, e: nat, work: (nat, seq<int>) -> Outcome)
    requires Sane(g)
  {
    Prepared(g.c, g.s, e, work) && NoStraggler(g.c, g.s, e) && NoLateCloser(g.c, g.s, e)
  }

  ghost function StageStep(g: Stage, st: JobStep): (g': Stage)
    requires Sane(g)
    ensures Sane(g')
  {
    match st
    case Act(a) => Stage(g.c, Step(g.c, g.s, a))
    case NextEvent(e, work) =>
      if GoesOnTo(g, e, work) then StillValid(g.c, work); Stage(Reworked(g.c, work), ResetEvent(g.c, g.s, e))
      else g
  }

  ghost function RunJob(g: Stage, steps: seq<JobStep>): (g': Stage)
    requires Sane(g)
    ensures Sane(g')
    decreases |steps|
  {
    if steps == [] then g else RunJob(StageStep(g, steps[0]), steps[1..])
  }

  lemma StageKeepsInv(g: Stage, st: JobStep)
    requires Sane(g) && Inv(g.c, g.s)
    ensures Inv(StageStep(g, st).c, StageStep(g, st).s)
  {
    match st
    case Act(a) =>
      if Enabled(g.c, g.s, a) {
        ApplyKeepsInv(g.c, g.s, a);
      }
    case NextEvent(e, work) =>
      if GoesOnTo(g, e, work) {
        ResetKeepsInv(g.c, g.s, e, work);
      }
  }

  lemma {:induction false} RunJobKeepsInv(g: Stage, steps: seq<JobStep>)
    requires Sane(g) && Inv(g.c, g.s)
    ensures Inv(RunJob(g, steps).c, RunJob(g, steps).s)
    decreases |steps|
  {
    if steps != [] {
      StageKeepsInv(g, steps[0]);
      RunJobKeepsInv(StageStep(g, steps[0]), steps[1..]);
    }
  }

  /** What some interleaving of some number of threads comes to, of a job whose streams may have
      processed any number of events: c has the events that are under way in s. */
  ghost predicate Reachable(c: Config, s: State)
    requires Valid(c)
  {
    Fits(c, s) && exists g, steps :: FromStart(g, steps, c, s)
  }

  ghost predicate FromStart(g: Stage, steps: seq<JobStep>, c: Config, s: State) {
    Valid(g.c) && g.s == Init(g.c) && Fits(g.c, g.s) && RunJob(g, steps) == Stage(c, s)
  }

  lemma Reached(c: Config, s: State)
    requires Valid(c) && Reachable(c, s)
    ensures Inv(c, s)
  {
    var g, steps :| FromStart(g, steps, c, s);
    InitInv(g.c);
    RunJobKeepsInv(g, steps);
  }
}
