// What every interleaving of the asynchronous run gives: the values of the recursive
// evaluation, each module once, the sequential filters, and the right exceptions.

module SchedulerTheorems {
  import opened Basics
  import opened ModuleGraphs
  import opened Schedulers
  import opened SchedulerPrefetch
  import opened SchedulerQueues
  import opened SchedulerValues
  import opened SchedulerPaths
  import opened SchedulerDemand
  import SchedulerLists
  import opened SchedulerProgress
  import opened SchedulerReuse
  import opened SchedulerNextEvent
  import WL = WaitLists

  // ---------- values ----------

  /** At every moment of every run, a module that is done has the outcome that the recursive
      evaluation gives it, and the others have no product yet. */
  lemma DoneHasOutcome(c: Config, s: State, n: nat)
    requires Valid(c) && Reachable(c, s) && n < |c.g.deps|
    ensures var x := s.nodes[n];
      && (x.phase.Ended? ==> Carries(Eval(c.g, n), Culprits(c.g, n), x.list.exc, x))
      && (x.cached ==> Eval(c.g, n) == Ok(x.value))
      && (!x.phase.Worked? && !x.phase.Ended? ==> !x.cached)
  {
    Reached(c, s);
    assert MeaningAt(c, s, n) && NodeAt(c, s, n);
  }

  /** When a run is over, exactly what some requested filter needs has been started; it has
      all come to the outcome of the recursive evaluation, and the own code of those whose
      inputs are there ran, once each. */
  lemma RunComputes(c: Config, s: State)
    requires Valid(c) && Reachable(c, s) && Complete(c, s)
    ensures
      && (forall n: nat {:trigger Wanted(c, s, n)} | n < |s.nodes| ::
            if Wanted(c, s, n) then Carries(Eval(c.g, n), Culprits(c.g, n), s.nodes[n].list.exc, s.nodes[n])
            else s.nodes[n].phase.Idle? && !s.nodes[n].cached)
      && (forall n: nat {:trigger Wanted(c, s, n)} ::
            n in s.ran <==> n < |s.nodes| && Wanted(c, s, n) && Inputs(c.g, n, |c.g.deps[n]|).Some?)
      && (forall j, k | 0 <= j < k < |s.ran| :: s.ran[j] != s.ran[k])
  {
    Reached(c, s);
    forall n: nat | n < |s.nodes|
      ensures if Wanted(c, s, n) then Carries(Eval(c.g, n), Culprits(c.g, n), s.nodes[n].list.exc, s.nodes[n])
              else s.nodes[n].phase.Idle? && !s.nodes[n].cached
      ensures n in s.ran <==> Wanted(c, s, n) && Inputs(c.g, n, |c.g.deps[n]|).Some?
    {
      NodeComputed(c, s, n);
    }
    forall n: nat | n >= |s.nodes| ensures n !in s.ran {
      assert RanAt(c, s, n);
    }
  }

  lemma NodeComputed(c: Config, s: State, n: nat)
    requires Valid(c) && Fits(c, s) && Inv(c, s) && Complete(c, s) && n < |s.nodes|
    ensures if Wanted(c, s, n) then Carries(Eval(c.g, n), Culprits(c.g, n), s.nodes[n].list.exc, s.nodes[n])
            else s.nodes[n].phase.Idle? && !s.nodes[n].cached
    ensures n in s.ran <==> Wanted(c, s, n) && Inputs(c.g, n, |c.g.deps[n]|).Some?
  {
    assert MeaningAt(c, s, n) && NodeAt(c, s, n) && RanAt(c, s, n) && WantedAt(c, s, n);
    if Wanted(c, s, n) {
      WantedDone(c, s, n);
      EndedInputs(c, s, n);
    }
  }

  lemma WantedDone(c: Config, s: State, n: nat)
    requires Valid(c) && Fits(c, s) && Inv(c, s) && Complete(c, s) && n < |s.nodes| && Wanted(c, s, n)
    ensures s.nodes[n].list.closed
  {
    var p: nat, j: nat :| Requested(c, s, p, j) && n in Needs(c.g, c.filters[p][j]);
    assert ProgressAt(c, s, p);
    NeedsDone(c, s, c.filters[p][j], n);
  }

  /** A module fails without running exactly when one of its inputs is missing. */
  lemma EndedInputs(c: Config, s: State, n: nat)
    requires Valid(c) && Fits(c, s) && Inv(c, s) && n < |s.nodes| && s.nodes[n].list.closed
    ensures s.nodes[n].failed == None <==> Inputs(c.g, n, |c.g.deps[n]|).Some?
  {
    assert MeaningAt(c, s, n) && NodeAt(c, s, n);
    GettersDone(c, s, n);
    if s.nodes[n].failed == None {
      forall i | 0 <= i < |c.g.deps[n]| ensures Eval(c.g, c.g.deps[n][i]).Ok? {
        assert MeaningAt(c, s, c.g.deps[n][i]);
      }
      InputsAre(c.g, n, |c.g.deps[n]|);
    } else {
      DepCulpritsFail(c.g, n, |c.g.deps[n]|);
    }
  }

  /** The assertion in get(Getter) that the product was cached holds wherever it is reached. */
  lemma WasCached(c: Config, s: State, n: nat, i: nat)
    requires Valid(c) && Reachable(c, s) && n < |c.g.deps| && i < |c.g.deps[n]|
    requires Enabled(c, s, Work(n)) && s.nodes[n].failed == None
    ensures var y := s.nodes[c.g.deps[n][i]];
      y.cached && Eval(c.g, c.g.deps[n][i]) == Ok(y.value)
  {
    Reached(c, s);
    NothingMissing(c, s, n, i);
  }

  // ---------- paths ----------

  lemma AskedInOrder(c: Config, s: State, p: nat)
    requires Valid(c) && Fits(c, s) && Prefetch(c, s) && Values(c, s) && Paths(c, s) && p < |c.filters|
    ensures
      && s.paths[p].asked <= Visited(c.g, c.filters[p], 0)
      && (forall j | 0 <= j < s.paths[p].asked - 1 ::
            s.nodes[c.filters[p][j]].cached && s.nodes[c.filters[p][j]].value != 0)
  {
    var fs := c.filters[p];
    assert ProgressAt(c, s, p) && PathAt(c, s, p);
    VisitedAtLeast(c.g, fs, 0, s.paths[p].asked);
    forall j | 0 <= j < s.paths[p].asked - 1 ensures s.nodes[fs[j]].cached && s.nodes[fs[j]].value != 0 {
      assert MeaningAt(c, s, fs[j]);
    }
  }

  /** At every moment: a path requested its filters in order, each one only after all before
      it were done and kept the event, and never more than the sequential path runs. */
  lemma FiltersInOrder(c: Config, s: State, p: nat)
    requires Valid(c) && Reachable(c, s) && p < |c.filters|
    ensures
      && s.paths[p].asked <= Visited(c.g, c.filters[p], 0)
      && (forall j | 0 <= j < s.paths[p].asked - 1 ::
            s.nodes[c.filters[p][j]].cached && s.nodes[c.filters[p][j]].value != 0)
  {
    Reached(c, s);
    AskedInOrder(c, s, p);
  }

  lemma {:induction false} VisitedAtLeast(g: Graph, fs: seq<nat>, from: nat, k: nat)
    requires Acyclic(g) && Filters(g, fs) && from <= k <= |fs|
    requires forall j | from <= j < k - 1 :: Keeps(g, fs[j])
    ensures k <= Visited(g, fs, from)
    decreases k - from
  {
    if from < k - 1 {
      VisitedAtLeast(g, fs, from + 1, k);
    }
  }

  /** Without a fatal error a finished path has requested exactly the filters that the
      sequential path runs. */
  lemma PathAgrees(c: Config, s: State, p: nat)
    requires Valid(c) && Reachable(c, s) && p < |c.filters| && s.paths[p].pc.Done?
    ensures
      !s.fatal || s.paths[p].pc.exc.Some? ==> s.paths[p].asked == Visited(c.g, c.filters[p], 0)
  {
    Reached(c, s);
    assert ProgressAt(c, s, p);
  }

  /** The all-paths-done task is scheduled only when every path of the event is done. */
  lemma AllPathsFirst(c: Config, s: State, e: nat, k: nat)
    requires Valid(c) && Reachable(c, s) && e < |c.pathsOf| && k < |c.pathsOf[e]|
    ensures
      s.events[e].pc.Scheduled? || s.events[e].pc.Finished? ==> s.paths[c.pathsOf[e][k]].pc.Done?
  {
    Reached(c, s);
    assert CountAt(c, s, e) && MemberAt(c, s, e, k);
  }

  // ---------- once ----------

  function Occurs(acts: seq<Action>, a: Action): nat {
    if acts == [] then 0 else (if acts[0] == a then 1 else 0) + Occurs(acts[1..], a)
  }

  /** What an action that can happen only once has done. */
  predicate Behind(s: State, a: Action) {
    match a
    case EventFire(e) => e < |s.events| && s.events[e].pc.Finished?
    case PathEnd(p) => p < |s.paths| && s.paths[p].pc.Done?
    case Work(n) => n < |s.nodes| && (s.nodes[n].phase.Worked? || Closed(s.nodes[n]))
    case Announce(n) => n < |s.nodes| && Closed(s.nodes[n])
    case _ => false
  }

  lemma NodeStepOnce(c: Config, s: State, a: Action, b: Action)
    requires Valid(c) && Fits(c, s) && Enabled(c, s, a) && (b.EventFire? || b.PathEnd?)
    requires a.FetchAdd? || a.FetchStart? || a.FetchEnd? || a.Execute? || a.StartQueued?
          || a.Work? || a.Announce? || a.Leave? || a.Release? || a.Take? || a.Recheck? || a.Look?
    ensures Behind(Apply(c, s, a), b) <==> Behind(s, b)
  {
  }

  lemma PathStepOnce(c: Config, s: State, a: Action, b: Action)
    requires Valid(c) && Fits(c, s) && Enabled(c, s, a) && (b.EventFire? || b.PathEnd?)
    requires a.LaunchPath? || a.LaunchEnd? || a.PathRequest? || a.PathAsk? || a.StartFilter?
          || a.PathFire? || a.PathEnd? || a.EventFire?
    requires a.LaunchPath? ==> s.paths[c.pathsOf[a.event][s.events[a.event].pc.at]].pc.Dormant?
    requires a.PathEnd? ==> !s.events[c.eventOf[a.path]].pc.Finished?
    ensures One(Behind(Apply(c, s, a), b)) == One(Behind(s, b)) + One(a == b)
  {
  }

  lemma StepOnce(c: Config, s: State, a: Action, b: Action)
    requires Valid(c) && Fits(c, s) && Inv(c, s) && Enabled(c, s, a)
    requires b.EventFire? || b.PathEnd?
    ensures One(Behind(Apply(c, s, a), b)) == One(Behind(s, b)) + One(a == b)
  {
    if a.FetchAdd? || a.FetchStart? || a.FetchEnd? || a.Execute? || a.StartQueued?
      || a.Work? || a.Announce? || a.Leave? || a.Release? || a.Take? || a.Recheck? || a.Look? {
      NodeStepOnce(c, s, a, b);
    } else {
      if a.LaunchPath? {
        NextDormant(c, s, a.event);
      } else if a.PathEnd? {
        StoppingCounted(c, s, a.path);
      }
      PathStepOnce(c, s, a, b);
    }
  }

  lemma WorksOnce(c: Config, s: State, a: Action, b: Action)
    requires Valid(c) && Fits(c, s) && Inv(c, s) && Enabled(c, s, a) && (b.Work? || b.Announce?)
    ensures One(Behind(Apply(c, s, a), b)) == One(Behind(s, b)) + One(a == b)
  {
    SoundStep(c, s, a);
    if b.node < |s.nodes| {
      StepGuarantee(c, s, a, b.node);
    } else {
      ApplyFits(c, s, a);
    }
  }

  lemma {:induction false} OccursIs(c: Config, s: State, acts: seq<Action>, b: Action)
    requires Valid(c) && Fits(c, s) && Inv(c, s) && Proper(c, s, acts)
    requires b.EventFire? || b.PathEnd? || b.Work? || b.Announce?
    ensures Occurs(acts, b) == One(Behind(Run(c, s, acts), b)) - One(Behind(s, b))
    decreases |acts|
  {
    if acts != [] {
      if b.Work? || b.Announce? {
        WorksOnce(c, s, acts[0], b);
      } else {
        StepOnce(c, s, acts[0], b);
      }
      ApplyKeepsInv(c, s, acts[0]);
      OccursIs(c, Step(c, s, acts[0]), acts[1..], b);
    }
  }

  /** The rest of a run has each callback unless it was, and the work and the announcement of
      each module that is wanted in the end, unless it was, and of no other. */
  ghost predicate EachOnce(c: Config, s: State, acts: seq<Action>)
    requires Valid(c) && Fits(c, s)
  {
    && (forall e: nat {:trigger EventFire(e)} | e < |c.pathsOf| ::
          Occurs(acts, EventFire(e)) == 1 - One(Behind(s, EventFire(e))))
    && (forall p: nat {:trigger PathEnd(p)} | p < |c.filters| ::
          Occurs(acts, PathEnd(p)) == 1 - One(Behind(s, PathEnd(p))))
    && (forall n: nat {:trigger Work(n)} | n < |c.g.deps| ::
          && Occurs(acts, Work(n)) == One(Wanted(c, Run(c, s, acts), n)) - One(Behind(s, Work(n)))
          && Occurs(acts, Announce(n)) == One(Wanted(c, Run(c, s, acts), n)) - One(Behind(s, Announce(n))))
  }

  lemma OnceEachFrom(c: Config, s: State, acts: seq<Action>)
    requires Valid(c) && Fits(c, s) && Inv(c, s) && Proper(c, s, acts) && Complete(c, Run(c, s, acts))
    ensures EachOnce(c, s, acts)
  {
    RunKeepsInv(c, s, acts);
    forall e: nat | e < |c.pathsOf| ensures Occurs(acts, EventFire(e)) == 1 - One(Behind(s, EventFire(e))) {
      OccursIs(c, s, acts, EventFire(e));
    }
    forall p: nat | p < |c.filters| ensures Occurs(acts, PathEnd(p)) == 1 - One(Behind(s, PathEnd(p))) {
      OccursIs(c, s, acts, PathEnd(p));
    }
    forall n: nat | n < |c.g.deps|
      ensures Occurs(acts, Work(n)) == One(Wanted(c, Run(c, s, acts), n)) - One(Behind(s, Work(n)))
      ensures Occurs(acts, Announce(n)) == One(Wanted(c, Run(c, s, acts), n)) - One(Behind(s, Announce(n)))
    {
      WorkOnce(c, s, acts, n);
    }
  }

  /** From wherever a job has come to until everything under way is done, each path's callback
      fires exactly once unless it has, each event's all-paths-done task exactly once unless
      it has, and each wanted module does its work and announces once unless it has, the
      others never. */
  lemma OnceEach(c: Config, s: State, acts: seq<Action>)
    requires Valid(c) && Reachable(c, s) && Proper(c, s, acts) && Complete(c, Run(c, s, acts))
    ensures EachOnce(c, s, acts)
  {
    Reached(c, s);
    OnceEachFrom(c, s, acts);
  }

  lemma WorkOnce(c: Config, s: State, acts: seq<Action>, n: nat)
    requires Valid(c) && Fits(c, s) && Inv(c, s) && Proper(c, s, acts) && n < |c.g.deps|
    requires Inv(c, Run(c, s, acts)) && Complete(c, Run(c, s, acts))
    ensures Occurs(acts, Work(n)) == One(Wanted(c, Run(c, s, acts), n)) - One(Behind(s, Work(n)))
    ensures Occurs(acts, Announce(n)) == One(Wanted(c, Run(c, s, acts), n)) - One(Behind(s, Announce(n)))
  {
    OccursIs(c, s, acts, Work(n));
    OccursIs(c, s, acts, Announce(n));
    WantedEnded(c, Run(c, s, acts), n);
  }

  lemma WantedEnded(c: Config, s: State, n: nat)
    requires Valid(c) && Fits(c, s) && Inv(c, s) && Complete(c, s) && n < |s.nodes|
    ensures Wanted(c, s, n) <==> s.nodes[n].phase.Ended?
    ensures !s.nodes[n].phase.Worked?
  {
    assert WantedAt(c, s, n) && NodeAt(c, s, n);
    if Wanted(c, s, n) {
      WantedDone(c, s, n);
    }
  }

  // ---------- exceptions ----------

  /** A filter that path p requested, and that fails. */
  ghost predicate FailedRequest(c: Config, s: State, p: nat, j: nat)
    requires Valid(c) && Fits(c, s)
  {
    Requested(c, s, p, j) && Eval(c.g, c.filters[p][j]).Failed?
  }

  lemma PathException(c: Config, s: State, p: nat)
    requires Valid(c) && Fits(c, s) && Inv(c, s) && p < |s.paths| && s.paths[p].pc.Done?
    ensures forall j: nat | FailedRequest(c, s, p, j) :: j == s.paths[p].asked - 1 && s.paths[p].pc.exc.Some?
    ensures s.paths[p].pc.exc.Some? ==>
      exists j: nat :: FailedRequest(c, s, p, j) && s.paths[p].pc.exc.value in Culprits(c.g, c.filters[p][j])
  {
    assert ProgressAt(c, s, p);
    if s.paths[p].pc.exc.Some? {
      assert FailedRequest(c, s, p, s.paths[p].asked - 1);
    }
  }

  lemma EventException(c: Config, s: State, e: nat)
    requires Valid(c) && Fits(c, s) && Inv(c, s) && e < |c.pathsOf| && s.events[e].pc.Finished?
    ensures
      && (s.events[e].exc.Some? <==>
            exists k: nat, j: nat :: k < |c.pathsOf[e]| && FailedRequest(c, s, c.pathsOf[e][k], j))
      && (s.events[e].exc.Some? ==>
            var t := s.events[e].exc.value;
            && (exists k: nat, j: nat :: k < |c.pathsOf[e]| && FailedRequest(c, s, c.pathsOf[e][k], j)
                  && t in Culprits(c.g, c.filters[c.pathsOf[e][k]][j]))
            && (exists k: nat, j: nat :: k < |c.pathsOf[e]| && FailedRequest(c, s, c.pathsOf[e][k], j)
                  && t in Needs(c.g, c.filters[c.pathsOf[e][k]][j]))
            && t < |c.g.deps| && Inputs(c.g, t, |c.g.deps[t]|).Some?
            && c.g.work(t, Inputs(c.g, t, |c.g.deps[t]|).value) == Threw)
  {
    assert CountAt(c, s, e) && BlameAt(c, s, e);
    if s.events[e].exc.Some? {
      var k: nat :| k < |c.pathsOf[e]| && s.paths[c.pathsOf[e][k]].pc == Done(s.events[e].exc);
      PathException(c, s, c.pathsOf[e][k]);
      var j: nat :| FailedRequest(c, s, c.pathsOf[e][k], j)
        && s.events[e].exc.value in Culprits(c.g, c.filters[c.pathsOf[e][k]][j]);
      CulpritsFail(c.g, c.filters[c.pathsOf[e][k]][j]);
    }
    if k: nat, j: nat :| k < |c.pathsOf[e]| && FailedRequest(c, s, c.pathsOf[e][k], j) {
      assert MemberAt(c, s, e, k);
      PathException(c, s, c.pathsOf[e][k]);
    }
  }

  /** An event's callback gets an exception exactly when some filter requested for the event
      fails; and then it is the one a module it depends on threw, on inputs that were all
      there. */
  lemma ExceptionFidelity(c: Config, s: State, e: nat)
    requires Valid(c) && Reachable(c, s) && e < |c.pathsOf| && s.events[e].pc.Finished?
    ensures
      && (s.events[e].exc.Some? <==>
            exists k: nat, j: nat :: k < |c.pathsOf[e]| && FailedRequest(c, s, c.pathsOf[e][k], j))
      && (s.events[e].exc.Some? ==>
            var t := s.events[e].exc.value;
            && (exists k: nat, j: nat :: k < |c.pathsOf[e]| && FailedRequest(c, s, c.pathsOf[e][k], j)
                  && t in Culprits(c.g, c.filters[c.pathsOf[e][k]][j]))
            && (exists k: nat, j: nat :: k < |c.pathsOf[e]| && FailedRequest(c, s, c.pathsOf[e][k], j)
                  && t in Needs(c.g, c.filters[c.pathsOf[e][k]][j]))
            && t < |c.g.deps| && Inputs(c.g, t, |c.g.deps[t]|).Some?
            && c.g.work(t, Inputs(c.g, t, |c.g.deps[t]|).value) == Threw)
  {
    Reached(c, s);
    EventException(c, s, e);
  }

  /** A recorded exception stays. */
  predicate Keeping(before: Option<Exc>, after: Option<Exc>) {
    before.Some? ==> after == before
  }

  predicate NodeKeeps(x: NodeState, x': NodeState) {
    && Keeping(x.failed, x'.failed)
    && (x.list.closed ==> x'.list.closed && x'.list.exc == x.list.exc)
  }

  ghost predicate ExceptionsKept(s: State, s': State) {
    && |s'.nodes| == |s.nodes| && |s'.events| == |s.events|
    && (forall n | 0 <= n < |s.nodes| :: NodeKeeps(s.nodes[n], s'.nodes[n]))
    && (forall e | 0 <= e < |s.events| :: Keeping(s.events[e].exc, s'.events[e].exc))
    && (s.fatal ==> s'.fatal)
  }

  lemma StepKeepsExceptions(c: Config, s: State, a: Action)
    requires Valid(c) && Fits(c, s) && Enabled(c, s, a) && Sound(c, s, a)
    requires a.Announce? ==> !s.nodes[a.node].list.closed
    ensures ExceptionsKept(s, Apply(c, s, a))
  {
    ApplyFits(c, s, a);
    forall n: nat | n < |s.nodes| ensures NodeKeeps(s.nodes[n], Apply(c, s, a).nodes[n]) {
      StepGuarantee(c, s, a, n);
    }
  }

  /** The first exception recorded by a run task, a list or an event is the one it keeps
      through the rest of the run. */
  lemma {:induction false} FirstExceptionStays(c: Config, s: State, acts: seq<Action>)
    requires Valid(c) && Fits(c, s) && Inv(c, s)
    ensures ExceptionsKept(s, Run(c, s, acts))
    decreases |acts|
  {
    if acts != [] {
      StepKeepsFirst(c, s, acts[0]);
      FirstExceptionStays(c, Step(c, s, acts[0]), acts[1..]);
    }
  }

  lemma StepKeepsFirst(c: Config, s: State, a: Action)
    requires Valid(c) && Fits(c, s) && Inv(c, s)
    ensures ExceptionsKept(s, Step(c, s, a)) && Inv(c, Step(c, s, a))
  {
    if Enabled(c, s, a) {
      SoundStep(c, s, a);
      StepKeepsExceptions(c, s, a);
      ApplyKeepsInv(c, s, a);
    }
  }

  /** Whoever waits for a module that failed gets an exception, and one whose prefetch
      failed never runs its own code. */
  lemma FailureReachesWaiters(c: Config, s: State, d: nat, w: Waiter, reader: bool)
    requires Valid(c) && Fits(c, s) && Inv(c, s) && Enabled(c, s, Release(d, w, reader))
    ensures var s' := DoRelease(s, d, w, reader);
      match w
      case Getter(n, i) => Eval(c.g, d).Failed? ==> s'.nodes[n].failed.Some?
      case OnPath(p, j) => Eval(c.g, d).Failed? <==> s'.paths[p].pc.exc.Some?
  {
    assert MeaningAt(c, s, d) && SchedulerLists.ListAt(c, s, d);
  }

  lemma FailedNeverRuns(c: Config, s: State, n: nat)
    requires Valid(c) && Reachable(c, s) && n < |c.g.deps| && s.nodes[n].failed.Some?
    ensures n !in s.ran && Eval(c.g, n).Failed?
  {
    Reached(c, s);
    assert RanAt(c, s, n) && MeaningAt(c, s, n);
    DepCulpritsFail(c.g, n, |c.g.deps[n]|);
  }

  /** What a path asked for, and is about to ask for whatever happens. */
  function Committed(x: PathState): int {
    x.asked + One(x.pc.Ask?)
  }

  lemma StepCommits(c: Config, s: State, a: Action, p: nat)
    requires Valid(c) && Fits(c, s) && Inv(c, s) && Enabled(c, s, a) && s.fatal && p < |s.paths|
    ensures Fits(c, Apply(c, s, a)) && Apply(c, s, a).fatal
    ensures Committed(Apply(c, s, a).paths[p]) <= Committed(s.paths[p])
  {
    ApplyFits(c, s, a);
    if a.PathAsk? {
      assert ProgressAt(c, s, a.path);
    }
  }

  /** Once there was a fatal error no path asks for another filter, except one that had read
      the flag before. */
  lemma {:induction false} FatalErrorStops(c: Config, s: State, acts: seq<Action>, p: nat)
    requires Valid(c) && Fits(c, s) && Inv(c, s) && s.fatal && p < |s.paths|
    ensures Run(c, s, acts).paths[p].asked <= s.paths[p].asked + One(s.paths[p].pc.Ask?)
    ensures Committed(Run(c, s, acts).paths[p]) <= Committed(s.paths[p])
    decreases |acts|
  {
    if acts != [] {
      if Enabled(c, s, acts[0]) {
        StepCommits(c, s, acts[0], p);
        ApplyKeepsInv(c, s, acts[0]);
      }
      FatalErrorStops(c, Step(c, s, acts[0]), acts[1..], p);
    }
  }

  // ---------- agreement with the sequential framework ----------

  /** What the sequential framework runs for the events: what the filters need that it visits. */
  ghost predicate SequentiallyWanted(c: Config, n: nat)
    requires Valid(c)
  {
    exists p: nat, j: nat :: InSequence(c, p, j) && n in Needs(c.g, c.filters[p][j])
  }

  ghost predicate InSequence(c: Config, p: nat, j: nat)
    requires Valid(c)
  {
    p < |c.filters| && j < Visited(c.g, c.filters[p], 0)
  }

  /** The sequential framework processes every event without an exception. */
  ghost predicate AllGoWell(c: Config)
    requires Valid(c)
  {
    forall p | 0 <= p < |c.filters| :: GoesWell(c.g, c.filters[p])
  }

  lemma EndsWell(c: Config, s: State, p: nat)
    requires Valid(c) && Fits(c, s) && Inv(c, s) && p < |s.paths| && GoesWell(c.g, c.filters[p])
    ensures s.paths[p].pc.Done? ==> s.paths[p].pc.exc == None
  {
    assert ProgressAt(c, s, p);
  }

  lemma NothingFatal(c: Config, s: State)
    requires Valid(c) && Fits(c, s) && Inv(c, s) && AllGoWell(c)
    ensures !s.fatal
    ensures forall e | 0 <= e < |s.events| :: s.events[e].exc == None
  {
    forall p: nat | p < |s.paths| ensures s.paths[p].pc.Done? ==> s.paths[p].pc.exc == None {
      EndsWell(c, s, p);
    }
    forall e: nat | e < |s.events| ensures s.events[e].exc == None {
      assert BlameAt(c, s, e);
    }
  }

  /** The concurrent run ends without an exception for any event exactly when the sequential
      one does, whatever the order of its steps. */
  lemma ExceptionsAgree(c: Config, s: State)
    requires Valid(c) && Reachable(c, s) && Complete(c, s)
    ensures AllGoWell(c) <==> NoException(s)
  {
    Reached(c, s);
    WellTogether(c, s);
  }

  ghost predicate NoException(s: State) {
    forall e | 0 <= e < |s.events| :: s.events[e].exc == None
  }

  lemma WellTogether(c: Config, s: State)
    requires Valid(c) && Fits(c, s) && Inv(c, s) && Complete(c, s)
    ensures AllGoWell(c) <==> NoException(s)
  {
    if AllGoWell(c) {
      NothingFatal(c, s);
    }
    if NoException(s) {
      forall p: nat | p < |c.filters| ensures GoesWell(c.g, c.filters[p]) {
        PathWentWell(c, s, p);
      }
    }
  }

  lemma PathWentWell(c: Config, s: State, p: nat)
    requires Valid(c) && Fits(c, s) && Inv(c, s) && p < |s.paths| && s.paths[p].pc.Done?
    requires NoException(s)
    ensures s.paths[p].pc.exc == None && GoesWell(c.g, c.filters[p])
  {
    assert MemberAt(c, s, c.eventOf[p], Place(c, p)) && CountAt(c, s, c.eventOf[p]);
    assert ProgressAt(c, s, p);
  }

  lemma PathsAgree(c: Config, s: State)
    requires Valid(c) && Fits(c, s) && Inv(c, s) && AllGoWell(c) && Complete(c, s)
    ensures forall p | 0 <= p < |c.filters| ::
      s.paths[p].asked == Visited(c.g, c.filters[p], 0) && s.paths[p].pc == Done(None)
  {
    NothingFatal(c, s);
    forall p: nat | p < |c.filters|
      ensures s.paths[p].asked == Visited(c.g, c.filters[p], 0) && s.paths[p].pc == Done(None)
    {
      assert ProgressAt(c, s, p);
      EndsWell(c, s, p);
    }
  }

  /** And then the concurrent run requests the filters the sequential framework runs, runs
      exactly the modules it runs, once each, and leaves the values it leaves. */
  lemma AgreesWithSequential(c: Config, s: State)
    requires Valid(c) && Reachable(c, s) && AllGoWell(c) && Complete(c, s)
    ensures
      && (forall p | 0 <= p < |c.filters| ::
            s.paths[p].asked == Visited(c.g, c.filters[p], 0) && s.paths[p].pc == Done(None))
      && (forall n: nat {:trigger SequentiallyWanted(c, n)} :: n in s.ran <==> SequentiallyWanted(c, n))
      && (forall j, k | 0 <= j < k < |s.ran| :: s.ran[j] != s.ran[k])
      && (forall n: nat {:trigger SequentiallyWanted(c, n)} | SequentiallyWanted(c, n) ::
            n < |s.nodes| && s.nodes[n].cached && Eval(c.g, n) == Ok(s.nodes[n].value))
  {
    Reached(c, s);
    PathsAgree(c, s);
    forall n: nat
      ensures n in s.ran <==> SequentiallyWanted(c, n)
      ensures SequentiallyWanted(c, n) ==>
        n < |s.nodes| && s.nodes[n].cached && Eval(c.g, n) == Ok(s.nodes[n].value)
    {
      NodeAgrees(c, s, n);
    }
  }

  lemma NodeAgrees(c: Config, s: State, n: nat)
    requires Valid(c) && Fits(c, s) && Inv(c, s) && AllGoWell(c) && Complete(c, s)
    ensures n in s.ran <==> SequentiallyWanted(c, n)
    ensures SequentiallyWanted(c, n) ==>
      n < |s.nodes| && s.nodes[n].cached && Eval(c.g, n) == Ok(s.nodes[n].value)
  {
    PathsAgree(c, s);
    WantedInSequence(c, s, n);
    assert RanAt(c, s, n);
    if n < |s.nodes| {
      NodeComputed(c, s, n);
    }
  }

  lemma WantedInSequence(c: Config, s: State, n: nat)
    requires Valid(c) && Fits(c, s) && AllGoWell(c)
    requires forall p | 0 <= p < |c.filters| :: s.paths[p].asked == Visited(c.g, c.filters[p], 0)
    ensures SequentiallyWanted(c, n) <==> Wanted(c, s, n)
    ensures SequentiallyWanted(c, n) ==>
      n < |s.nodes| && Inputs(c.g, n, |c.g.deps[n]|).Some? && Eval(c.g, n).Ok?
  {
    if SequentiallyWanted(c, n) {
      var p: nat, j: nat :| InSequence(c, p, j) && n in Needs(c.g, c.filters[p][j]);
      assert Requested(c, s, p, j);
      NeedsHaveValues(c.g, c.filters[p][j], n);
    }
    if Wanted(c, s, n) {
      var p: nat, j: nat :| Requested(c, s, p, j) && n in Needs(c.g, c.filters[p][j]);
      assert InSequence(c, p, j);
    }
  }

  // ---------- one event, at its callback ----------

  /** Some filter that the sequential path visits needs n, on a path of event e. */
  ghost predicate WantedByEvent(c: Config, e: nat, n: nat)
    requires Valid(c)
  {
    exists p: nat, j: nat :: InEvent(c, e, p, j) && n in Needs(c.g, c.filters[p][j])
  }

  ghost predicate InEvent(c: Config, e: nat, p: nat, j: nat)
    requires Valid(c)
  {
    InSequence(c, p, j) && c.eventOf[p] == e
  }

  /** An event that called back in a job without a fatal error so far, whatever else is still in
      flight and whichever event of its stream it is: no filter failed that the sequential
      framework runs for it, the same filters were requested, and of the stream's modules
      exactly those ran that the sequential framework runs, and have its values. */
  lemma EventAgrees(c: Config, s: State, e: nat)
    requires Valid(c) && Reachable(c, s) && Separate(c)
    requires e < |c.pathsOf| && s.events[e].pc.Finished? && !s.fatal
    ensures forall p: nat | p < |c.filters| && c.eventOf[p] == e ::
      && s.paths[p].asked == Visited(c.g, c.filters[p], 0) && s.paths[p].pc == Done(None)
      && GoesWell(c.g, c.filters[p])
    ensures forall n: nat {:trigger WantedByEvent(c, e, n)} | n < |s.nodes| && Owns(c, e, n) ::
      && (n in s.ran <==> WantedByEvent(c, e, n))
      && (WantedByEvent(c, e, n) ==> s.nodes[n].cached && Eval(c.g, n) == Ok(s.nodes[n].value))
      && (!WantedByEvent(c, e, n) ==> s.nodes[n].phase.Idle? && !s.nodes[n].cached)
  {
    Reached(c, s);
    assert s.events[e].exc == None;
    forall p: nat | p < |c.filters| && c.eventOf[p] == e
      ensures s.paths[p].asked == Visited(c.g, c.filters[p], 0) && s.paths[p].pc == Done(None)
      ensures GoesWell(c.g, c.filters[p])
    {
      FinishedPath(c, s, e, p);
    }
    forall n: nat | n < |s.nodes| && Owns(c, e, n)
      ensures n in s.ran <==> WantedByEvent(c, e, n)
      ensures WantedByEvent(c, e, n) ==> s.nodes[n].cached && Eval(c.g, n) == Ok(s.nodes[n].value)
      ensures !WantedByEvent(c, e, n) ==> s.nodes[n].phase.Idle? && !s.nodes[n].cached
    {
      WrapperAgrees(c, s, e, n);
    }
  }

  lemma WrapperAgrees(c: Config, s: State, e: nat, n: nat)
    requires Valid(c) && Fits(c, s) && Inv(c, s) && Separate(c)
    requires e < |s.events| && s.events[e].pc.Finished? && s.events[e].exc == None
    requires n < |s.nodes| && Owns(c, e, n)
    requires forall p: nat | p < |c.filters| && c.eventOf[p] == e ::
      s.paths[p].asked == Visited(c.g, c.filters[p], 0)
    ensures n in s.ran <==> WantedByEvent(c, e, n)
    ensures WantedByEvent(c, e, n) ==> s.nodes[n].cached && Eval(c.g, n) == Ok(s.nodes[n].value)
    ensures !WantedByEvent(c, e, n) ==> s.nodes[n].phase.Idle? && !s.nodes[n].cached
  {
    assert NodeAt(c, s, n) && MeaningAt(c, s, n) && RanAt(c, s, n);
    if WantedByEvent(c, e, n) {
      var p: nat, j: nat :| InEvent(c, e, p, j) && n in Needs(c.g, c.filters[p][j]);
      NeededWentWell(c, s, e, p, j, n);
    }
    if !s.nodes[n].phase.Idle? {
      StartedIsWanted(c, s, e, n);
    }
  }

  lemma StartedIsWanted(c: Config, s: State, e: nat, n: nat)
    requires Valid(c) && Fits(c, s) && Inv(c, s) && Separate(c)
    requires n < |s.nodes| && Owns(c, e, n) && !s.nodes[n].phase.Idle?
    requires forall p: nat | p < |c.filters| && c.eventOf[p] == e ::
      s.paths[p].asked == Visited(c.g, c.filters[p], 0)
    ensures WantedByEvent(c, e, n)
  {
    assert WantedAt(c, s, n);
    var p: nat, j: nat :| Requested(c, s, p, j) && n in Needs(c.g, c.filters[p][j]);
    assert OnPathOf(c, c.eventOf[p], p, j);
    assert Owns(c, c.eventOf[p], n);
    assert InEvent(c, e, p, j);
  }
}
