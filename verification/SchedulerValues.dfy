// What the modules compute: in every interleaving each finished module has the outcome of
// the recursive evaluation, and its own code ran at most once. Kept by every step.

module SchedulerValues {
  import opened Basics
  import opened ModuleGraphs
  import opened Schedulers
  import opened SchedulerPrefetch
  import WL = WaitLists

  /** A module that worked carries the evaluation's outcome, and its list once closed; an
      exception noted by the run task is that of something the module gets. */
  ghost predicate Meaning(g: Graph, n: nat, x: NodeState)
    requires Acyclic(g) && Node(g, n)
  {
    && (x.failed.Some? ==> x.failed.value in DepCulprits(g, n, |g.deps[n]|))
    && (!(x.phase.Worked? || x.list.closed) ==> !x.cached)
    && (x.phase.Worked? ==> Carries(Eval(g, n), Culprits(g, n), x.phase.exc, x))
    && (x.list.closed ==> Carries(Eval(g, n), Culprits(g, n), x.list.exc, x))
  }

  ghost predicate Carries(r: Result, culprits: set<nat>, exc: Option<Exc>, x: NodeState) {
    match r
    case Ok(v) => exc == None && x.cached && x.value == v
    case Failed => exc.Some? && exc.value in culprits && !x.cached
  }

  ghost predicate MeaningAt(c: Config, s: State, n: nat)
    requires Valid(c) && Fits(c, s)
  {
    n < |s.nodes| ==> Meaning(c.g, n, s.nodes[n])
  }

  /** The history of runs: each node whose prefetches went well, when it is done, once. */
  predicate DidRun(x: NodeState) {
    (x.phase.Worked? || x.list.closed) && x.failed == None
  }

  ghost predicate RanAt(c: Config, s: State, n: nat)
    requires Valid(c) && Fits(c, s)
  {
    n in s.ran <==> n < |s.nodes| && DidRun(s.nodes[n])
  }

  ghost predicate Values(c: Config, s: State)
    requires Valid(c) && Fits(c, s)
  {
    && (forall n {:trigger MeaningAt(c, s, n)} :: MeaningAt(c, s, n))
    && (forall n {:trigger RanAt(c, s, n)} :: RanAt(c, s, n))
    && (forall j, k | 0 <= j < k < |s.ran| :: s.ran[j] != s.ran[k])
  }

  /** What the meaning of a node depends on. */
  predicate SameOutcome(x: NodeState, x': NodeState) {
    && x'.list.closed == x.list.closed && x'.list.exc == x.list.exc
    && (if x.phase.Worked? then x'.phase == x.phase else !x'.phase.Worked?)
    && x'.value == x.value && x'.cached == x.cached && x'.failed == x.failed
  }

  lemma OutcomesStay(c: Config, s: State, s': State)
    requires Valid(c) && Fits(c, s) && Fits(c, s') && Values(c, s) && s'.ran == s.ran
    requires forall n | 0 <= n < |s.nodes| :: SameOutcome(s.nodes[n], s'.nodes[n])
    ensures Values(c, s')
  {
    forall n ensures MeaningAt(c, s', n) {
      assert MeaningAt(c, s, n);
    }
    forall n ensures RanAt(c, s', n) {
      assert RanAt(c, s, n);
    }
  }

  /** One node notes the exception of a getter, if it is the first. */
  lemma NotedKeeps(c: Config, s: State, s': State, n: nat, i: nat, exc: Option<Exc>)
    requires Valid(c) && Fits(c, s) && Fits(c, s') && Values(c, s) && s'.ran == s.ran
    requires n < |s.nodes| && i < |c.g.deps[n]| && !s.nodes[n].phase.Worked? && !s.nodes[n].list.closed
    requires s.nodes[c.g.deps[n][i]].list.closed && s.nodes[c.g.deps[n][i]].list.exc == exc
    requires forall m | 0 <= m < |s.nodes| && m != n :: SameOutcome(s.nodes[m], s'.nodes[m])
    requires SameOutcome(s.nodes[n].(failed := FirstOf(s.nodes[n].failed, exc)), s'.nodes[n])
    ensures Values(c, s')
  {
    var d := c.g.deps[n][i];
    assert MeaningAt(c, s, d) && MeaningAt(c, s, n);
    DepCulpritsHas(c.g, n, |c.g.deps[n]|, i);
    forall m ensures MeaningAt(c, s', m) {
      assert MeaningAt(c, s, m);
    }
    forall m ensures RanAt(c, s', m) {
      assert RanAt(c, s, m);
    }
  }

  /** When a module runs, everything it gets is done. */
  lemma GettersDone(c: Config, s: State, n: nat)
    requires Valid(c) && Fits(c, s) && Prefetch(c, s) && n < |s.nodes|
    requires s.nodes[n].phase.Running? || Closed(s.nodes[n])
    ensures forall i | 0 <= i < |c.g.deps[n]| ::
      var y := s.nodes[c.g.deps[n][i]];
      y.list.closed && (y.list.exc.Some? ==> s.nodes[n].failed.Some?)
  {
    assert NodeAt(c, s, n);
    forall i | 0 <= i < |c.g.deps[n]|
      ensures var y := s.nodes[c.g.deps[n][i]];
        y.list.closed && (y.list.exc.Some? ==> s.nodes[n].failed.Some?)
    {
      assert GetterAt(c, s, n, i);
    }
  }

  /** A module that runs its work reads what the evaluation gives for its getters; one that
      does not, fails for the reason the evaluation gives. */
  lemma ReadsInputs(c: Config, s: State, n: nat)
    requires Valid(c) && Fits(c, s) && Prefetch(c, s) && Values(c, s)
    requires n < |s.nodes| && s.nodes[n].phase.Running?
    ensures s.nodes[n].failed == None ==> Inputs(c.g, n, |c.g.deps[n]|) == Some(Read(c, s, n))
    ensures s.nodes[n].failed.Some? ==> Inputs(c.g, n, |c.g.deps[n]|) == None
  {
    GettersDone(c, s, n);
    if s.nodes[n].failed == None {
      forall i | 0 <= i < |c.g.deps[n]|
        ensures Eval(c.g, c.g.deps[n][i]) == Ok(Read(c, s, n)[i])
      {
        assert MeaningAt(c, s, c.g.deps[n][i]);
      }
      InputsAre(c.g, n, |c.g.deps[n]|);
      assert Inputs(c.g, n, |c.g.deps[n]|).value == Read(c, s, n);
    } else {
      assert MeaningAt(c, s, n);
      DepCulpritsFail(c.g, n, |c.g.deps[n]|);
    }
  }

  /** What the work leaves behind is the evaluation's outcome. */
  lemma WorkMeans(c: Config, s: State, n: nat)
    requires Valid(c) && Fits(c, s) && Prefetch(c, s) && Values(c, s)
    requires n < |s.nodes| && s.nodes[n].phase.Running?
    ensures Meaning(c.g, n, DoWork(c, s, n).nodes[n])
  {
    assert MeaningAt(c, s, n) && NodeAt(c, s, n);
    ReadsInputs(c, s, n);
  }

  lemma WorkKeepsValues(c: Config, s: State, n: nat)
    requires Valid(c) && Fits(c, s) && Prefetch(c, s) && Values(c, s)
    requires n < |s.nodes| && s.nodes[n].phase.Running?
    ensures Fits(c, DoWork(c, s, n)) && Values(c, DoWork(c, s, n))
  {
    var s' := DoWork(c, s, n);
    assert NodeAt(c, s, n) && RanAt(c, s, n) && MeaningAt(c, s, n);
    WorkMeans(c, s, n);
    forall m ensures MeaningAt(c, s', m) {
      assert MeaningAt(c, s, m);
    }
    forall m ensures RanAt(c, s', m) {
      assert RanAt(c, s, m);
    }
  }

  lemma AnnounceKeepsValues(c: Config, s: State, n: nat)
    requires Valid(c) && Fits(c, s) && Prefetch(c, s) && Values(c, s) && Enabled(c, s, Announce(n))
    ensures Values(c, DoAnnounce(s, n))
  {
    var s' := DoAnnounce(s, n);
    assert MeaningAt(c, s, n) && RanAt(c, s, n);
    forall m ensures MeaningAt(c, s', m) {
      assert MeaningAt(c, s, m);
    }
    forall m ensures RanAt(c, s', m) {
      assert RanAt(c, s, m);
    }
  }

  lemma InitValues(c: Config)
    requires Valid(c)
    ensures Values(c, Init(c))
  {
    forall n ensures MeaningAt(c, Init(c), n) {
    }
  }

  lemma StepKeepsValues(c: Config, s: State, a: Action)
    requires Valid(c) && Fits(c, s) && Prefetch(c, s) && Values(c, s) && Enabled(c, s, a)
    requires Sound(c, s, a)
    ensures Fits(c, Apply(c, s, a)) && Values(c, Apply(c, s, a))
  {
    ApplyFits(c, s, a);
    if a.Work? {
      WorkKeepsValues(c, s, a.node);
    } else if a.Announce? {
      AnnounceKeepsValues(c, s, a.node);
    } else if a.FetchAdd? {
      FetchAddKeepsValues(c, s, a.node, a.late);
    } else if a.Release? {
      ReleaseKeepsValues(c, s, a.node, a.waiter, a.reader);
    } else {
      forall n: nat | n < |s.nodes| ensures SameOutcome(s.nodes[n], Apply(c, s, a).nodes[n]) {
        StepGuarantee(c, s, a, n);
      }
      OutcomesStay(c, s, Apply(c, s, a));
    }
  }

  lemma FetchAddKeepsValues(c: Config, s: State, n: nat, late: bool)
    requires Valid(c) && Fits(c, s) && Prefetch(c, s) && Values(c, s) && Enabled(c, s, FetchAdd(n, late))
    ensures Values(c, Apply(c, s, FetchAdd(n, late)))
  {
    var s' := Apply(c, s, FetchAdd(n, late));
    var i := s.nodes[n].phase.at;
    var d := c.g.deps[n][i];
    assert NodeAt(c, s, n) && d != n;
    if s.nodes[d].list.closed && !late {
      NotedKeeps(c, s, s', n, i, s.nodes[d].list.exc);
    } else {
      OutcomesStay(c, s, s');
    }
  }

  lemma ReleaseKeepsValues(c: Config, s: State, d: nat, w: Waiter, reader: bool)
    requires Valid(c) && Fits(c, s) && Prefetch(c, s) && Values(c, s) && Enabled(c, s, Release(d, w, reader)) && s.nodes[d].list.closed
    ensures Values(c, DoRelease(s, d, w, reader))
  {
    var s' := DoRelease(s, d, w, reader);
    if w.Getter? {
      assert WaiterAt(c, s, d, w);
      LetGoOpen(c, s, w.node);
      NotedKeeps(c, s, s', w.node, w.index, s.nodes[d].list.exc);
    } else {
      OutcomesStay(c, s, s');
    }
  }

  lemma LetGoOpen(c: Config, s: State, n: nat)
    requires Valid(c) && Fits(c, s) && Prefetch(c, s) && n < |s.nodes| && s.nodes[n].refs > 0
    ensures !s.nodes[n].phase.Worked? && !s.nodes[n].list.closed
  {
    assert NodeAt(c, s, n);
  }

  // ---------- what the values give ----------

  /** get(Getter) never finds a product missing: the assertion on wasCached holds for every
      getter of a module whose work is about to run. */
  lemma NothingMissing(c: Config, s: State, n: nat, i: nat)
    requires Valid(c) && Fits(c, s) && Prefetch(c, s) && Values(c, s)
    requires n < |s.nodes| && s.nodes[n].phase.Running? && s.nodes[n].failed == None && i < |c.g.deps[n]|
    ensures s.nodes[c.g.deps[n][i]].cached
    ensures Eval(c.g, c.g.deps[n][i]) == Ok(s.nodes[c.g.deps[n][i]].value)
  {
    GettersDone(c, s, n);
    assert MeaningAt(c, s, c.g.deps[n][i]);
  }
}
