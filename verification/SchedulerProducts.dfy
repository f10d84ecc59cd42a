// What the modules of a job hold, said of the products themselves: each is what the module's
// own code puts when it gets the products that are there for its getters.

module SchedulerProducts {
  import opened Basics
  import opened ModuleGraphs
  import opened Schedulers
  import opened SchedulerPrefetch
  import opened SchedulerValues
  import opened SchedulerPaths
  import opened SchedulerDemand
  import opened SchedulerProgress
  import opened SchedulerNextEvent

  /** These are the products there for the getters of n, in their order. */
  ghost predicate HasGot(c: Config, nodes: seq<NodeState>, n: nat, inputs: seq<int>)
    requires Valid(c) && |nodes| == |c.g.deps| && n < |nodes|
  {
    && |inputs| == |c.g.deps[n]|
    && forall i {:trigger inputs[i]} | 0 <= i < |inputs| ::
         nodes[c.g.deps[n][i]].cached && nodes[c.g.deps[n][i]].value == inputs[i]
  }

  lemma InputsAreGot(c: Config, s: State, n: nat, inputs: seq<int>)
    requires Valid(c) && Fits(c, s) && Prefetch(c, s) && Values(c, s) && n < |s.nodes|
    requires s.nodes[n].phase.Running? || Closed(s.nodes[n]) || s.nodes[n].phase.Worked?
    requires AreInputs(c.g, n, inputs)
    ensures HasGot(c, s.nodes, n, inputs)
  {
    assert NodeAt(c, s, n);
    forall i | 0 <= i < |inputs|
      ensures s.nodes[c.g.deps[n][i]].cached && s.nodes[c.g.deps[n][i]].value == inputs[i]
    {
      assert GetterAt(c, s, n, i) && MeaningAt(c, s, c.g.deps[n][i]);
    }
  }

  /** At every moment of every run, whatever events the streams had before: a product is what
      the module's own code puts on the products that are there for its getters. */
  lemma HoldsWhatItPuts(c: Config, s: State, n: nat)
    requires Valid(c) && Reachable(c, s) && n < |c.g.deps| && s.nodes[n].cached
    ensures exists inputs :: HasGot(c, s.nodes, n, inputs) && c.g.work(n, inputs) == Put(s.nodes[n].value)
  {
    Reached(c, s);
    assert MeaningAt(c, s, n) && NodeAt(c, s, n);
    EvalIs(c.g, n, s.nodes[n].value);
    var inputs :| AreInputs(c.g, n, inputs) && c.g.work(n, inputs) == Put(s.nodes[n].value);
    InputsAreGot(c, s, n, inputs);
  }

  /** And an exception that a module ended with was thrown by the own code of one that it needs,
      or by its own, on the products that are there for that one's getters. */
  lemma WasThrown(c: Config, s: State, n: nat)
    requires Valid(c) && Reachable(c, s) && n < |c.g.deps| && s.nodes[n].phase.Ended? && s.nodes[n].list.exc.Some?
    ensures var t := s.nodes[n].list.exc.value;
      && t in Needs(c.g, n) && t < |s.nodes| && s.nodes[t].phase.Ended? && s.nodes[t].list.exc == Some(t)
      && exists inputs :: HasGot(c, s.nodes, t, inputs) && c.g.work(t, inputs) == Threw
  {
    Reached(c, s);
    var t := s.nodes[n].list.exc.value;
    assert MeaningAt(c, s, n) && NodeAt(c, s, n);
    CulpritsFail(c.g, n);
    NeedsDone(c, s, n, t);
    InputsAre(c.g, t, |c.g.deps[t]|);
    var inputs := Inputs(c.g, t, |c.g.deps[t]|).value;
    assert NodeAt(c, s, t) && MeaningAt(c, s, t) && AreInputs(c.g, t, inputs);
    InputsAreGot(c, s, t, inputs);
  }

  /** A path that is done, and not because of an exception or a fatal error, stopped at its end
      or at the first filter whose product is 0. */
  lemma StoppedWhere(c: Config, s: State, p: nat)
    requires Valid(c) && Reachable(c, s) && p < |c.filters| && s.paths[p].pc == Done(None) && !s.fatal
    ensures var fs, k := c.filters[p], s.paths[p].asked;
      && k <= |fs|
      && (forall j | 0 <= j < k :: s.nodes[fs[j]].cached)
      && (forall j | 0 <= j < k - 1 :: s.nodes[fs[j]].value != 0)
      && (k < |fs| ==> k > 0 && s.nodes[fs[k - 1]].value == 0)
  {
    Reached(c, s);
    var fs, k := c.filters[p], s.paths[p].asked;
    assert ProgressAt(c, s, p) && PathAt(c, s, p);
    forall j | 0 <= j < k ensures s.nodes[fs[j]].cached && (j < k - 1 ==> s.nodes[fs[j]].value != 0) {
      assert MeaningAt(c, s, fs[j]);
    }
    if k < |fs| {
      VisitedEnds(c.g, fs, 0);
      assert MeaningAt(c, s, fs[k - 1]);
    }
  }

  lemma {:induction false} VisitedEnds(g: Graph, fs: seq<nat>, from: nat)
    requires Acyclic(g) && Filters(g, fs) && from <= |fs| && Visited(g, fs, from) < |fs|
    ensures Visited(g, fs, from) > from && !Keeps(g, fs[Visited(g, fs, from) - 1])
    decreases |fs| - from
  {
    if Keeps(g, fs[from]) {
      VisitedEnds(g, fs, from + 1);
    }
  }

  // ---------- what ran ----------

  /** The modules whose own code a run runs, in that order. */
  ghost function Works(c: Config, s: State, acts: seq<Action>): seq<nat>
    requires Valid(c) && Fits(c, s)
    decreases |acts|
  {
    if acts == [] then [] else WorkOf(c, s, acts[0]) + Works(c, Step(c, s, acts[0]), acts[1..])
  }

  ghost function WorkOf(c: Config, s: State, a: Action): seq<nat>
    requires Valid(c) && Fits(c, s)
  {
    if a.Work? && Enabled(c, s, a) && s.nodes[a.node].failed == None then [a.node] else []
  }

  lemma {:induction false} RanWorks(c: Config, s: State, acts: seq<Action>)
    requires Valid(c) && Fits(c, s)
    ensures Run(c, s, acts).ran == s.ran + Works(c, s, acts)
    decreases |acts|
  {
    if acts == [] {
      assert s.ran + [] == s.ran;
    } else {
      StepRan(c, s, acts[0]);
      RanWorks(c, Step(c, s, acts[0]), acts[1..]);
      Appended(s.ran, WorkOf(c, s, acts[0]), Works(c, Step(c, s, acts[0]), acts[1..]));
    }
  }

  lemma Appended(x: seq<nat>, y: seq<nat>, z: seq<nat>)
    ensures (x + y) + z == x + (y + z)
  {
  }

  lemma StepRan(c: Config, s: State, a: Action)
    requires Valid(c) && Fits(c, s)
    ensures Step(c, s, a).ran == s.ran + WorkOf(c, s, a)
  {
    if Enabled(c, s, a) && !a.Work? {
      OthersRan(c, s, a);
    }
  }

  lemma OthersRan(c: Config, s: State, a: Action)
    requires Valid(c) && Fits(c, s) && Enabled(c, s, a) && !a.Work?
    ensures Apply(c, s, a).ran == s.ran
  {
  }
}
