// On demand: only what a requested filter needs is ever started. Kept by every step.

module SchedulerDemand {
  import opened Basics
  import opened ModuleGraphs
  import opened Schedulers
  import opened SchedulerPrefetch
  import opened SchedulerValues
  import opened SchedulerPaths

  /** The j-th filter of path p has been requested. */
  ghost predicate Requested(c: Config, s: State, p: nat, j: nat)
    requires Valid(c) && Fits(c, s)
  {
    p < |s.paths| && j < s.paths[p].asked && j < |c.filters[p]|
  }

  /** Some requested filter is, or gets directly or not, the node n. */
  ghost predicate Wanted(c: Config, s: State, n: nat)
    requires Valid(c) && Fits(c, s)
  {
    exists p: nat, j: nat :: Requested(c, s, p, j) && n in Needs(c.g, c.filters[p][j])
  }

  ghost predicate WantedAt(c: Config, s: State, n: nat)
    requires Valid(c) && Fits(c, s)
  {
    n < |s.nodes| && !s.nodes[n].phase.Idle? ==> Wanted(c, s, n)
  }

  /** A thread that is about to start a filter has requested it. */
  ghost predicate StarterAt(c: Config, s: State, t: Starter)
    requires Valid(c) && Fits(c, s)
  {
    t in s.starts ==> Requested(c, s, t.path, t.at)
  }

  ghost predicate Demand(c: Config, s: State)
    requires Valid(c) && Fits(c, s)
  {
    && (forall n {:trigger WantedAt(c, s, n)} :: WantedAt(c, s, n))
    && (forall t {:trigger StarterAt(c, s, t)} :: StarterAt(c, s, t))
  }

  /** Requests are never taken back. */
  lemma WantedStays(c: Config, s: State, s': State, n: nat)
    requires Valid(c) && Fits(c, s) && Fits(c, s') && Wanted(c, s, n)
    requires forall p | 0 <= p < |s.paths| :: s.paths[p].asked <= s'.paths[p].asked
    ensures Wanted(c, s', n)
  {
    var p: nat, j: nat :| Requested(c, s, p, j) && n in Needs(c.g, c.filters[p][j]);
    assert Requested(c, s', p, j);
  }

  lemma GetterWanted(c: Config, s: State, n: nat, i: nat)
    requires Valid(c) && Fits(c, s) && Wanted(c, s, n) && n < |c.g.deps| && i < |c.g.deps[n]|
    ensures Wanted(c, s, c.g.deps[n][i])
  {
    var p: nat, j: nat :| Requested(c, s, p, j) && n in Needs(c.g, c.filters[p][j]);
    NeedsClosed(c.g, c.filters[p][j], n, i);
  }

  lemma OthersWanted(c: Config, s: State, s': State, n: nat)
    requires Valid(c) && Fits(c, s) && Fits(c, s') && WantedAt(c, s, n)
    requires forall p | 0 <= p < |s.paths| :: s.paths[p].asked <= s'.paths[p].asked
    requires n < |s.nodes| && !s'.nodes[n].phase.Idle? ==> !s.nodes[n].phase.Idle?
    ensures WantedAt(c, s', n)
  {
    if Wanted(c, s, n) {
      WantedStays(c, s, s', n);
    }
  }

  /** Nothing starts in this step. */
  lemma NothingStarts(c: Config, s: State, s': State)
    requires Valid(c) && Fits(c, s) && Fits(c, s') && Demand(c, s) && s'.starts == s.starts
    requires forall p | 0 <= p < |s.paths| :: s.paths[p].asked <= s'.paths[p].asked
    requires forall n | 0 <= n < |s.nodes| :: !s'.nodes[n].phase.Idle? ==> !s.nodes[n].phase.Idle?
    ensures Demand(c, s')
  {
    forall n ensures WantedAt(c, s', n) {
      assert WantedAt(c, s, n);
      OthersWanted(c, s, s', n);
    }
    forall t ensures StarterAt(c, s', t) {
      assert StarterAt(c, s, t);
    }
  }

  lemma FetchStartKeepsDemand(c: Config, s: State, n: nat)
    requires Valid(c) && Fits(c, s) && Demand(c, s) && Enabled(c, s, FetchStart(n))
    ensures Demand(c, Apply(c, s, FetchStart(n)))
  {
    var s' := Apply(c, s, FetchStart(n));
    var i := s.nodes[n].phase.at;
    assert WantedAt(c, s, n);
    GetterWanted(c, s, n, i);
    WantedStays(c, s, s', c.g.deps[n][i]);
    forall m ensures WantedAt(c, s', m) {
      assert WantedAt(c, s, m);
      if m != c.g.deps[n][i] {
        OthersWanted(c, s, s', m);
      }
    }
    forall t ensures StarterAt(c, s', t) {
      assert StarterAt(c, s, t);
    }
  }

  lemma StartFilterKeepsDemand(c: Config, s: State, t: Starter)
    requires Valid(c) && Fits(c, s) && Demand(c, s) && Enabled(c, s, StartFilter(t))
    ensures Demand(c, Apply(c, s, StartFilter(t)))
  {
    var s' := Apply(c, s, StartFilter(t));
    var f := c.filters[t.path][t.at];
    assert StarterAt(c, s, t);
    assert Requested(c, s', t.path, t.at) && f in Needs(c.g, f);
    forall m ensures WantedAt(c, s', m) {
      assert WantedAt(c, s, m);
      if m != f {
        OthersWanted(c, s, s', m);
      }
    }
    forall u ensures StarterAt(c, s', u) {
      assert StarterAt(c, s, u);
    }
  }

  lemma AskKeepsDemand(c: Config, s: State, p: nat, late: bool)
    requires Valid(c) && Fits(c, s) && Paths(c, s) && Demand(c, s) && Enabled(c, s, PathAsk(p, late))
    ensures Demand(c, Apply(c, s, PathAsk(p, late)))
  {
    var s' := Apply(c, s, PathAsk(p, late));
    assert ProgressAt(c, s, p);
    forall m ensures WantedAt(c, s', m) {
      assert WantedAt(c, s, m);
      OthersWanted(c, s, s', m);
    }
    forall t ensures StarterAt(c, s', t) {
      assert StarterAt(c, s, t);
    }
  }

  lemma InitDemand(c: Config)
    requires Valid(c)
    ensures Demand(c, Init(c))
  {
  }

  lemma StepKeepsDemand(c: Config, s: State, a: Action)
    requires Valid(c) && Fits(c, s) && Prefetch(c, s) && Paths(c, s) && Demand(c, s) && Enabled(c, s, a)
    requires a.StartQueued? ==> s.nodes[s.queues[a.queue].waiting[0]].phase.Queued?
    ensures Fits(c, Apply(c, s, a)) && Demand(c, Apply(c, s, a))
  {
    ApplyFits(c, s, a);
    if a.FetchStart? {
      FetchStartKeepsDemand(c, s, a.node);
    } else if a.StartFilter? {
      StartFilterKeepsDemand(c, s, a.starter);
    } else if a.PathAsk? {
      AskKeepsDemand(c, s, a.path, a.late);
    } else {
      if a.Release? && a.waiter.Getter? {
        assert NodeAt(c, s, a.waiter.node);
      }
      NothingStarts(c, s, Apply(c, s, a));
    }
  }

  // ---------- what is behind a module that is done ----------

  /** A node that ran has everything it needs behind it. */
  lemma {:induction false} NeedsDone(c: Config, s: State, n: nat, m: nat)
    requires Valid(c) && Fits(c, s) && Prefetch(c, s) && n < |s.nodes| && s.nodes[n].list.closed
    requires m in Needs(c.g, n)
    ensures m < |s.nodes| && s.nodes[m].list.closed
    decreases c.g.rank[n], 1, 0
  {
    if m != n {
      DepNeedsDone(c, s, n, |c.g.deps[n]|, m);
    }
  }

  lemma {:induction false} DepNeedsDone(c: Config, s: State, n: nat, k: nat, m: nat)
    requires Valid(c) && Fits(c, s) && Prefetch(c, s) && n < |s.nodes| && s.nodes[n].list.closed
    requires k <= |c.g.deps[n]| && m in DepNeeds(c.g, n, k)
    ensures m < |s.nodes| && s.nodes[m].list.closed
    decreases c.g.rank[n], 0, k
  {
    if k > 0 {
      if m in DepNeeds(c.g, n, k - 1) {
        DepNeedsDone(c, s, n, k - 1, m);
      } else {
        assert NodeAt(c, s, n);
        GettersDone(c, s, n);
        NeedsDone(c, s, c.g.deps[n][k - 1], m);
      }
    }
  }
}
