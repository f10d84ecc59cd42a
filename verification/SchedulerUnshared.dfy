// What rules late threads out, as somebody can see before the job begins: when every module of
// an event is asked for from one place only, or as the first filter of a path.

module SchedulerUnshared {
  import opened Basics
  import opened ModuleGraphs
  import opened Schedulers
  import opened SchedulerPrefetch
  import opened SchedulerPaths
  import opened SchedulerDemand
  import opened SchedulerStarters
  import opened SchedulerLists
  import opened SchedulerProgress
  import opened SchedulerReuse
  import opened SchedulerReset
  import opened SchedulerNextEvent
  import WL = WaitLists

  predicate IsGot(c: Config, n: nat, i: nat) {
    n < |c.g.deps| && i < |c.g.deps[n]|
  }

  /** No filter at a second or later place of a path is at another place of the event's paths
      too, and at most two paths begin with the same one; no module gets what a filter makes,
      and nothing is got from two places. */
  ghost predicate Unshared(c: Config, e: nat)
    requires Valid(c)
  {
    && (forall p: nat, j: nat, q: nat, l: nat | OnPathOf(c, e, p, j) && j > 0 && OnPathOf(c, e, q, l) ::
          c.filters[p][j] == c.filters[q][l] ==> p == q && j == l)
    && (forall p: nat, q: nat, r: nat | OnPathOf(c, e, p, 0) && OnPathOf(c, e, q, 0) && OnPathOf(c, e, r, 0) ::
          c.filters[p][0] == c.filters[q][0] == c.filters[r][0] ==> p == q || q == r || p == r)
    && (forall p: nat, j: nat, n: nat, i: nat | OnPathOf(c, e, p, j) && IsGot(c, n, i) ::
          c.g.deps[n][i] != c.filters[p][j])
    && (forall n: nat, i: nat, m: nat, k: nat | IsGot(c, n, i) && IsGot(c, m, k) && Owns(c, e, c.g.deps[n][i]) ::
          c.g.deps[n][i] == c.g.deps[m][k] ==> n == m && i == k)
  }

  /** While a list has a closer to come, the one that joined it first has left it, and is there
      for the closer to take. */
  predicate Awaits(x: NodeState) {
    (if x.list.closed then x.list.taking else !x.phase.Idle?) ==> x.list.rechecks == {} && x.list.head != {}
  }

  ghost predicate AwaitsAt(c: Config, s: State, e: nat, n: nat)
    requires Valid(c) && Fits(c, s)
  {
    n < |s.nodes| && Owns(c, e, n) ==> Awaits(s.nodes[n])
  }

  ghost predicate Orderly(c: Config, s: State, e: nat)
    requires Valid(c) && Fits(c, s)
  {
    forall n: nat {:trigger AwaitsAt(c, s, e, n)} :: AwaitsAt(c, s, e, n)
  }

  // ---------- who asks ----------

  /** Only one getter asks for what is got, and then no path. */
  lemma SoleGetter(c: Config, s: State, e: nat, n: nat, i: nat, w: Waiter)
    requires Valid(c) && Fits(c, s) && Inv(c, s) && Unshared(c, e) && IsGot(c, n, i) && Owns(c, e, c.g.deps[n][i])
    requires Separate(c) && c.g.deps[n][i] < |s.nodes| && w in s.nodes[c.g.deps[n][i]].list.rechecks
    ensures w == Getter(n, i)
  {
    var d := c.g.deps[n][i];
    assert RecheckAt(c, s, d, w);
    if w.Getter? {
      assert IsGot(c, w.node, w.index);
    } else {
      OwnsFilter(c, w.path, w.at);
      assert OnPathOf(c, e, w.path, w.at);
    }
  }

  /** Before its one getter is past the exchange, nobody has started it. */
  lemma NotStartedYet(c: Config, s: State, e: nat, n: nat, i: nat)
    requires Valid(c) && Fits(c, s) && Inv(c, s) && Unshared(c, e) && Separate(c)
    requires IsGot(c, n, i) && Owns(c, e, c.g.deps[n][i]) && n < |s.nodes| && !Past(s.nodes[n], i)
    ensures c.g.deps[n][i] < |s.nodes| ==> s.nodes[c.g.deps[n][i]].phase.Idle?
  {
    var d := c.g.deps[n][i];
    assert OriginAt(c, s, d);
    if d < |s.nodes| && !s.nodes[d].phase.Idle? {
      if q: nat, l: nat :| AskedFor(c, s, q, l, d) {
        OwnsFilter(c, q, l);
        assert OnPathOf(c, e, q, l);
      } else {
        var m: nat, k: nat :| GotBy(c, s, m, k, d);
        assert IsGot(c, m, k);
      }
    }
  }

  /** The thread that launches the paths starts their first filters one after the other. */
  lemma OneFirstStarter(c: Config, s: State, e: nat, p: nat, q: nat)
    requires Valid(c) && Fits(c, s) && Inv(c, s)
    requires Starter(p, 0) in s.starts && Starter(q, 0) in s.starts
    requires p < |c.eventOf| && q < |c.eventOf| && c.eventOf[p] == e && c.eventOf[q] == e
    ensures p == q
  {
    var k, l := Place(c, p), Place(c, q);
    assert BackAt(c, s, e, k) && BackAt(c, s, e, l);
    assert MemberAt(c, s, e, k) && MemberAt(c, s, e, l);
    assert StarterAt(c, s, Starter(p, 0)) && StarterAt(c, s, Starter(q, 0));
    assert ProgressAt(c, s, p) && ProgressAt(c, s, q);
  }

  /** Only the one thread that is about to start a filter can be inside its list. */
  lemma SoleStarter(c: Config, s: State, e: nat, t: Starter, w: Waiter)
    requires Valid(c) && Fits(c, s) && Inv(c, s) && Unshared(c, e) && Separate(c) && t in s.starts
    requires OnPathOf(c, e, t.path, t.at) && w in s.nodes[c.filters[t.path][t.at]].list.rechecks
    ensures w == OnPath(t.path, t.at)
  {
    var f := c.filters[t.path][t.at];
    assert RecheckAt(c, s, f, w);
    OwnsFilter(c, t.path, t.at);
    if w.Getter? {
      assert IsGot(c, w.node, w.index);
    } else {
      OwnsFilter(c, w.path, w.at);
      assert OnPathOf(c, e, w.path, w.at);
      if t.at == 0 && w.at == 0 {
        OneFirstStarter(c, s, e, t.path, w.path);
      }
    }
  }

  /** A path whose filter is not started waits for it. */
  lemma StillWaits(c: Config, s: State, t: Starter)
    requires Valid(c) && Fits(c, s) && Inv(c, s) && t in s.starts
    ensures t.path < |c.filters| && t.at < |c.filters[t.path]|
    ensures !s.nodes[c.filters[t.path][t.at]].list.closed ==>
      OnPath(t.path, t.at) in s.nodes[c.filters[t.path][t.at]].list.waiting
  {
    assert StarterAt(c, s, t) && ProgressAt(c, s, t.path) && PathAt(c, s, t.path);
  }

  // ---------- every step keeps it ----------

  predicate AwaitsOn(x: NodeState, x': NodeState) {
    Awaits(x) ==> Awaits(x')
  }

  lemma OrderlyStays(c: Config, s: State, s': State, e: nat)
    requires Valid(c) && Fits(c, s) && Fits(c, s') && Orderly(c, s, e)
    requires forall n: nat | n < |s.nodes| && Owns(c, e, n) :: AwaitsOn(s.nodes[n], s'.nodes[n])
    ensures Orderly(c, s', e)
  {
    forall n: nat ensures AwaitsAt(c, s', e, n) {
      assert AwaitsAt(c, s, e, n);
    }
  }

  lemma FetchAddAwaits(c: Config, s: State, e: nat, m: nat, late: bool, n: nat)
    requires Valid(c) && Fits(c, s) && Inv(c, s) && Unshared(c, e) && Separate(c)
    requires Enabled(c, s, FetchAdd(m, late)) && n < |s.nodes| && Owns(c, e, n)
    ensures AwaitsOn(s.nodes[n], Apply(c, s, FetchAdd(m, late)).nodes[n])
  {
    var i := s.nodes[m].phase.at;
    if n == c.g.deps[m][i] {
      assert IsGot(c, m, i);
      NotStartedYet(c, s, e, m, i);
      assert NodeAt(c, s, n);
    }
  }

  lemma FetchStartAwaits(c: Config, s: State, e: nat, m: nat, n: nat)
    requires Valid(c) && Fits(c, s) && Inv(c, s) && Unshared(c, e) && Separate(c)
    requires Enabled(c, s, FetchStart(m)) && n < |s.nodes| && Owns(c, e, n)
    ensures AwaitsOn(s.nodes[n], Apply(c, s, FetchStart(m)).nodes[n])
  {
    var i := s.nodes[m].phase.at;
    if n == c.g.deps[m][i] && s.nodes[n].phase.Idle? {
      assert IsGot(c, m, i) && NodeAt(c, s, n) && NodeAt(c, s, m) && GetterAt(c, s, m, i) && ListAt(c, s, n);
      forall w ensures w !in s.nodes[n].list.rechecks {
        if w in s.nodes[n].list.rechecks { SoleGetter(c, s, e, m, i, w); }
      }
      assert Getter(m, i) in s.nodes[n].list.head;
    }
  }

  lemma StartFilterAwaits(c: Config, s: State, e: nat, t: Starter, n: nat)
    requires Valid(c) && Fits(c, s) && Inv(c, s) && Unshared(c, e) && Separate(c)
    requires Enabled(c, s, StartFilter(t)) && n < |s.nodes| && Owns(c, e, n)
    ensures AwaitsOn(s.nodes[n], Apply(c, s, StartFilter(t)).nodes[n])
  {
    if n == c.filters[t.path][t.at] && s.nodes[n].phase.Idle? {
      OwnsFilter(c, t.path, t.at);
      assert OnPathOf(c, e, t.path, t.at) && NodeAt(c, s, n) && ListAt(c, s, n);
      StillWaits(c, s, t);
      forall w ensures w !in s.nodes[n].list.rechecks {
        if w in s.nodes[n].list.rechecks { SoleStarter(c, s, e, t, w); }
      }
      assert OnPath(t.path, t.at) in s.nodes[n].list.head;
    }
  }

  lemma AskAwaits(c: Config, s: State, e: nat, p: nat, late: bool, n: nat)
    requires Valid(c) && Fits(c, s) && Inv(c, s) && Unshared(c, e) && Separate(c)
    requires Enabled(c, s, PathAsk(p, late)) && n < |s.nodes| && Owns(c, e, n)
    ensures AwaitsOn(s.nodes[n], Apply(c, s, PathAsk(p, late)).nodes[n])
  {
  }

  lemma NodeAwaits(c: Config, s: State, a: Action, n: nat)
    requires Valid(c) && Fits(c, s) && Inv(c, s) && Enabled(c, s, a) && n < |s.nodes|
    requires a.FetchEnd? || a.Execute? || a.StartQueued? || a.Work? || a.Announce? || a.Leave?
    ensures Fits(c, Apply(c, s, a)) && AwaitsOn(s.nodes[n], Apply(c, s, a).nodes[n])
  {
    ApplyFits(c, s, a);
    SoundStep(c, s, a);
    assert NodeAt(c, s, n);
  }

  lemma ListAwaits(c: Config, s: State, a: Action, n: nat)
    requires Valid(c) && Fits(c, s) && Inv(c, s) && Enabled(c, s, a) && n < |s.nodes|
    requires a.Take? || a.Recheck? || a.Release? || a.Look?
    ensures Fits(c, Apply(c, s, a)) && AwaitsOn(s.nodes[n], Apply(c, s, a).nodes[n])
  {
    ApplyFits(c, s, a);
    SoundStep(c, s, a);
    assert ListAt(c, s, n);
  }

  lemma StepKeepsOrderly(c: Config, s: State, a: Action, e: nat)
    requires Valid(c) && Fits(c, s) && Inv(c, s) && Enabled(c, s, a)
    requires Unshared(c, e) && Separate(c) && Orderly(c, s, e)
    ensures Fits(c, Apply(c, s, a)) && Orderly(c, Apply(c, s, a), e)
  {
    ApplyFits(c, s, a);
    forall n: nat | n < |s.nodes| && Owns(c, e, n) ensures AwaitsOn(s.nodes[n], Apply(c, s, a).nodes[n]) {
      if a.FetchAdd? {
        FetchAddAwaits(c, s, e, a.node, a.late, n);
      } else if a.FetchStart? {
        FetchStartAwaits(c, s, e, a.node, n);
      } else if a.StartFilter? {
        StartFilterAwaits(c, s, e, a.starter, n);
      } else if a.PathAsk? {
        AskAwaits(c, s, e, a.path, a.late, n);
      } else if a.Take? || a.Recheck? || a.Release? || a.Look? {
        ListAwaits(c, s, a, n);
      } else if a.FetchEnd? || a.Execute? || a.StartQueued? || a.Work? || a.Announce? || a.Leave? {
        NodeAwaits(c, s, a, n);
      }
    }
    OrderlyStays(c, s, Apply(c, s, a), e);
  }

  // ---------- the next event ----------

  /** The same job, but for what the modules do. */
  ghost predicate SameShape(c: Config, c': Config) {
    c' == Reworked(c, c'.g.work)
  }

  lemma SameUnshared(c: Config, c': Config, e: nat)
    requires Valid(c) && Valid(c') && SameShape(c, c') && Unshared(c, e)
    ensures Unshared(c', e)
  {
    forall p: nat, j: nat ensures OnPathOf(c', e, p, j) <==> OnPathOf(c, e, p, j) {}
    forall n: nat, i: nat ensures IsGot(c', n, i) <==> IsGot(c, n, i) {}
    forall n: nat ensures Owns(c', e, n) <==> Owns(c, e, n) {
      SameOwns(c, c'.g.work, e, n);
    }
  }

  lemma SameSeparate(c: Config, c': Config)
    requires Valid(c) && Valid(c') && SameShape(c, c') && Separate(c)
    ensures Separate(c')
  {
    forall e, d, n | Owns(c', e, n) && Owns(c', d, n) ensures e == d {
      SameOwns(c, c'.g.work, e, n);
      SameOwns(c, c'.g.work, d, n);
    }
  }

  lemma ResetKeepsOrderly(c: Config, s: State, d: nat, work: (nat, seq<int>) -> Outcome, e: nat)
    requires Valid(c) && Fits(c, s) && Inv(c, s) && Prepared(c, s, d, work) && Valid(Reworked(c, work))
    requires Orderly(c, s, e)
    ensures Orderly(Reworked(c, work), ResetEvent(c, s, d), e)
  {
    var c', s' := Reworked(c, work), ResetEvent(c, s, d);
    forall n: nat ensures AwaitsAt(c', s', e, n) {
      assert AwaitsAt(c, s, e, n);
      SameOwns(c, work, e, n);
    }
  }

  lemma {:induction false} RunKeepsOrderly(g: Stage, steps: seq<JobStep>, e: nat)
    requires Sane(g) && Inv(g.c, g.s) && Unshared(g.c, e) && Separate(g.c) && Orderly(g.c, g.s, e)
    ensures Orderly(RunJob(g, steps).c, RunJob(g, steps).s, e)
    decreases |steps|
  {
    if steps != [] {
      var g' := StageStep(g, steps[0]);
      match steps[0]
      case Act(a) =>
        if Enabled(g.c, g.s, a) {
          ApplyKeepsInv(g.c, g.s, a);
          StepKeepsOrderly(g.c, g.s, a, e);
        }
        RunKeepsOrderly(g', steps[1..], e);
      case NextEvent(d, work) =>
        if GoesOnTo(g, d, work) {
          ResetKeepsInv(g.c, g.s, d, work);
          ResetKeepsOrderly(g.c, g.s, d, work, e);
          SameUnshared(g.c, g'.c, e);
          SameSeparate(g.c, g'.c);
        }
        RunKeepsOrderly(g', steps[1..], e);
    }
  }

  lemma {:induction false} RunKeepsShape(g: Stage, steps: seq<JobStep>)
    requires Sane(g)
    ensures SameShape(g.c, RunJob(g, steps).c) && SameShape(RunJob(g, steps).c, g.c)
    decreases |steps|
  {
    if steps != [] {
      RunKeepsShape(StageStep(g, steps[0]), steps[1..]);
    }
  }

  lemma ReachedOrderly(c: Config, s: State, e: nat)
    requires Valid(c) && Reachable(c, s) && Unshared(c, e) && Separate(c)
    ensures Orderly(c, s, e)
  {
    var g, steps :| FromStart(g, steps, c, s);
    RunKeepsShape(g, steps);
    SameUnshared(c, g.c, e);
    SameSeparate(c, g.c);
    InitInv(g.c);
    forall n: nat ensures AwaitsAt(g.c, g.s, e, n) {}
    RunKeepsOrderly(g, steps, e);
  }

  // ---------- what it gives ----------

  /** A filter asked for by an event that is over has been started, by its one asker. */
  lemma NotLate(c: Config, s: State, e: nat, p: nat, j: nat)
    requires Valid(c) && Fits(c, s) && Inv(c, s) && Called(c, s, e) && Unshared(c, e)
    requires Requested(c, s, p, j) && c.eventOf[p] == e && s.events[e].pc.Finished?
    ensures Starter(p, j) !in s.starts
  {
    FinishedPath(c, s, e, p);
    var f := c.filters[p][j];
    assert NodeAt(c, s, f) && OriginAt(c, s, f) && OnPathOf(c, e, p, j);
    if j == 0 {
      assert BackAt(c, s, e, Place(c, p));
    } else {
      forall n: nat, i: nat ensures !GotBy(c, s, n, i, f) {
        assert IsGot(c, n, i) ==> c.g.deps[n][i] != f;
      }
      var q: nat, l: nat :| AskedFor(c, s, q, l, f);
      OwnsFilter(c, p, j);
      OwnsFilter(c, q, l);
      assert OnPathOf(c, e, q, l);
    }
  }

  /** Whoever joined, and from where on the event's paths. */
  lemma JoinsFrom(c: Config, s: State, e: nat, n: nat, w: Waiter)
    requires Valid(c) && Fits(c, s) && Inv(c, s) && Unshared(c, e) && Separate(c) && n < |s.nodes| && Owns(c, e, n)
    requires w in s.nodes[n].list.joined
    ensures w.Getter? ==> IsGot(c, w.node, w.index) && c.g.deps[w.node][w.index] == n
    ensures w.OnPath? ==> OnPathOf(c, e, w.path, w.at) && c.filters[w.path][w.at] == n
  {
    assert JoinedAt(c, s, n, w);
    if w.OnPath? {
      OwnsFilter(c, w.path, w.at);
    }
  }

  lemma NoThreeJoin(c: Config, s: State, e: nat, n: nat, u: Waiter, v: Waiter, w: Waiter)
    requires Valid(c) && Fits(c, s) && Inv(c, s) && Unshared(c, e) && Separate(c) && n < |s.nodes| && Owns(c, e, n)
    requires u in s.nodes[n].list.joined && v in s.nodes[n].list.joined && w in s.nodes[n].list.joined
    ensures u == v || v == w || u == w
  {
    JoinsFrom(c, s, e, n, u);
    JoinsFrom(c, s, e, n, v);
    JoinsFrom(c, s, e, n, w);
  }

  /** At most two threads ever join a list for one event. */
  lemma FewJoin(c: Config, s: State, e: nat, n: nat)
    requires Valid(c) && Fits(c, s) && Inv(c, s) && Unshared(c, e) && Separate(c) && n < |s.nodes| && Owns(c, e, n)
    ensures |s.nodes[n].list.joined| <= 2
  {
    if |s.nodes[n].list.joined| > 2 {
      var u, v, w := ThreeOf(s.nodes[n].list.joined);
      NoThreeJoin(c, s, e, n, u, v, w);
    }
  }

  /** Something a caller can see before the job begins: where an event's modules are asked for
      from one place each, or as first filters, no thread is ever late, since the thread that
      launches the paths starts their first filters itself. */
  lemma UnsharedIsSafe(c: Config, s: State, e: nat)
    requires Valid(c) && Reachable(c, s) && Called(c, s, e) && Unshared(c, e)
    ensures NoStraggler(c, s, e) && NoLateCloser(c, s, e)
  {
    Reached(c, s);
    ReachedOrderly(c, s, e);
    forall t | t in s.starts && t.path < |c.eventOf| ensures c.eventOf[t.path] != e {
      assert StarterAt(c, s, t);
      RestsRequested(c, s, e, t.path);
      if c.eventOf[t.path] == e {
        NotLate(c, s, e, t.path, t.at);
      }
    }
    forall n: nat | n < |s.nodes| && Owns(c, e, n) ensures ClosersPast(s.nodes[n].list) {
      assert AwaitsAt(c, s, e, n) && ListAt(c, s, n);
      forall w ensures w !in s.nodes[n].list.waiting {
        NobodyWaitsFor(c, s, e, n, w);
      }
      FewJoin(c, s, e, n);
    }
  }

  /** An event that is not begun has asked for nothing. */
  lemma RestsRequested(c: Config, s: State, e: nat, p: nat)
    requires Valid(c) && Fits(c, s) && Inv(c, s) && Resting(s, e) && p < |s.paths|
    ensures c.eventOf[p] == e && s.paths[p].asked > 0 ==> s.events[e].pc.Finished?
  {
    if c.eventOf[p] == e {
      RestingPath(c, s, e, p);
    }
  }
}
