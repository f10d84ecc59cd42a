// One event after the other on the same wrappers: from the callback of an event the stream's
// modules, paths and tasks are reset and go on to the next event, while other events are in
// flight. When that is right, and what it needs.

module SchedulerReuse {
  import opened Basics
  import opened ModuleGraphs
  import opened Schedulers
  import opened SchedulerPrefetch
  import opened SchedulerQueues
  import opened SchedulerValues
  import opened SchedulerPaths
  import opened SchedulerDemand
  import opened SchedulerStarters
  import opened SchedulerLists
  import opened SchedulerProgress
  import WL = WaitLists

  // ---------- what belongs to a stream ----------

  /** The wrapper n is one of event e's: some filter of one of its paths is it or needs it. */
  ghost predicate Owns(c: Config, e: nat, n: nat)
    requires Valid(c)
  {
    exists p: nat, j: nat :: OnPathOf(c, e, p, j) && n in Needs(c.g, c.filters[p][j])
  }

  ghost predicate OnPathOf(c: Config, e: nat, p: nat, j: nat)
    requires Valid(c)
  {
    p < |c.filters| && c.eventOf[p] == e && j < |c.filters[p]|
  }

  /** Every stream has wrappers of its own. */
  ghost predicate Separate(c: Config)
    requires Valid(c)
  {
    forall e, d, n {:trigger Owns(c, e, n), Owns(c, d, n)} :: Owns(c, e, n) && Owns(c, d, n) ==> e == d
  }

  lemma OwnsFilter(c: Config, p: nat, j: nat)
    requires Valid(c) && p < |c.filters| && j < |c.filters[p]|
    ensures Owns(c, c.eventOf[p], c.filters[p][j])
  {
    assert OnPathOf(c, c.eventOf[p], p, j) && c.filters[p][j] in Needs(c.g, c.filters[p][j]);
  }

  lemma OwnsGetter(c: Config, e: nat, n: nat, i: nat)
    requires Valid(c) && Owns(c, e, n) && n < |c.g.deps| && i < |c.g.deps[n]|
    ensures Owns(c, e, c.g.deps[n][i])
  {
    var p: nat, j: nat :| OnPathOf(c, e, p, j) && n in Needs(c.g, c.filters[p][j]);
    NeedsClosed(c.g, c.filters[p][j], n, i);
  }

  lemma {:induction false} OwnsNeeds(c: Config, e: nat, n: nat, m: nat)
    requires Valid(c) && Owns(c, e, n) && Node(c.g, n) && m in Needs(c.g, n)
    ensures Owns(c, e, m)
    decreases c.g.rank[n], 1, 0
  {
    if m != n {
      OwnsDepNeeds(c, e, n, |c.g.deps[n]|, m);
    }
  }

  lemma {:induction false} OwnsDepNeeds(c: Config, e: nat, n: nat, k: nat, m: nat)
    requires Valid(c) && Owns(c, e, n) && Node(c.g, n) && k <= |c.g.deps[n]| && m in DepNeeds(c.g, n, k)
    ensures Owns(c, e, m)
    decreases c.g.rank[n], 0, k
  {
    if k > 0 {
      if m in DepNeeds(c.g, n, k - 1) {
        OwnsDepNeeds(c, e, n, k - 1, m);
      } else {
        OwnsGetter(c, e, n, k - 1);
        OwnsNeeds(c, e, c.g.deps[n][k - 1], m);
      }
    }
  }

  /** A wrapper that was started is the one of an event. */
  lemma StartedIsOwned(c: Config, s: State, n: nat) returns (e: nat)
    requires Valid(c) && Fits(c, s) && Demand(c, s) && n < |s.nodes| && !s.nodes[n].phase.Idle?
    ensures Owns(c, e, n)
  {
    assert WantedAt(c, s, n);
    var p: nat, j: nat :| Requested(c, s, p, j) && n in Needs(c.g, c.filters[p][j]);
    e := c.eventOf[p];
    assert OnPathOf(c, e, p, j);
  }

  // ---------- an event that has called back ----------

  /** Its paths are done, and every filter they asked for is. */
  lemma FinishedPath(c: Config, s: State, e: nat, p: nat)
    requires Valid(c) && Fits(c, s) && Inv(c, s)
    requires e < |s.events| && s.events[e].pc.Finished? && p < |s.paths| && c.eventOf[p] == e
    ensures s.paths[p].pc.Done? && (s.events[e].exc == None ==> s.paths[p].pc.exc == None)
    ensures Stopped(c, s, p, s.paths[p].asked, s.paths[p].pc.exc)
    ensures forall j | 0 <= j < s.paths[p].asked :: s.nodes[c.filters[p][j]].list.closed
  {
    assert CountAt(c, s, e) && MemberAt(c, s, e, Place(c, p)) && ProgressAt(c, s, p);
  }

  /** What a requested filter needs has ended, and if the event had no exception, without any:
      none of its run tasks has noted one. */
  lemma NeededWentWell(c: Config, s: State, e: nat, p: nat, j: nat, n: nat)
    requires Valid(c) && Fits(c, s) && Inv(c, s)
    requires e < |s.events| && s.events[e].pc.Finished? && p < |s.paths| && c.eventOf[p] == e
    requires Requested(c, s, p, j) && n in Needs(c.g, c.filters[p][j])
    ensures n < |s.nodes| && s.nodes[n].phase.Ended?
    ensures s.events[e].exc == None ==> Eval(c.g, n).Ok? && s.nodes[n].failed == None
  {
    FinishedPath(c, s, e, p);
    NeedsDone(c, s, c.filters[p][j], n);
    assert NodeAt(c, s, n) && MeaningAt(c, s, n);
    if s.events[e].exc == None {
      NeedsHaveValues(c.g, c.filters[p][j], n);
      DepCulpritsFail(c.g, n, |c.g.deps[n]|);
    }
  }

  // ---------- an event that is over, or not begun ----------

  /** It has called back, or its first path is not launched. */
  predicate Resting(s: State, e: nat) {
    e < |s.events| && (s.events[e].pc.Finished? || s.events[e].pc == Launch(0))
  }

  lemma RestingPath(c: Config, s: State, e: nat, p: nat)
    requires Valid(c) && Fits(c, s) && Inv(c, s) && Resting(s, e) && p < |s.paths| && c.eventOf[p] == e
    ensures if s.events[e].pc.Finished? then s.paths[p].pc.Done? else s.paths[p].pc.Dormant? && s.paths[p].asked == 0
  {
    assert CountAt(c, s, e) && MemberAt(c, s, e, Place(c, p)) && ProgressAt(c, s, p);
  }

  /** So each of its wrappers either was not used or has ended, and after an event without an
      exception none has noted one. */
  lemma FinishedWrapper(c: Config, s: State, e: nat, n: nat)
    requires Valid(c) && Fits(c, s) && Inv(c, s) && Separate(c)
    requires Resting(s, e) && Owns(c, e, n) && n < |s.nodes|
    ensures s.nodes[n].phase.Idle? || s.nodes[n].phase.Ended?
    ensures s.events[e].exc == None ==> s.nodes[n].failed == None
  {
    assert NodeAt(c, s, n);
    if !s.nodes[n].phase.Idle? {
      assert WantedAt(c, s, n);
      var p: nat, j: nat :| Requested(c, s, p, j) && n in Needs(c.g, c.filters[p][j]);
      assert OnPathOf(c, c.eventOf[p], p, j);
      assert Owns(c, c.eventOf[p], n);
      RestingPath(c, s, e, p);
      NeededWentWell(c, s, e, p, j, n);
    }
  }

  /** And nobody waits for it. */
  lemma NobodyWaitsFor(c: Config, s: State, e: nat, n: nat, w: Waiter)
    requires Valid(c) && Fits(c, s) && Inv(c, s) && Separate(c)
    requires Resting(s, e) && Owns(c, e, n) && n < |s.nodes|
    ensures w !in s.nodes[n].list.waiting
  {
    if w in s.nodes[n].list.waiting {
      assert WaiterAt(c, s, n, w);
      if w.Getter? {
        assert NodeAt(c, s, w.node);
        var d := StartedIsOwned(c, s, w.node);
        OwnsGetter(c, d, w.node, w.index);
        FinishedWrapper(c, s, e, w.node);
      } else {
        OwnsFilter(c, w.path, w.at);
        RestingPath(c, s, e, w.path);
      }
    }
  }

  /** Nor is any thread inside its list to look again, but a straggler. */
  lemma NobodyInside(c: Config, s: State, e: nat, n: nat, w: Waiter)
    requires Valid(c) && Fits(c, s) && Inv(c, s) && Separate(c)
    requires Resting(s, e) && Owns(c, e, n) && n < |s.nodes| && NoStraggler(c, s, e)
    ensures w !in s.nodes[n].list.rechecks
  {
    if w in s.nodes[n].list.rechecks {
      assert RecheckAt(c, s, n, w);
      if w.Getter? {
        var d := StartedIsOwned(c, s, w.node);
        OwnsGetter(c, d, w.node, w.index);
        FinishedWrapper(c, s, e, w.node);
      } else {
        OwnsFilter(c, w.path, w.at);
      }
    }
  }

  /** No thread is left that asked for a filter of e and is still on its way to start it. */
  ghost predicate NoStraggler(c: Config, s: State, e: nat)
    requires Valid(c) && Fits(c, s)
  {
    forall t | t in s.starts :: t.path < |c.eventOf| ==> c.eventOf[t.path] != e
  }

  /** Whoever closed a list of e is past its head, and will not look at a node that the reset
      deletes. */
  ghost predicate NoLateCloser(c: Config, s: State, e: nat)
    requires Valid(c) && Fits(c, s)
  {
    forall n: nat {:trigger Owns(c, e, n)} | n < |s.nodes| && Owns(c, e, n) :: ClosersPast(s.nodes[n].list)
  }

  predicate ClosersPast(l: WL.WaitList<Waiter>) {
    !l.taking && (l.reading ==> !WL.Grows(l))
  }

  // ---------- the reset ----------

  /** ModuleWrapper::reset with DataCache::reset: neither the value nor the exception of the
      run task is cleared. */
  function ResetNode(x: NodeState): NodeState {
    x.(phase := Idle, list := WL.Reset(x.list), cached := false)
  }

  /** The part of a history that is not about the wrappers of e. */
  ghost function WithoutOwned(c: Config, e: nat, ran: seq<nat>): (rest: seq<nat>)
    requires Valid(c)
    ensures forall n :: n in rest <==> n in ran && !Owns(c, e, n)
    ensures (forall j, k | 0 <= j < k < |ran| :: ran[j] != ran[k]) ==>
      forall j, k | 0 <= j < k < |rest| :: rest[j] != rest[k]
  {
    if ran == [] then []
    else
      var last := ran[|ran| - 1];
      var before := WithoutOwned(c, e, ran[..|ran| - 1]);
      assert ran == ran[..|ran| - 1] + [last];
      if Owns(c, e, last) then before else before + [last]
  }

  /** Event::reset and Schedule::reset for the stream of event e, then processAsync anew. */
  ghost function ResetEvent(c: Config, s: State, e: nat): (s': State)
    requires Valid(c) && Fits(c, s) && e < |s.events|
    ensures Fits(c, s')
  {
    s.(nodes := seq(|s.nodes|, n requires 0 <= n < |s.nodes| =>
                    if Owns(c, e, n) then ResetNode(s.nodes[n]) else s.nodes[n]),
       paths := seq(|s.paths|, p requires 0 <= p < |s.paths| =>
                    if c.eventOf[p] == e then PathState(Dormant, 0) else s.paths[p]),
       events := s.events[e := EventState(Launch(0), 1, None, {})],
       ran := WithoutOwned(c, e, s.ran))
  }

  /** The same job where the modules do something else: another event. */
  function Reworked(c: Config, work: (nat, seq<int>) -> Outcome): Config {
    c.(g := c.g.(work := work))
  }

  /** Only the wrappers of e get another event. */
  ghost predicate OnlyFor(c: Config, e: nat, work: (nat, seq<int>) -> Outcome)
    requires Valid(c)
  {
    forall n, inputs :: Owns(c, e, n) || work(n, inputs) == c.g.work(n, inputs)
  }

  // ---------- another event changes nothing elsewhere ----------

  lemma {:induction false} SameNeeds(g: Graph, h: Graph, n: nat)
    requires Acyclic(g) && Node(g, n) && h == g.(work := h.work)
    ensures Acyclic(h) && Node(h, n) && Needs(h, n) == Needs(g, n)
    decreases g.rank[n], 1, 0
  {
    SameDepNeeds(g, h, n, |g.deps[n]|);
  }

  lemma {:induction false} SameDepNeeds(g: Graph, h: Graph, n: nat, k: nat)
    requires Acyclic(g) && Node(g, n) && k <= |g.deps[n]| && h == g.(work := h.work)
    ensures Acyclic(h) && Node(h, n) && DepNeeds(h, n, k) == DepNeeds(g, n, k)
    decreases g.rank[n], 0, k
  {
    if k > 0 {
      SameDepNeeds(g, h, n, k - 1);
      SameNeeds(g, h, g.deps[n][k - 1]);
    }
  }

  /** The modules of xs do the same in both. */
  ghost predicate SameWork(g: Graph, h: Graph, xs: set<nat>) {
    h == g.(work := h.work) && forall n, inputs | n in xs :: h.work(n, inputs) == g.work(n, inputs)
  }

  lemma {:induction false} SameEval(g: Graph, h: Graph, n: nat)
    requires Acyclic(g) && Acyclic(h) && Node(g, n) && SameWork(g, h, Needs(g, n))
    ensures Eval(h, n) == Eval(g, n) && Culprits(h, n) == Culprits(g, n)
    ensures DepCulprits(h, n, |g.deps[n]|) == DepCulprits(g, n, |g.deps[n]|)
    decreases g.rank[n], 1, 0
  {
    SameInputs(g, h, n, |g.deps[n]|);
    assert n in Needs(g, n);
  }

  lemma {:induction false} SameInputs(g: Graph, h: Graph, n: nat, k: nat)
    requires Acyclic(g) && Acyclic(h) && Node(g, n) && k <= |g.deps[n]| && SameWork(g, h, DepNeeds(g, n, k))
    ensures Inputs(h, n, k) == Inputs(g, n, k) && DepCulprits(h, n, k) == DepCulprits(g, n, k)
    decreases g.rank[n], 0, k
  {
    if k > 0 {
      SameInputs(g, h, n, k - 1);
      SameEval(g, h, g.deps[n][k - 1]);
    }
  }

  /** The evaluation of what another event owns. */
  lemma SameElsewhere(c: Config, e: nat, work: (nat, seq<int>) -> Outcome, d: nat, n: nat)
    requires Valid(c) && Separate(c) && OnlyFor(c, e, work) && Owns(c, d, n) && d != e && Node(c.g, n)
    ensures Valid(Reworked(c, work))
    ensures var g, h := c.g, Reworked(c, work).g;
      && Eval(h, n) == Eval(g, n) && Culprits(h, n) == Culprits(g, n)
      && DepCulprits(h, n, |g.deps[n]|) == DepCulprits(g, n, |g.deps[n]|)
  {
    var g, h := c.g, Reworked(c, work).g;
    forall m, inputs | m in Needs(g, n) ensures h.work(m, inputs) == g.work(m, inputs) {
      OwnsNeeds(c, d, n, m);
    }
    SameEval(g, h, n);
  }

  lemma SamePath(c: Config, e: nat, work: (nat, seq<int>) -> Outcome, p: nat, j: nat)
    requires Valid(c) && Separate(c) && OnlyFor(c, e, work)
    requires p < |c.filters| && c.eventOf[p] != e && j < |c.filters[p]|
    ensures Valid(Reworked(c, work))
    ensures var g, h, f := c.g, Reworked(c, work).g, c.filters[p][j];
      Eval(h, f) == Eval(g, f) && Culprits(h, f) == Culprits(g, f)
  {
    OwnsFilter(c, p, j);
    SameElsewhere(c, e, work, c.eventOf[p], c.filters[p][j]);
  }

  lemma {:induction false} SameVisited(c: Config, e: nat, work: (nat, seq<int>) -> Outcome, p: nat, from: nat)
    requires Valid(c) && Valid(Reworked(c, work)) && Separate(c) && OnlyFor(c, e, work)
    requires p < |c.filters| && c.eventOf[p] != e && from <= |c.filters[p]|
    ensures Visited(Reworked(c, work).g, c.filters[p], from) == Visited(c.g, c.filters[p], from)
    decreases |c.filters[p]| - from
  {
    if from < |c.filters[p]| {
      SamePath(c, e, work, p, from);
      SameVisited(c, e, work, p, from + 1);
    }
  }

  lemma SameOwns(c: Config, work: (nat, seq<int>) -> Outcome, e: nat, n: nat)
    requires Valid(c)
    ensures Valid(Reworked(c, work)) && (Owns(Reworked(c, work), e, n) <==> Owns(c, e, n))
  {
    var c' := Reworked(c, work);
    if p: nat, j: nat :| OnPathOf(c, e, p, j) && n in Needs(c.g, c.filters[p][j]) {
      SameNeeds(c.g, c'.g, c.filters[p][j]);
      assert OnPathOf(c', e, p, j);
    }
    if p: nat, j: nat :| OnPathOf(c', e, p, j) && n in Needs(c'.g, c'.filters[p][j]) {
      SameNeeds(c.g, c'.g, c.filters[p][j]);
      assert OnPathOf(c, e, p, j);
    }
  }
}
