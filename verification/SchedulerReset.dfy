// The reset of a stream keeps the invariant of the whole job, provided that no thread of the
// last event is left that it must not overtake.

module SchedulerReset {
  import opened Basics
  import opened ModuleGraphs
  import opened Schedulers
  import opened SchedulerPrefetch
  import opened SchedulerQueues
  import opened SchedulerValues
  import opened SchedulerPaths
  import opened SchedulerDemand
  import opened SchedulerStarters
  import opened SchedulerLists
  import opened SchedulerProgress
  import opened SchedulerReuse
  import WL = WaitLists

  /** Event e has called back without an exception, or its stream has had none yet, and the
      stream is reset for an event in which the modules work as given. */
  ghost predicate Called(c: Config, s: State, e: nat)
    requires Valid(c) && Fits(c, s)
  {
    Separate(c) && Resting(s, e) && s.events[e].exc == None
  }

  ghost predicate Prepared(c: Config, s: State, e: nat, work: (nat, seq<int>) -> Outcome)
    requires Valid(c) && Fits(c, s)
  {
    Called(c, s, e) && OnlyFor(c, e, work)
  }

  lemma StillValid(c: Config, work: (nat, seq<int>) -> Outcome)
    requires Valid(c)
    ensures Valid(Reworked(c, work))
  {
  }

  /** What is not reset does not lead into what is. */
  lemma GetterElsewhere(c: Config, s: State, e: nat, n: nat, i: nat)
    requires Valid(c) && Fits(c, s) && Inv(c, s) && Called(c, s, e)
    requires n < |s.nodes| && !Owns(c, e, n) && !s.nodes[n].phase.Idle? && i < |c.g.deps[n]|
    ensures !Owns(c, e, c.g.deps[n][i])
  {
    var d := StartedIsOwned(c, s, n);
    OwnsGetter(c, d, n, i);
  }

  lemma FilterElsewhere(c: Config, e: nat, p: nat, j: nat)
    requires Valid(c) && Separate(c) && p < |c.filters| && c.eventOf[p] != e && j < |c.filters[p]|
    ensures !Owns(c, e, c.filters[p][j])
  {
    OwnsFilter(c, p, j);
  }

  // ---------- prefetching ----------

  lemma ResetNodeAt(c: Config, s: State, e: nat, work: (nat, seq<int>) -> Outcome, n: nat)
    requires Valid(c) && Fits(c, s) && Inv(c, s) && Prepared(c, s, e, work) && Valid(Reworked(c, work))
    ensures NodeAt(Reworked(c, work), ResetEvent(c, s, e), n)
  {
    assert NodeAt(c, s, n);
    if n < |s.nodes| && Owns(c, e, n) {
      FinishedWrapper(c, s, e, n);
    }
  }

  lemma ResetGetterAt(c: Config, s: State, e: nat, work: (nat, seq<int>) -> Outcome, n: nat, i: nat)
    requires Valid(c) && Fits(c, s) && Inv(c, s) && Prepared(c, s, e, work) && Valid(Reworked(c, work))
    ensures GetterAt(Reworked(c, work), ResetEvent(c, s, e), n, i)
  {
    assert GetterAt(c, s, n, i);
    if n < |s.nodes| && i < |c.g.deps[n]| && !Owns(c, e, n) && !s.nodes[n].phase.Idle? {
      GetterElsewhere(c, s, e, n, i);
    }
  }

  lemma ResetWaiterAt(c: Config, s: State, e: nat, work: (nat, seq<int>) -> Outcome, d: nat, w: Waiter)
    requires Valid(c) && Fits(c, s) && Inv(c, s) && Prepared(c, s, e, work) && Valid(Reworked(c, work))
    ensures WaiterAt(Reworked(c, work), ResetEvent(c, s, e), d, w)
  {
    assert WaiterAt(c, s, d, w);
    if d < |s.nodes| && Owns(c, e, d) {
      NobodyWaitsFor(c, s, e, d, w);
    } else if d < |s.nodes| && w in s.nodes[d].list.waiting {
      if w.Getter? {
        if Owns(c, e, w.node) {
          OwnsGetter(c, e, w.node, w.index);
        }
      } else {
        OwnsFilter(c, w.path, w.at);
      }
    }
  }

  lemma ResetPathAt(c: Config, s: State, e: nat, work: (nat, seq<int>) -> Outcome, p: nat)
    requires Valid(c) && Fits(c, s) && Inv(c, s) && Prepared(c, s, e, work) && Valid(Reworked(c, work))
    ensures PathAt(Reworked(c, work), ResetEvent(c, s, e), p)
  {
    assert PathAt(c, s, p);
    if p < |s.paths| && c.eventOf[p] != e && s.paths[p].pc.Asked? {
      FilterElsewhere(c, e, p, s.paths[p].pc.at);
    }
  }

  lemma ResetPrefetch(c: Config, s: State, e: nat, work: (nat, seq<int>) -> Outcome)
    requires Valid(c) && Fits(c, s) && Inv(c, s) && Prepared(c, s, e, work) && Valid(Reworked(c, work))
    ensures Prefetch(Reworked(c, work), ResetEvent(c, s, e))
  {
    var c', s' := Reworked(c, work), ResetEvent(c, s, e);
    forall n: nat ensures NodeAt(c', s', n) {
      ResetNodeAt(c, s, e, work, n);
    }
    forall n: nat, i: nat ensures GetterAt(c', s', n, i) {
      ResetGetterAt(c, s, e, work, n, i);
    }
    forall d: nat, w ensures WaiterAt(c', s', d, w) {
      ResetWaiterAt(c, s, e, work, d, w);
    }
    forall p: nat ensures PathAt(c', s', p) {
      ResetPathAt(c, s, e, work, p);
    }
  }

  lemma ResetQueues(c: Config, s: State, e: nat, work: (nat, seq<int>) -> Outcome)
    requires Valid(c) && Fits(c, s) && Inv(c, s) && Prepared(c, s, e, work) && Valid(Reworked(c, work))
    ensures Queues(Reworked(c, work), ResetEvent(c, s, e))
  {
    var c', s' := Reworked(c, work), ResetEvent(c, s, e);
    forall n: nat ensures SeatAt(c', s', n) {
      assert SeatAt(c, s, n);
      if n < |s.nodes| && Owns(c, e, n) {
        FinishedWrapper(c, s, e, n);
      }
    }
    forall q: nat ensures QueueAt(c', s', q) {
      assert QueueAt(c, s, q);
    }
  }

  // ---------- values ----------

  lemma ResetMeaningAt(c: Config, s: State, e: nat, work: (nat, seq<int>) -> Outcome, n: nat)
    requires Valid(c) && Fits(c, s) && Inv(c, s) && Prepared(c, s, e, work) && Valid(Reworked(c, work))
    ensures MeaningAt(Reworked(c, work), ResetEvent(c, s, e), n)
  {
    assert MeaningAt(c, s, n) && NodeAt(c, s, n);
    if n < |s.nodes| && Owns(c, e, n) {
      FinishedWrapper(c, s, e, n);
    } else if n < |s.nodes| && !s.nodes[n].phase.Idle? {
      var d := StartedIsOwned(c, s, n);
      SameElsewhere(c, e, work, d, n);
    }
  }

  lemma ResetValues(c: Config, s: State, e: nat, work: (nat, seq<int>) -> Outcome)
    requires Valid(c) && Fits(c, s) && Inv(c, s) && Prepared(c, s, e, work) && Valid(Reworked(c, work))
    ensures Values(Reworked(c, work), ResetEvent(c, s, e))
  {
    var c', s' := Reworked(c, work), ResetEvent(c, s, e);
    forall n: nat ensures MeaningAt(c', s', n) {
      ResetMeaningAt(c, s, e, work, n);
    }
    forall n: nat ensures RanAt(c', s', n) {
      assert RanAt(c, s, n);
    }
  }

  // ---------- paths and events ----------

  lemma SamePassed(c: Config, s: State, e: nat, work: (nat, seq<int>) -> Outcome, p: nat, k: nat)
    requires Valid(c) && Fits(c, s) && Prepared(c, s, e, work) && Valid(Reworked(c, work))
    requires p < |c.filters| && c.eventOf[p] != e
    ensures Passed(c, s, p, k) ==> Passed(Reworked(c, work), ResetEvent(c, s, e), p, k)
  {
    forall j: nat | j < |c.filters[p]|
      ensures Eval(Reworked(c, work).g, c.filters[p][j]) == Eval(c.g, c.filters[p][j])
      ensures !Owns(c, e, c.filters[p][j])
    {
      SamePath(c, e, work, p, j);
      FilterElsewhere(c, e, p, j);
    }
  }

  lemma SameDoneWith(c: Config, s: State, e: nat, work: (nat, seq<int>) -> Outcome, p: nat, k: nat, exc: Option<Exc>)
    requires Valid(c) && Fits(c, s) && Prepared(c, s, e, work) && Valid(Reworked(c, work))
    requires p < |c.filters| && c.eventOf[p] != e && DoneWith(c, s, p, k, exc)
    ensures DoneWith(Reworked(c, work), ResetEvent(c, s, e), p, k, exc)
  {
    SamePath(c, e, work, p, k);
    FilterElsewhere(c, e, p, k);
  }

  lemma SameStopped(c: Config, s: State, e: nat, work: (nat, seq<int>) -> Outcome, p: nat, asked: nat, exc: Option<Exc>)
    requires Valid(c) && Fits(c, s) && Prepared(c, s, e, work) && Valid(Reworked(c, work))
    requires p < |c.filters| && c.eventOf[p] != e && Stopped(c, s, p, asked, exc)
    ensures Stopped(Reworked(c, work), ResetEvent(c, s, e), p, asked, exc)
  {
    if asked > 0 {
      SamePassed(c, s, e, work, p, asked - 1);
      SameDoneWith(c, s, e, work, p, asked - 1, exc);
    }
    SameVisited(c, e, work, p, 0);
  }

  lemma ResetProgressAt(c: Config, s: State, e: nat, work: (nat, seq<int>) -> Outcome, p: nat)
    requires Valid(c) && Fits(c, s) && Inv(c, s) && Prepared(c, s, e, work) && Valid(Reworked(c, work))
    ensures ProgressAt(Reworked(c, work), ResetEvent(c, s, e), p)
  {
    assert ProgressAt(c, s, p);
    if p < |s.paths| && c.eventOf[p] != e {
      match s.paths[p].pc
      case Dormant =>
      case Request(i) => SamePassed(c, s, e, work, p, i);
      case Ask(i) => SamePassed(c, s, e, work, p, i);
      case Asked(i) => SamePassed(c, s, e, work, p, i);
      case Fired(i, exc) =>
        SamePassed(c, s, e, work, p, i);
        SameDoneWith(c, s, e, work, p, i, exc);
      case Stopping(exc) => SameStopped(c, s, e, work, p, s.paths[p].asked, exc);
      case Done(exc) => SameStopped(c, s, e, work, p, s.paths[p].asked, exc);
    }
  }

  lemma ResetBlameAt(c: Config, s: State, e: nat, work: (nat, seq<int>) -> Outcome, d: nat)
    requires Valid(c) && Fits(c, s) && Inv(c, s) && Prepared(c, s, e, work) && Valid(Reworked(c, work))
    ensures BlameAt(Reworked(c, work), ResetEvent(c, s, e), d)
  {
    assert BlameAt(c, s, d);
    if d < |s.events| && d != e && s.events[d].exc.Some? {
      var k :| 0 <= k < |c.pathsOf[d]| && s.paths[c.pathsOf[d][k]].pc == Done(s.events[d].exc);
      assert ResetEvent(c, s, e).paths[c.pathsOf[d][k]].pc == Done(s.events[d].exc);
    }
  }

  lemma ResetEvents(c: Config, s: State, e: nat, work: (nat, seq<int>) -> Outcome)
    requires Valid(c) && Fits(c, s) && Inv(c, s) && Prepared(c, s, e, work) && Valid(Reworked(c, work))
    ensures Paths(Reworked(c, work), ResetEvent(c, s, e)) && Events(Reworked(c, work), ResetEvent(c, s, e))
  {
    var c', s' := Reworked(c, work), ResetEvent(c, s, e);
    forall p: nat ensures ProgressAt(c', s', p) {
      ResetProgressAt(c, s, e, work, p);
    }
    forall d: nat ensures CountAt(c', s', d) {
      assert CountAt(c, s, d);
    }
    forall d: nat, k: nat ensures MemberAt(c', s', d, k) {
      assert MemberAt(c, s, d, k);
    }
    forall d: nat, p: nat ensures OwnAt(c', s', d, p) {
      assert OwnAt(c, s, d, p);
    }
    forall d: nat ensures BlameAt(c', s', d) {
      ResetBlameAt(c, s, e, work, d);
    }
    if s.fatal {
      var d :| 0 <= d < |s.events| && s.events[d].pc.Finished? && s.events[d].exc.Some?;
      assert s'.events[d].pc.Finished? && s'.events[d].exc.Some?;
    }
  }

  // ---------- demand ----------

  lemma WantedElsewhere(c: Config, s: State, e: nat, work: (nat, seq<int>) -> Outcome, n: nat)
    requires Valid(c) && Fits(c, s) && Prepared(c, s, e, work) && Valid(Reworked(c, work))
    requires Wanted(c, s, n) && !Owns(c, e, n)
    ensures Wanted(Reworked(c, work), ResetEvent(c, s, e), n)
  {
    var p: nat, j: nat :| Requested(c, s, p, j) && n in Needs(c.g, c.filters[p][j]);
    assert OnPathOf(c, c.eventOf[p], p, j);
    SameNeeds(c.g, Reworked(c, work).g, c.filters[p][j]);
    assert Requested(Reworked(c, work), ResetEvent(c, s, e), p, j);
  }

  lemma ResetDemand(c: Config, s: State, e: nat, work: (nat, seq<int>) -> Outcome)
    requires Valid(c) && Fits(c, s) && Inv(c, s) && Prepared(c, s, e, work) && Valid(Reworked(c, work))
    requires NoStraggler(c, s, e)
    ensures Demand(Reworked(c, work), ResetEvent(c, s, e))
  {
    var c', s' := Reworked(c, work), ResetEvent(c, s, e);
    forall n: nat ensures WantedAt(c', s', n) {
      assert WantedAt(c, s, n);
      if n < |s.nodes| && !s.nodes[n].phase.Idle? && !Owns(c, e, n) {
        WantedElsewhere(c, s, e, work, n);
      }
    }
    forall t ensures StarterAt(c', s', t) {
      assert StarterAt(c, s, t);
    }
  }

  lemma ResetOriginAt(c: Config, s: State, e: nat, work: (nat, seq<int>) -> Outcome, f: nat)
    requires Valid(c) && Fits(c, s) && Inv(c, s) && Prepared(c, s, e, work) && Valid(Reworked(c, work))
    ensures OriginAt(Reworked(c, work), ResetEvent(c, s, e), f)
  {
    var c', s' := Reworked(c, work), ResetEvent(c, s, e);
    assert OriginAt(c, s, f);
    if f < |s.nodes| && !s.nodes[f].phase.Idle? && !Owns(c, e, f) {
      if q: nat, l: nat :| AskedFor(c, s, q, l, f) {
        OwnsFilter(c, q, l);
        assert AskedFor(c', s', q, l, f);
      } else {
        var n: nat, i: nat :| GotBy(c, s, n, i, f);
        if Owns(c, e, n) {
          OwnsGetter(c, e, n, i);
        }
        assert GotBy(c', s', n, i, f);
      }
    }
  }

  lemma ResetStarters(c: Config, s: State, e: nat, work: (nat, seq<int>) -> Outcome)
    requires Valid(c) && Fits(c, s) && Inv(c, s) && Prepared(c, s, e, work) && Valid(Reworked(c, work))
    ensures Starters(Reworked(c, work), ResetEvent(c, s, e))
  {
    var c', s' := Reworked(c, work), ResetEvent(c, s, e);
    forall f: nat ensures OriginAt(c', s', f) {
      ResetOriginAt(c, s, e, work, f);
    }
    forall d: nat, k: nat ensures BackAt(c', s', d, k) {
      assert BackAt(c, s, d, k);
    }
  }

  // ---------- lists ----------

  lemma ResetListAt(c: Config, s: State, e: nat, work: (nat, seq<int>) -> Outcome, n: nat)
    requires Valid(c) && Fits(c, s) && Inv(c, s) && Prepared(c, s, e, work) && Valid(Reworked(c, work))
    requires NoLateCloser(c, s, e)
    ensures ListAt(Reworked(c, work), ResetEvent(c, s, e), n)
  {
    assert ListAt(c, s, n);
    if n < |s.nodes| && Owns(c, e, n) {
      forall w ensures w !in s.nodes[n].list.waiting {
        NobodyWaitsFor(c, s, e, n, w);
      }
      assert s.nodes[n].list.waiting == {};
    }
  }

  lemma ResetRecheckAt(c: Config, s: State, e: nat, work: (nat, seq<int>) -> Outcome, n: nat, w: Waiter)
    requires Valid(c) && Fits(c, s) && Inv(c, s) && Prepared(c, s, e, work) && Valid(Reworked(c, work))
    requires NoStraggler(c, s, e)
    ensures RecheckAt(Reworked(c, work), ResetEvent(c, s, e), n, w)
  {
    assert RecheckAt(c, s, n, w);
    if n < |s.nodes| {
      if Owns(c, e, n) {
        NobodyInside(c, s, e, n, w);
      } else if w in s.nodes[n].list.rechecks && w.Getter? && Owns(c, e, w.node) {
        OwnsGetter(c, e, w.node, w.index);
      }
    }
  }

  lemma ResetJoinedAt(c: Config, s: State, e: nat, work: (nat, seq<int>) -> Outcome, n: nat, w: Waiter)
    requires Valid(c) && Fits(c, s) && Inv(c, s) && Prepared(c, s, e, work) && Valid(Reworked(c, work))
    ensures JoinedAt(Reworked(c, work), ResetEvent(c, s, e), n, w)
  {
    assert JoinedAt(c, s, n, w);
    if n < |s.nodes| && !Owns(c, e, n) && w in s.nodes[n].list.joined {
      if w.Getter? {
        if Owns(c, e, w.node) { OwnsGetter(c, e, w.node, w.index); }
      } else {
        OwnsFilter(c, w.path, w.at);
      }
    }
  }

  lemma ResetLists(c: Config, s: State, e: nat, work: (nat, seq<int>) -> Outcome)
    requires Valid(c) && Fits(c, s) && Inv(c, s) && Prepared(c, s, e, work) && Valid(Reworked(c, work))
    requires NoStraggler(c, s, e) && NoLateCloser(c, s, e)
    ensures Lists(Reworked(c, work), ResetEvent(c, s, e))
  {
    var c', s' := Reworked(c, work), ResetEvent(c, s, e);
    forall n: nat ensures ListAt(c', s', n) {
      ResetListAt(c, s, e, work, n);
    }
    forall n: nat, w ensures RecheckAt(c', s', n, w) && JoinedAt(c', s', n, w) {
      ResetRecheckAt(c, s, e, work, n, w);
      ResetJoinedAt(c, s, e, work, n, w);
    }
  }

  /** Everything that is known of the job holds on for it with the next event, while all other
      events go on as they were. */
  lemma ResetKeepsInv(c: Config, s: State, e: nat, work: (nat, seq<int>) -> Outcome)
    requires Valid(c) && Fits(c, s) && Inv(c, s) && Prepared(c, s, e, work)
    requires NoStraggler(c, s, e) && NoLateCloser(c, s, e)
    ensures Valid(Reworked(c, work)) && Inv(Reworked(c, work), ResetEvent(c, s, e))
  {
    StillValid(c, work);
    ResetPrefetch(c, s, e, work);
    ResetQueues(c, s, e, work);
    ResetValues(c, s, e, work);
    ResetEvents(c, s, e, work);
    ResetDemand(c, s, e, work);
    ResetStarters(c, s, e, work);
    ResetLists(c, s, e, work);
  }
}
