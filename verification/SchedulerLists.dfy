// The wait lists inside the scheduler: who may still be inside one, and what nobody can be let
// go before. Kept by every step.

module SchedulerLists {
  import opened Basics
  import opened ModuleGraphs
  import opened Schedulers
  import opened SchedulerPrefetch
  import opened SchedulerPaths
  import opened SchedulerDemand
  import WL = WaitLists

  /** Nobody can be let go before the list is closed, and once it is, somebody takes what is at
      its head. */
  ghost predicate ListAt(c: Config, s: State, d: nat)
    requires Valid(c) && Fits(c, s)
  {
    d < |s.nodes| ==>
      var l := s.nodes[d].list; WL.Sound(l) && l.waiting <= l.joined && l.cache >= CACHE
  }

  /** An adder is a thread that goes on to the exchange of m_workStarted: in the loop of a
      module that prefetches, or of a path. */
  ghost predicate Adds(c: Config, s: State, d: nat, w: Waiter)
    requires Valid(c) && Fits(c, s)
  {
    match w
    case Getter(n, i) => n < |s.nodes| && i < |c.g.deps[n]| && c.g.deps[n][i] == d && s.nodes[n].phase == Fetch(i, true)
    case OnPath(p, j) => p < |c.filters| && j < |c.filters[p]| && c.filters[p][j] == d && Starter(p, j) in s.starts
  }

  ghost predicate RecheckAt(c: Config, s: State, d: nat, w: Waiter)
    requires Valid(c) && Fits(c, s)
  {
    d < |s.nodes| && w in s.nodes[d].list.rechecks ==> Adds(c, s, d, w)
  }

  /** Each joins once for an event. */
  ghost predicate HasJoined(c: Config, s: State, d: nat, w: Waiter)
    requires Valid(c) && Fits(c, s)
  {
    match w
    case Getter(n, i) => n < |s.nodes| && i < |c.g.deps[n]| && c.g.deps[n][i] == d && i < Added(c, n, s.nodes[n])
    case OnPath(p, j) => Requested(c, s, p, j) && c.filters[p][j] == d
  }

  ghost predicate JoinedAt(c: Config, s: State, d: nat, w: Waiter)
    requires Valid(c) && Fits(c, s)
  {
    d < |s.nodes| && w in s.nodes[d].list.joined ==> HasJoined(c, s, d, w)
  }

  ghost predicate Lists(c: Config, s: State)
    requires Valid(c) && Fits(c, s)
  {
    && (forall d: nat {:trigger ListAt(c, s, d)} :: ListAt(c, s, d))
    && (forall d: nat, w {:trigger RecheckAt(c, s, d, w)} :: RecheckAt(c, s, d, w))
    && (forall d: nat, w {:trigger JoinedAt(c, s, d, w)} :: JoinedAt(c, s, d, w))
  }

  /** Nobody that is not let go before the list is closed. */
  lemma TakenIsClosed(c: Config, s: State, d: nat, w: Waiter)
    requires Valid(c) && Fits(c, s) && Lists(c, s) && d < |s.nodes|
    requires w in s.nodes[d].list.waiting && w !in s.nodes[d].list.head
    ensures s.nodes[d].list.closed
  {
    assert ListAt(c, s, d);
  }

  // ---------- steps elsewhere ----------

  /** No thread leaves a list, and nothing asked for is forgotten. */
  predicate Keeps(s: State, s': State) {
    && |s'.nodes| == |s.nodes| && |s'.paths| == |s.paths| && s.starts <= s'.starts
    && (forall n: nat | n < |s.nodes| :: KeepsIn(s.nodes[n], s'.nodes[n]))
    && (forall p | 0 <= p < |s.paths| :: s.paths[p].asked <= s'.paths[p].asked)
  }

  /** A prefetch goes on, and not from inside a list. */
  predicate KeepsIn(x: NodeState, x': NodeState) {
    match x.phase
    case Idle => x'.phase.Idle? || x'.phase.Fetch?
    case Fetch(i, true) => x'.phase == x.phase
    case Fetch(i, false) => x'.phase.Prefetched? || x'.phase.Ready? || (x'.phase.Fetch? && x'.phase.at == i)
    case _ => !x'.phase.Idle? && !x'.phase.Fetch?
  }

  lemma KeepsAdding(c: Config, s: State, s': State, d: nat, w: Waiter)
    requires Valid(c) && Fits(c, s) && Fits(c, s') && Keeps(s, s') && Prefetch(c, s)
    ensures Adds(c, s, d, w) ==> Adds(c, s', d, w)
    ensures HasJoined(c, s, d, w) ==> HasJoined(c, s', d, w)
  {
    if w.Getter? {
      assert NodeAt(c, s, w.node);
    }
  }

  /** Lists go on by themselves. */
  predicate Inner(l: WL.WaitList<Waiter>, l': WL.WaitList<Waiter>) {
    && (WL.Sound(l) && l.waiting <= l.joined ==> WL.Sound(l') && l'.waiting <= l'.joined)
    && l'.rechecks <= l.rechecks && l'.joined == l.joined && l'.cache == l.cache
  }

  lemma ListsGoOn(c: Config, s: State, s': State)
    requires Valid(c) && Fits(c, s) && Fits(c, s') && Prefetch(c, s) && Lists(c, s) && Keeps(s, s')
    requires forall d: nat | d < |s.nodes| :: Inner(s.nodes[d].list, s'.nodes[d].list)
    ensures Lists(c, s')
  {
    forall d: nat ensures ListAt(c, s', d) {
      assert ListAt(c, s, d);
    }
    forall d: nat, w ensures RecheckAt(c, s', d, w) && JoinedAt(c, s', d, w) {
      assert RecheckAt(c, s, d, w) && JoinedAt(c, s, d, w);
      KeepsAdding(c, s, s', d, w);
    }
  }

  /** One joins the list of d. */
  lemma ListsJoin(c: Config, s: State, s': State, d: nat, w: Waiter)
    requires Valid(c) && Fits(c, s) && Fits(c, s') && Prefetch(c, s) && Lists(c, s) && Keeps(s, s')
    requires d < |s.nodes| && s'.nodes[d].list == WL.Join(s.nodes[d].list, w)
    requires forall e: nat | e < |s.nodes| && e != d :: s'.nodes[e].list == s.nodes[e].list
    requires Adds(c, s', d, w) && HasJoined(c, s', d, w)
    ensures Lists(c, s')
  {
    forall e: nat ensures ListAt(c, s', e) {
      assert ListAt(c, s, e);
    }
    forall e: nat, v ensures RecheckAt(c, s', e, v) && JoinedAt(c, s', e, v) {
      assert RecheckAt(c, s, e, v) && JoinedAt(c, s, e, v);
      KeepsAdding(c, s, s', e, v);
    }
  }

  lemma FetchAddKeepsLists(c: Config, s: State, n: nat, late: bool)
    requires Valid(c) && Fits(c, s) && Prefetch(c, s) && Lists(c, s) && Enabled(c, s, FetchAdd(n, late))
    ensures Lists(c, Apply(c, s, FetchAdd(n, late)))
  {
    var s' := Apply(c, s, FetchAdd(n, late));
    var i := s.nodes[n].phase.at;
    var d := c.g.deps[n][i];
    assert d != n;
    if s.nodes[d].list.closed && !late {
      ListsGoOn(c, s, s');
    } else {
      ListsJoin(c, s, s', d, Getter(n, i));
    }
  }

  lemma AskKeepsLists(c: Config, s: State, p: nat, late: bool)
    requires Valid(c) && Fits(c, s) && Prefetch(c, s) && Paths(c, s) && Lists(c, s)
    requires Enabled(c, s, PathAsk(p, late))
    ensures Lists(c, Apply(c, s, PathAsk(p, late)))
  {
    var s' := Apply(c, s, PathAsk(p, late));
    var i := s.paths[p].pc.at;
    var f := c.filters[p][i];
    assert ProgressAt(c, s, p);
    if s.nodes[f].list.closed && !late {
      ListsGoOn(c, s, s');
    } else {
      ListsJoin(c, s, s', f, OnPath(p, i));
    }
  }

  /** A thread leaves a list when it has nothing more to look at there. */
  lemma FetchStartKeepsLists(c: Config, s: State, n: nat)
    requires Valid(c) && Fits(c, s) && Prefetch(c, s) && Lists(c, s) && Enabled(c, s, FetchStart(n))
    ensures Lists(c, Apply(c, s, FetchStart(n)))
  {
    var s' := Apply(c, s, FetchStart(n));
    assert c.g.deps[n][s.nodes[n].phase.at] != n;
    forall d: nat ensures ListAt(c, s', d) {
      assert ListAt(c, s, d);
    }
    forall d: nat, w ensures RecheckAt(c, s', d, w) && JoinedAt(c, s', d, w) {
      assert RecheckAt(c, s, d, w) && JoinedAt(c, s, d, w);
    }
  }

  lemma StartFilterKeepsLists(c: Config, s: State, t: Starter)
    requires Valid(c) && Fits(c, s) && Prefetch(c, s) && Lists(c, s) && Enabled(c, s, StartFilter(t))
    ensures Lists(c, Apply(c, s, StartFilter(t)))
  {
    var s' := Apply(c, s, StartFilter(t));
    forall d: nat ensures ListAt(c, s', d) {
      assert ListAt(c, s, d);
    }
    forall d: nat, w ensures RecheckAt(c, s', d, w) && JoinedAt(c, s', d, w) {
      assert RecheckAt(c, s, d, w) && JoinedAt(c, s, d, w);
    }
  }

  lemma ReleaseKeepsLists(c: Config, s: State, d: nat, w: Waiter, reader: bool)
    requires Valid(c) && Fits(c, s) && Prefetch(c, s) && Lists(c, s) && Enabled(c, s, Release(d, w, reader))
    ensures Lists(c, DoRelease(s, d, w, reader))
  {
    assert ListAt(c, s, d) && WaiterAt(c, s, d, w);
    if w.Getter? {
      assert NodeAt(c, s, w.node);
    }
    ListsGoOn(c, s, DoRelease(s, d, w, reader));
  }

  /** The steps of the lists themselves. */
  lemma HiddenKeepsLists(c: Config, s: State, a: Action)
    requires Valid(c) && Fits(c, s) && Prefetch(c, s) && Lists(c, s) && Enabled(c, s, a)
    requires a.Take? || a.Recheck? || a.Look?
    ensures Fits(c, Apply(c, s, a)) && Lists(c, Apply(c, s, a))
  {
    ApplyFits(c, s, a);
    ListsGoOn(c, s, Apply(c, s, a));
  }

  lemma AnnounceKeepsLists(c: Config, s: State, n: nat)
    requires Valid(c) && Fits(c, s) && Prefetch(c, s) && Lists(c, s) && Enabled(c, s, Announce(n))
    ensures Lists(c, DoAnnounce(s, n))
  {
    assert NodeAt(c, s, n);
    ListsGoOn(c, s, DoAnnounce(s, n));
  }

  lemma NodeKeepsLists(c: Config, s: State, a: Action)
    requires Valid(c) && Fits(c, s) && Prefetch(c, s) && Lists(c, s) && Enabled(c, s, a) && SchedulerPrefetch.Sound(c, s, a)
    requires a.FetchEnd? || a.Execute? || a.StartQueued?
    ensures Fits(c, Apply(c, s, a)) && Lists(c, Apply(c, s, a))
  {
    ApplyFits(c, s, a);
    ListsGoOn(c, s, Apply(c, s, a));
  }

  lemma WorkKeepsLists(c: Config, s: State, a: Action)
    requires Valid(c) && Fits(c, s) && Prefetch(c, s) && Lists(c, s) && Enabled(c, s, a) && (a.Work? || a.Leave?)
    ensures Fits(c, Apply(c, s, a)) && Lists(c, Apply(c, s, a))
  {
    ApplyFits(c, s, a);
    ListsGoOn(c, s, Apply(c, s, a));
  }

  lemma PathKeepsLists(c: Config, s: State, a: Action)
    requires Valid(c) && Fits(c, s) && Prefetch(c, s) && Lists(c, s) && Enabled(c, s, a)
    requires a.LaunchPath? || a.LaunchEnd? || a.PathRequest? || a.PathFire? || a.PathEnd? || a.EventFire?
    ensures Fits(c, Apply(c, s, a)) && Lists(c, Apply(c, s, a))
  {
    ApplyFits(c, s, a);
    ListsGoOn(c, s, Apply(c, s, a));
  }

  lemma InitLists(c: Config)
    requires Valid(c)
    ensures Lists(c, Init(c))
  {
  }

  lemma AddKeepsLists(c: Config, s: State, a: Action)
    requires Valid(c) && Fits(c, s) && Prefetch(c, s) && Paths(c, s) && Lists(c, s) && Enabled(c, s, a)
    requires a.FetchAdd? || a.FetchStart? || a.StartFilter? || a.PathAsk? || a.Release?
    ensures Fits(c, Apply(c, s, a)) && Lists(c, Apply(c, s, a))
  {
    ApplyFits(c, s, a);
    match a
    case FetchAdd(n, late) => FetchAddKeepsLists(c, s, n, late);
    case FetchStart(n) => FetchStartKeepsLists(c, s, n);
    case StartFilter(t) => StartFilterKeepsLists(c, s, t);
    case PathAsk(p, late) => AskKeepsLists(c, s, p, late);
    case Release(d, w, reader) => ReleaseKeepsLists(c, s, d, w, reader);
  }

  lemma StepKeepsLists(c: Config, s: State, a: Action)
    requires Valid(c) && Fits(c, s) && Prefetch(c, s) && Paths(c, s) && Lists(c, s)
    requires Enabled(c, s, a) && SchedulerPrefetch.Sound(c, s, a)
    ensures Fits(c, Apply(c, s, a)) && Lists(c, Apply(c, s, a))
  {
    if a.FetchAdd? || a.FetchStart? || a.StartFilter? || a.PathAsk? || a.Release? {
      AddKeepsLists(c, s, a);
    } else if a.Take? || a.Recheck? || a.Look? {
      HiddenKeepsLists(c, s, a);
    } else if a.Announce? {
      AnnounceKeepsLists(c, s, a.node);
    } else if a.FetchEnd? || a.Execute? || a.StartQueued? {
      NodeKeepsLists(c, s, a);
    } else if a.Work? || a.Leave? {
      WorkKeepsLists(c, s, a);
    } else {
      PathKeepsLists(c, s, a);
    }
  }
}
