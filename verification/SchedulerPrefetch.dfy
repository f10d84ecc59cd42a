// The prefetch protocol of the scheduler: reference counts are the outstanding getters
// plus the loop's own holder, and a token in a wait list belongs to exactly one getter or
// path. It is kept by every step.

module SchedulerPrefetch {
  import opened Basics
  import opened ModuleGraphs
  import opened Schedulers
  import WL = WaitLists
  import WQ = WorkQueues

  /** How many getters of the node have been asked for. */
  function Added(c: Config, n: nat, x: NodeState): nat
    requires n < |c.g.deps|
  {
    match x.phase
    case Idle => 0
    case Fetch(i, added) => if added then i + 1 else i
    case _ => |c.g.deps[n]|
  }

  predicate Closed(x: NodeState) {
    x.phase.Ended?
  }

  /** What can be said of a node by itself: in particular its count of holders. */
  ghost predicate Local(c: Config, n: nat, x: NodeState)
    requires n < |c.g.deps|
  {
    && (x.list.closed <==> Closed(x))
    && (forall i | i in x.out :: i < Added(c, n, x))
    && match x.phase
       case Idle => x.refs == 0 && x.out == {} && x.failed == None
       case Fetch(i, added) => i <= |c.g.deps[n]| && (added ==> i < |c.g.deps[n]|) && x.refs == |x.out| + 1
       case Prefetched => x.refs == |x.out| && x.refs > 0
       case _ => x.refs == 0 && x.out == {}
  }

  /** A getter asked for either has its token in the list of its node, or has been let go by
      a closed list, with the exception of the list, if any, noted. */
  predicate GetterOk(x: NodeState, y: NodeState, n: nat, i: nat) {
    if i in x.out
    then Getter(n, i) in y.list.waiting && (y.phase.Idle? ==> x.phase == Fetch(i, true))
    else y.list.closed && (y.list.exc.Some? ==> x.failed.Some?)
  }

  ghost predicate GetterAt(c: Config, s: State, n: nat, i: nat)
    requires Valid(c) && Fits(c, s)
  {
    n < |s.nodes| && i < |c.g.deps[n]| && i < Added(c, n, s.nodes[n]) ==>
      GetterOk(s.nodes[n], s.nodes[c.g.deps[n][i]], n, i)
  }

  ghost predicate WaiterOk(c: Config, s: State, d: nat, w: Waiter)
    requires Valid(c) && Fits(c, s)
  {
    match w
    case Getter(n, i) => n < |s.nodes| && i < |c.g.deps[n]| && c.g.deps[n][i] == d && i in s.nodes[n].out
    case OnPath(p, j) =>
      && p < |s.paths| && s.paths[p].pc == Asked(j) && j < |c.filters[p]| && c.filters[p][j] == d
  }

  ghost predicate WaiterAt(c: Config, s: State, d: nat, w: Waiter)
    requires Valid(c) && Fits(c, s)
  {
    d < |s.nodes| && w in s.nodes[d].list.waiting ==> WaiterOk(c, s, d, w)
  }

  ghost predicate NodeAt(c: Config, s: State, n: nat)
    requires Valid(c) && Fits(c, s)
  {
    n < |s.nodes| ==> Local(c, n, s.nodes[n])
  }

  predicate InPath(c: Config, p: nat, x: PathState)
    requires p < |c.filters|
  {
    match x.pc
    case Request(i) => i < |c.filters[p]|
    case Ask(i) => i < |c.filters[p]|
    case Asked(i) => i < |c.filters[p]|
    case Fired(i, _) => i < |c.filters[p]|
    case _ => true
  }

  ghost predicate PathAt(c: Config, s: State, p: nat)
    requires Valid(c) && Fits(c, s)
  {
    p < |s.paths| ==>
      && InPath(c, p, s.paths[p])
      && (s.paths[p].pc.Asked? ==>
            var f := c.filters[p][s.paths[p].pc.at];
            && OnPath(p, s.paths[p].pc.at) in s.nodes[f].list.waiting
            && (s.nodes[f].phase.Idle? ==> Starter(p, s.paths[p].pc.at) in s.starts))
  }

  ghost predicate Prefetch(c: Config, s: State)
    requires Valid(c) && Fits(c, s)
  {
    && (forall n: nat {:trigger NodeAt(c, s, n)} :: NodeAt(c, s, n))
    && (forall n, i {:trigger GetterAt(c, s, n, i)} :: GetterAt(c, s, n, i))
    && (forall d, w {:trigger WaiterAt(c, s, d, w)} :: WaiterAt(c, s, d, w))
    && (forall p {:trigger PathAt(c, s, p)} :: PathAt(c, s, p))
  }

  // ---------- steps that change one node only ----------

  /** A node that has all its getters behind it moves on without touching its list. */
  predicate MovesOn(x: NodeState, x': NodeState) {
    && (x.phase.Ready? || x.phase.Queued? || x.phase.Running?)
    && (x'.phase.Queued? || x'.phase.Running? || x'.phase.Worked?)
    && x' == x.(phase := x'.phase, value := x'.value, cached := x'.cached)
  }

  lemma MoveKeeps(c: Config, s: State, s': State, n: nat)
    requires Valid(c) && Fits(c, s) && Fits(c, s') && Prefetch(c, s)
    requires n < |s.nodes| && MovesOn(s.nodes[n], s'.nodes[n])
    requires s'.nodes == s.nodes[n := s'.nodes[n]] && s'.paths == s.paths && s'.starts == s.starts
    ensures Prefetch(c, s')
  {
    forall m ensures NodeAt(c, s', m) {
      assert NodeAt(c, s, m);
    }
    forall m, i ensures GetterAt(c, s', m, i) {
      assert GetterAt(c, s, m, i);
    }
    forall d, w ensures WaiterAt(c, s', d, w) {
      assert WaiterAt(c, s, d, w);
    }
    forall p ensures PathAt(c, s', p) {
      assert PathAt(c, s, p);
    }
  }

  lemma FetchEndKeeps(c: Config, s: State, n: nat)
    requires Valid(c) && Fits(c, s) && Prefetch(c, s) && Enabled(c, s, FetchEnd(n))
    ensures Prefetch(c, DoFetchEnd(s, n))
  {
    var s' := DoFetchEnd(s, n);
    forall m ensures NodeAt(c, s', m) {
      assert NodeAt(c, s, m);
    }
    forall m, i ensures GetterAt(c, s', m, i) {
      assert GetterAt(c, s, m, i);
    }
    forall d, w ensures WaiterAt(c, s', d, w) {
      assert WaiterAt(c, s, d, w);
    }
    forall p ensures PathAt(c, s', p) {
      assert PathAt(c, s, p);
    }
  }

  /** doneWaiting: a node that has worked closes its list. */
  lemma AnnounceKeeps(c: Config, s: State, n: nat)
    requires Valid(c) && Fits(c, s) && Prefetch(c, s) && Enabled(c, s, Announce(n))
    ensures Prefetch(c, DoAnnounce(s, n))
  {
    var s' := DoAnnounce(s, n);
    assert NodeAt(c, s, n);
    forall m ensures NodeAt(c, s', m) {
      assert NodeAt(c, s, m);
    }
    forall m, j ensures GetterAt(c, s', m, j) {
      assert GetterAt(c, s, m, j);
    }
    forall e, v ensures WaiterAt(c, s', e, v) {
      assert WaiterAt(c, s, e, v);
    }
    forall p ensures PathAt(c, s', p) {
      assert PathAt(c, s, p);
    }
  }

  /** A step inside the lists that no waiter sees. */
  predicate Hidden(s: State, s': State) {
    && |s'.nodes| == |s.nodes| && s'.queues == s.queues && s'.paths == s.paths && s'.events == s.events
    && s'.starts == s.starts && s'.fatal == s.fatal && s'.ran == s.ran
    && forall n | 0 <= n < |s.nodes| :: HiddenIn(s.nodes[n], s'.nodes[n])
  }

  predicate HiddenIn(x: NodeState, x': NodeState) {
    && x' == x.(list := x'.list)
    && x'.list.closed == x.list.closed && x'.list.exc == x.list.exc && x'.list.waiting == x.list.waiting
  }

  lemma HiddenKeeps(c: Config, s: State, s': State)
    requires Valid(c) && Fits(c, s) && Fits(c, s') && Prefetch(c, s) && Hidden(s, s')
    ensures Prefetch(c, s')
  {
    forall m: nat | m < |s.nodes| ensures HiddenIn(s.nodes[m], s'.nodes[m]) {}
    forall m ensures NodeAt(c, s', m) {
      assert NodeAt(c, s, m);
    }
    forall m, i ensures GetterAt(c, s', m, i) {
      assert GetterAt(c, s, m, i);
    }
    forall d, w ensures WaiterAt(c, s', d, w) {
      assert WaiterAt(c, s, d, w);
    }
    forall p ensures PathAt(c, s', p) {
      assert PathAt(c, s, p);
    }
  }

  // ---------- getters ----------

  lemma JoinedGetter(c: Config, s: State, n: nat, d: nat, i: nat, m: nat, j: nat)
    requires Valid(c) && Fits(c, s) && n < |s.nodes| && NodeAt(c, s, n) && GetterAt(c, s, m, j)
    requires s.nodes[n].phase == Fetch(i, false) && i < |c.g.deps[n]| && d == c.g.deps[n][i]
    ensures Fits(c, DoFetchAdd(c, s, n, d, i, true)) && GetterAt(c, DoFetchAdd(c, s, n, d, i, true), m, j)
  {
  }

  lemma FetchJoinKeeps(c: Config, s: State, n: nat, d: nat, i: nat)
    requires Valid(c) && Fits(c, s) && Prefetch(c, s)
    requires n < |s.nodes| && s.nodes[n].phase == Fetch(i, false) && i < |c.g.deps[n]| && d == c.g.deps[n][i]
    ensures Prefetch(c, DoFetchAdd(c, s, n, d, i, true))
  {
    var s' := DoFetchAdd(c, s, n, d, i, true);
    assert NodeAt(c, s, n) && d != n && i !in s.nodes[n].out;
    forall m ensures NodeAt(c, s', m) {
      assert NodeAt(c, s, m);
    }
    forall m, j ensures GetterAt(c, s', m, j) {
      assert GetterAt(c, s, m, j);
      JoinedGetter(c, s, n, d, i, m, j);
    }
    forall e, v ensures WaiterAt(c, s', e, v) {
      assert WaiterAt(c, s, e, v);
    }
    forall p ensures PathAt(c, s', p) {
      assert PathAt(c, s, p);
    }
  }

  lemma FetchPassKeeps(c: Config, s: State, n: nat, d: nat, i: nat)
    requires Valid(c) && Fits(c, s) && Prefetch(c, s)
    requires n < |s.nodes| && s.nodes[n].phase == Fetch(i, false) && i < |c.g.deps[n]| && d == c.g.deps[n][i]
    requires s.nodes[d].list.closed
    ensures Prefetch(c, DoFetchAdd(c, s, n, d, i, false))
  {
    var s' := DoFetchAdd(c, s, n, d, i, false);
    assert NodeAt(c, s, n) && d != n && i !in s.nodes[n].out;
    forall m ensures NodeAt(c, s', m) {
      assert NodeAt(c, s, m);
    }
    forall m, j ensures GetterAt(c, s', m, j) {
      assert GetterAt(c, s, m, j);
    }
    forall e, v ensures WaiterAt(c, s', e, v) {
      assert WaiterAt(c, s, e, v);
    }
    forall p ensures PathAt(c, s', p) {
      assert PathAt(c, s, p);
    }
  }

  lemma FetchAddKeeps(c: Config, s: State, n: nat, late: bool)
    requires Valid(c) && Fits(c, s) && Prefetch(c, s) && Enabled(c, s, FetchAdd(n, late))
    ensures Prefetch(c, Apply(c, s, FetchAdd(n, late)))
  {
    var i := s.nodes[n].phase.at;
    var d := c.g.deps[n][i];
    if s.nodes[d].list.closed && !late {
      FetchPassKeeps(c, s, n, d, i);
    } else {
      FetchJoinKeeps(c, s, n, d, i);
    }
  }

  lemma FetchStartKeeps(c: Config, s: State, n: nat)
    requires Valid(c) && Fits(c, s) && Prefetch(c, s) && Enabled(c, s, FetchStart(n))
    ensures Prefetch(c, Apply(c, s, FetchStart(n)))
  {
    var s' := Apply(c, s, FetchStart(n));
    assert NodeAt(c, s, n);
    assert c.g.deps[n][s.nodes[n].phase.at] != n;
    forall m ensures NodeAt(c, s', m) {
      assert NodeAt(c, s, m);
    }
    forall m, i ensures GetterAt(c, s', m, i) {
      assert GetterAt(c, s, m, i);
    }
    forall d, w ensures WaiterAt(c, s', d, w) {
      assert WaiterAt(c, s, d, w);
    }
    forall p ensures PathAt(c, s', p) {
      assert PathAt(c, s, p);
    }
  }

  lemma ReleaseGetterKeeps(c: Config, s: State, d: nat, n: nat, i: nat, reader: bool)
    requires Valid(c) && Fits(c, s) && Prefetch(c, s)
    requires d < |s.nodes| && s.nodes[d].list.closed && Getter(n, i) in s.nodes[d].list.waiting
    requires n < |s.nodes| && n != d && s.nodes[n].refs > 0
    ensures Prefetch(c, DoRelease(s, d, Getter(n, i), reader))
  {
    var s' := DoRelease(s, d, Getter(n, i), reader);
    assert WaiterAt(c, s, d, Getter(n, i)) && NodeAt(c, s, d) && NodeAt(c, s, n);
    ReleasedNode(c, s, s', d, n, i);
    forall m | m != n ensures NodeAt(c, s', m) {
      assert NodeAt(c, s, m);
    }
    forall m, j ensures GetterAt(c, s', m, j) {
      assert GetterAt(c, s, m, j);
      ReleasedGetter(c, s, d, n, i, reader, m, j);
    }
    forall e, v ensures WaiterAt(c, s', e, v) {
      assert WaiterAt(c, s, e, v);
    }
    forall p ensures PathAt(c, s', p) {
      assert PathAt(c, s, p);
    }
  }

  lemma ReleasedGetter(c: Config, s: State, d: nat, n: nat, i: nat, reader: bool, m: nat, j: nat)
    requires Valid(c) && Fits(c, s) && d < |s.nodes| && n < |s.nodes| && n != d && s.nodes[n].refs > 0
    requires NodeAt(c, s, d) && NodeAt(c, s, n) && WaiterOk(c, s, d, Getter(n, i)) && s.nodes[d].list.closed
    requires GetterAt(c, s, m, j)
    ensures Fits(c, DoRelease(s, d, Getter(n, i), reader)) && GetterAt(c, DoRelease(s, d, Getter(n, i), reader), m, j)
  {
  }

  lemma ReleasedNode(c: Config, s: State, s': State, d: nat, n: nat, i: nat)
    requires Valid(c) && Fits(c, s) && Fits(c, s')
    requires n < |s.nodes| && s.nodes[n].refs > 0 && NodeAt(c, s, n) && i in s.nodes[n].out
    requires d < |s.nodes| && s'.nodes[n] == LetGo(s.nodes[n], i, s.nodes[d].list.exc)
    ensures NodeAt(c, s', n)
  {
  }

  lemma ReleasePathKeeps(c: Config, s: State, d: nat, q: nat, k: nat, reader: bool)
    requires Valid(c) && Fits(c, s) && Prefetch(c, s)
    requires d < |s.nodes| && s.nodes[d].list.closed && OnPath(q, k) in s.nodes[d].list.waiting
    requires q < |s.paths| && s.paths[q].pc == Asked(k)
    ensures Prefetch(c, DoRelease(s, d, OnPath(q, k), reader))
  {
    var s' := DoRelease(s, d, OnPath(q, k), reader);
    assert WaiterAt(c, s, d, OnPath(q, k)) && NodeAt(c, s, d) && PathAt(c, s, q);
    forall m ensures NodeAt(c, s', m) {
      assert NodeAt(c, s, m);
    }
    forall m, j ensures GetterAt(c, s', m, j) {
      assert GetterAt(c, s, m, j);
    }
    forall e, v ensures WaiterAt(c, s', e, v) {
      assert WaiterAt(c, s, e, v);
    }
    forall p ensures PathAt(c, s', p) {
      assert PathAt(c, s, p);
    }
  }

  // ---------- paths ----------

  lemma StartFilterKeeps(c: Config, s: State, t: Starter)
    requires Valid(c) && Fits(c, s) && Prefetch(c, s) && Enabled(c, s, StartFilter(t))
    ensures Prefetch(c, DoStartFilter(s, c.filters[t.path][t.at], t))
  {
    var s' := DoStartFilter(s, c.filters[t.path][t.at], t);
    forall m ensures NodeAt(c, s', m) {
      assert NodeAt(c, s, m);
    }
    forall m, i ensures GetterAt(c, s', m, i) {
      assert GetterAt(c, s, m, i);
    }
    forall d, w ensures WaiterAt(c, s', d, w) {
      assert WaiterAt(c, s, d, w);
    }
    forall p ensures PathAt(c, s', p) {
      assert PathAt(c, s, p);
    }
  }

  lemma PathJoinKeeps(c: Config, s: State, q: nat, f: nat, k: nat)
    requires Valid(c) && Fits(c, s) && Prefetch(c, s)
    requires q < |s.paths| && s.paths[q].pc == Ask(k) && k < |c.filters[q]| && f == c.filters[q][k]
    ensures Prefetch(c, DoPathAsk(s, q, f, k, true))
  {
    var s' := DoPathAsk(s, q, f, k, true);
    assert PathAt(c, s, q);
    forall m ensures NodeAt(c, s', m) {
      assert NodeAt(c, s, m);
    }
    forall m, i ensures GetterAt(c, s', m, i) {
      assert GetterAt(c, s, m, i);
    }
    forall d, w ensures WaiterAt(c, s', d, w) {
      assert WaiterAt(c, s, d, w);
    }
    forall p ensures PathAt(c, s', p) {
      assert PathAt(c, s, p);
    }
  }

  lemma PathPassKeeps(c: Config, s: State, q: nat, f: nat, k: nat)
    requires Valid(c) && Fits(c, s) && Prefetch(c, s)
    requires q < |s.paths| && s.paths[q].pc == Ask(k) && k < |c.filters[q]| && f == c.filters[q][k]
    requires s.nodes[f].list.closed
    ensures Prefetch(c, DoPathAsk(s, q, f, k, false))
  {
    var s' := DoPathAsk(s, q, f, k, false);
    assert PathAt(c, s, q);
    forall m ensures NodeAt(c, s', m) {
      assert NodeAt(c, s, m);
    }
    forall m, i ensures GetterAt(c, s', m, i) {
      assert GetterAt(c, s, m, i);
    }
    forall d, w ensures WaiterAt(c, s', d, w) {
      assert WaiterAt(c, s, d, w);
    }
    forall p ensures PathAt(c, s', p) {
      assert PathAt(c, s, p);
    }
  }

  lemma PathAskKeeps(c: Config, s: State, q: nat, late: bool)
    requires Valid(c) && Fits(c, s) && Prefetch(c, s) && Enabled(c, s, PathAsk(q, late))
    ensures Prefetch(c, Apply(c, s, PathAsk(q, late)))
  {
    var k := s.paths[q].pc.at;
    var f := c.filters[q][k];
    if s.nodes[f].list.closed && !late {
      PathPassKeeps(c, s, q, f, k);
    } else {
      PathJoinKeeps(c, s, q, f, k);
    }
  }

  /** A path that neither waits nor begins to wait. */
  lemma PathMoveKeeps(c: Config, s: State, s': State, q: nat)
    requires Valid(c) && Fits(c, s) && Fits(c, s') && Prefetch(c, s)
    requires q < |s.paths| && !s.paths[q].pc.Asked? && !s'.paths[q].pc.Asked? && InPath(c, q, s'.paths[q])
    requires s'.nodes == s.nodes && s'.paths == s.paths[q := s'.paths[q]] && s'.starts == s.starts
    ensures Prefetch(c, s')
  {
    forall m ensures NodeAt(c, s', m) {
      assert NodeAt(c, s, m);
    }
    forall m, i ensures GetterAt(c, s', m, i) {
      assert GetterAt(c, s, m, i);
    }
    forall d, w ensures WaiterAt(c, s', d, w) {
      assert WaiterAt(c, s, d, w);
    }
    forall p ensures PathAt(c, s', p) {
      assert PathAt(c, s, p);
    }
  }

  // ---------- what a step may do to a node ----------

  /** Only its own work gives a node a product, only its announcement closes its list, and an
      exception that is noted stays. */
  predicate Guarantee(a: Action, n: nat, x: NodeState, x': NodeState) {
    if a == Work(n) then
      x.phase.Running? && x'.phase.Worked? && x' == x.(phase := x'.phase, value := x'.value, cached := x'.cached)
    else if a == Announce(n) then
      x.phase.Worked? && x' == x.(phase := Ended, list := WL.Close(x.list, x.phase.exc))
    else
      && x'.list.closed == x.list.closed && x'.list.exc == x.list.exc && x'.value == x.value && x'.cached == x.cached
      && (if x.phase.Worked? then x'.phase == x.phase else !x'.phase.Worked?)
      && (Closed(x) <==> Closed(x'))
      && (x'.failed == x.failed || (x.failed == None && (a.FetchAdd? || a.Release?)))
  }

  /** A token leaves the list of d only when that is closed, and for a node that still
      prefetches, and a queue starts a node that waits in it. */
  ghost predicate Sound(c: Config, s: State, a: Action)
    requires Valid(c) && Fits(c, s) && Enabled(c, s, a)
  {
    && (a.Release? && a.waiter.Getter? ==>
          s.nodes[a.waiter.node].phase.Fetch? || s.nodes[a.waiter.node].phase.Prefetched?)
    && (a.Release? ==> s.nodes[a.node].list.closed)
    && (a.StartQueued? ==> s.nodes[s.queues[a.queue].waiting[0]].phase.Queued?)
  }

  lemma FetchGuarantee(c: Config, s: State, a: Action, n: nat)
    requires Valid(c) && Fits(c, s) && Enabled(c, s, a) && Sound(c, s, a) && n < |s.nodes|
    requires a.FetchAdd? || a.FetchStart? || a.FetchEnd? || a.Release? || a.Take? || a.Recheck? || a.Look?
    ensures |Apply(c, s, a).nodes| == |s.nodes| && Guarantee(a, n, s.nodes[n], Apply(c, s, a).nodes[n])
  {
  }

  lemma WorkGuarantee(c: Config, s: State, a: Action, n: nat)
    requires Valid(c) && Fits(c, s) && Enabled(c, s, a) && Sound(c, s, a) && n < |s.nodes|
    requires a.Execute? || a.StartQueued? || a.Work? || a.Announce? || a.Leave?
    ensures |Apply(c, s, a).nodes| == |s.nodes| && Guarantee(a, n, s.nodes[n], Apply(c, s, a).nodes[n])
  {
  }

  lemma PathGuarantee(c: Config, s: State, a: Action, n: nat)
    requires Valid(c) && Fits(c, s) && Enabled(c, s, a) && n < |s.nodes|
    requires a.LaunchPath? || a.LaunchEnd? || a.PathRequest? || a.PathAsk? || a.StartFilter?
          || a.PathFire? || a.PathEnd? || a.EventFire?
    ensures |Apply(c, s, a).nodes| == |s.nodes| && Guarantee(a, n, s.nodes[n], Apply(c, s, a).nodes[n])
  {
  }

  lemma StepGuarantee(c: Config, s: State, a: Action, n: nat)
    requires Valid(c) && Fits(c, s) && Enabled(c, s, a) && Sound(c, s, a) && n < |s.nodes|
    ensures |Apply(c, s, a).nodes| == |s.nodes| && Guarantee(a, n, s.nodes[n], Apply(c, s, a).nodes[n])
  {
    if a.FetchAdd? || a.FetchStart? || a.FetchEnd? || a.Release? || a.Take? || a.Recheck? || a.Look? {
      FetchGuarantee(c, s, a, n);
    } else if a.Execute? || a.StartQueued? || a.Work? || a.Announce? || a.Leave? {
      WorkGuarantee(c, s, a, n);
    } else {
      PathGuarantee(c, s, a, n);
    }
  }

  // ---------- all steps ----------

  lemma InitPrefetch(c: Config)
    requires Valid(c)
    ensures Prefetch(c, Init(c))
  {
  }

  /** Steps of the job around the modules and paths. */
  lemma ElsewhereKeeps(c: Config, s: State, s': State)
    requires Valid(c) && Fits(c, s) && Fits(c, s') && Prefetch(c, s)
    requires s'.nodes == s.nodes && s'.paths == s.paths && s'.starts == s.starts
    ensures Prefetch(c, s')
  {
    forall m ensures NodeAt(c, s', m) {
      assert NodeAt(c, s, m);
    }
    forall m, i ensures GetterAt(c, s', m, i) {
      assert GetterAt(c, s, m, i);
    }
    forall d, w ensures WaiterAt(c, s', d, w) {
      assert WaiterAt(c, s, d, w);
    }
    forall p ensures PathAt(c, s', p) {
      assert PathAt(c, s, p);
    }
  }

  lemma NodeStepKeeps(c: Config, s: State, a: Action)
    requires Valid(c) && Fits(c, s) && Prefetch(c, s) && Enabled(c, s, a)
    requires a.Execute? || a.StartQueued? || a.Work? || a.Announce? || a.Leave? || a.FetchEnd?
    requires a.StartQueued? ==> s.nodes[s.queues[a.queue].waiting[0]].phase.Queued?
    ensures Fits(c, Apply(c, s, a)) && Prefetch(c, Apply(c, s, a))
  {
    ApplyFits(c, s, a);
    var s' := Apply(c, s, a);
    match a
    case FetchEnd(n) => FetchEndKeeps(c, s, n);
    case Execute(n) => MoveKeeps(c, s, s', n);
    case StartQueued(q) => MoveKeeps(c, s, s', s.queues[q].waiting[0]);
    case Work(n) => MoveKeeps(c, s, s', n);
    case Announce(n) => AnnounceKeeps(c, s, n);
    case Leave(q) => ElsewhereKeeps(c, s, s');
  }

  lemma WaitStepKeeps(c: Config, s: State, a: Action)
    requires Valid(c) && Fits(c, s) && Prefetch(c, s) && Enabled(c, s, a)
    requires a.FetchAdd? || a.FetchStart? || a.Release? || a.PathAsk? || a.StartFilter?
    requires a.Release? ==> s.nodes[a.node].list.closed
    ensures Fits(c, Apply(c, s, a)) && Prefetch(c, Apply(c, s, a))
  {
    ApplyFits(c, s, a);
    match a
    case FetchAdd(n, late) => FetchAddKeeps(c, s, n, late);
    case FetchStart(n) => FetchStartKeeps(c, s, n);
    case Release(d, Getter(n, i), reader) => ReleaseGetterKeeps(c, s, d, n, i, reader);
    case Release(d, OnPath(p, k), reader) => ReleasePathKeeps(c, s, d, p, k, reader);
    case PathAsk(p, late) => PathAskKeeps(c, s, p, late);
    case StartFilter(f) => StartFilterKeeps(c, s, f);
  }

  lemma PathStepKeeps(c: Config, s: State, a: Action)
    requires Valid(c) && Fits(c, s) && Prefetch(c, s) && Enabled(c, s, a)
    requires a.LaunchPath? || a.LaunchEnd? || a.PathRequest? || a.PathFire? || a.PathEnd? || a.EventFire?
    requires a.LaunchPath? ==> s.paths[c.pathsOf[a.event][s.events[a.event].pc.at]].pc.Dormant?
    ensures Fits(c, Apply(c, s, a)) && Prefetch(c, Apply(c, s, a))
  {
    ApplyFits(c, s, a);
    var s' := Apply(c, s, a);
    match a
    case LaunchPath(e) => PathMoveKeeps(c, s, s', c.pathsOf[e][s.events[e].pc.at]);
    case LaunchEnd(e) => ElsewhereKeeps(c, s, s');
    case PathRequest(p) =>
      assert PathAt(c, s, p);
      PathMoveKeeps(c, s, s', p);
    case PathFire(p) => PathMoveKeeps(c, s, s', p);
    case PathEnd(p) => PathMoveKeeps(c, s, s', p);
    case EventFire(e) => ElsewhereKeeps(c, s, s');
  }

  lemma StepKeepsPrefetch(c: Config, s: State, a: Action)
    requires Valid(c) && Fits(c, s) && Prefetch(c, s) && Enabled(c, s, a)
    requires a.StartQueued? ==> s.nodes[s.queues[a.queue].waiting[0]].phase.Queued?
    requires a.LaunchPath? ==> s.paths[c.pathsOf[a.event][s.events[a.event].pc.at]].pc.Dormant?
    requires a.Release? ==> s.nodes[a.node].list.closed
    ensures Fits(c, Apply(c, s, a)) && Prefetch(c, Apply(c, s, a))
  {
    if a.Take? || a.Recheck? || a.Look? {
      ApplyFits(c, s, a);
      HiddenKeeps(c, s, Apply(c, s, a));
    } else if a.Execute? || a.StartQueued? || a.Work? || a.Announce? || a.Leave? || a.FetchEnd? {
      NodeStepKeeps(c, s, a);
    } else if a.FetchAdd? || a.FetchStart? || a.Release? || a.PathAsk? || a.StartFilter? {
      WaitStepKeeps(c, s, a);
    } else {
      PathStepKeeps(c, s, a);
    }
  }
}
