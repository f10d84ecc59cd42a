// What a late closer does, in the job: a stream is reset while the thread that closed one of its
// lists has not yet taken the head. Whatever else is in flight, there is a next event and a
// run in which that thread lets somebody go before the module has worked.

module SchedulerLateCloser {
  import opened Basics
  import opened ModuleGraphs
  import opened Schedulers
  import opened SchedulerPrefetch
  import opened SchedulerQueues
  import opened SchedulerValues
  import opened SchedulerPaths
  import opened SchedulerDemand
  import opened SchedulerStarters
  import opened SchedulerLists
  import opened SchedulerProgress
  import opened SchedulerReuse
  import opened SchedulerReset
  import opened SchedulerNextEvent
  import opened SchedulerRuns
  import WL = WaitLists

  // ---------- an event goes on alone ----------

  /** No event calls back meanwhile, and no closer lets go itself. */
  predicate Alone(acts: seq<Action>) {
    forall k | 0 <= k < |acts| :: Plain(acts[k]) && !acts[k].EventFire?
  }

  /** Up to when its all-paths-done task is scheduled. */
  lemma {:induction false} RunOfEvent(c: Config, s: State, e: nat) returns (acts: seq<Action>)
    requires Valid(c) && Fits(c, s) && Inv(c, s) && e < |s.events| && !s.events[e].pc.Finished?
    ensures Alone(acts) && Proper(c, s, acts)
    ensures Run(c, s, acts).events[e].pc.Scheduled?
    decreases Measure(c, s)
  {
    if s.events[e].pc.Scheduled? {
      acts := [];
    } else {
      var a := EventGoesOn(c, s, e);
      ApplyKeepsInv(c, s, a);
      StepFalls(c, s, a);
      NotYetFinished(c, s, a, e);
      var rest := RunOfEvent(c, Apply(c, s, a), e);
      acts := [a] + rest;
      assert acts[1..] == rest;
    }
  }

  lemma NotYetFinished(c: Config, s: State, a: Action, e: nat)
    requires Valid(c) && Fits(c, s) && Enabled(c, s, a) && !a.EventFire? && e < |s.events| && !s.events[e].pc.Finished?
    ensures Fits(c, Apply(c, s, a)) && !Apply(c, s, a).events[e].pc.Finished? && Apply(c, s, a).fatal == s.fatal
  {
    ApplyFits(c, s, a);
  }

  lemma {:induction false} AloneKeepsFatal(c: Config, s: State, acts: seq<Action>)
    requires Valid(c) && Fits(c, s) && Alone(acts) && Proper(c, s, acts)
    ensures Run(c, s, acts).fatal == s.fatal
    decreases |acts|
  {
    if acts != [] {
      assert forall k | 0 <= k < |acts[1..]| :: acts[1..][k] == acts[k + 1];
      StepKeepsFatal(c, s, acts[0]);
      AloneKeepsFatal(c, Step(c, s, acts[0]), acts[1..]);
    }
  }

  lemma StepKeepsFatal(c: Config, s: State, a: Action)
    requires Valid(c) && Fits(c, s) && Enabled(c, s, a) && !a.EventFire?
    ensures Fits(c, Apply(c, s, a)) && Apply(c, s, a).fatal == s.fatal
  {
    ApplyFits(c, s, a);
  }

  // ---------- an event in which everything is kept ----------

  /** All modules of e make the same, which keeps the event. */
  ghost predicate AllKeep(c: Config, e: nat)
    requires Valid(c)
  {
    forall n, inputs | Owns(c, e, n) :: c.g.work(n, inputs) == Put(1)
  }

  lemma {:induction false} KeptValue(c: Config, e: nat, n: nat)
    requires Valid(c) && AllKeep(c, e) && Owns(c, e, n) && Node(c.g, n)
    ensures Eval(c.g, n) == Ok(1)
    decreases c.g.rank[n], 1, 0
  {
    KeptInputs(c, e, n, |c.g.deps[n]|);
  }

  lemma {:induction false} KeptInputs(c: Config, e: nat, n: nat, k: nat)
    requires Valid(c) && AllKeep(c, e) && Owns(c, e, n) && Node(c.g, n) && k <= |c.g.deps[n]|
    ensures Inputs(c.g, n, k) != None
    decreases c.g.rank[n], 0, k
  {
    if k > 0 {
      KeptInputs(c, e, n, k - 1);
      OwnsGetter(c, e, n, k - 1);
      KeptValue(c, e, c.g.deps[n][k - 1]);
    }
  }

  lemma {:induction false} AllVisited(c: Config, e: nat, p: nat, from: nat)
    requires Valid(c) && AllKeep(c, e) && p < |c.filters| && c.eventOf[p] == e && from <= |c.filters[p]|
    ensures Visited(c.g, c.filters[p], from) == |c.filters[p]|
    decreases |c.filters[p]| - from
  {
    if from < |c.filters[p]| {
      OwnsFilter(c, p, from);
      KeptValue(c, e, c.filters[p][from]);
      AllVisited(c, e, p, from + 1);
    }
  }

  /** When its paths are done, all of its modules have worked. */
  lemma AllHaveWorked(c: Config, s: State, e: nat, n: nat)
    requires Valid(c) && Fits(c, s) && Inv(c, s) && AllKeep(c, e) && !s.fatal
    requires e < |s.events| && s.events[e].pc.Scheduled? && Owns(c, e, n) && n < |s.nodes|
    ensures s.nodes[n].list.closed
  {
    var p: nat, j: nat :| OnPathOf(c, e, p, j) && n in Needs(c.g, c.filters[p][j]);
    assert CountAt(c, s, e) && MemberAt(c, s, e, Place(c, p)) && ProgressAt(c, s, p);
    AllVisited(c, e, p, 0);
    NeedsDone(c, s, c.filters[p][j], n);
  }

  // ---------- somebody waits before it works ----------

  /** A module that was started and has not ended has somebody waiting for it. */
  lemma StartedIsWaitedFor(c: Config, s: State, n: nat)
    requires Valid(c) && Fits(c, s) && Inv(c, s) && n < |s.nodes| && !s.nodes[n].phase.Idle? && !s.nodes[n].list.closed
    ensures s.nodes[n].list.waiting != {}
  {
    assert OriginAt(c, s, n);
    if q: nat, l: nat :| AskedFor(c, s, q, l, n) {
      assert ProgressAt(c, s, q) && PathAt(c, s, q);
      assert OnPath(q, l) in s.nodes[n].list.waiting;
    } else {
      var m: nat, k: nat :| GotBy(c, s, m, k, n);
      assert NodeAt(c, s, m) && GetterAt(c, s, m, k);
      assert Getter(m, k) in s.nodes[n].list.waiting;
    }
  }

  /** A run in which n is started passes a moment when n has not ended yet. */
  lemma {:induction false} PassesStart(c: Config, s: State, acts: seq<Action>, n: nat) returns (k: nat)
    requires Valid(c) && Fits(c, s) && Proper(c, s, acts) && n < |s.nodes|
    requires s.nodes[n].phase.Idle? && !s.nodes[n].list.closed && Run(c, s, acts).nodes[n].list.closed
    ensures k <= |acts| && Proper(c, s, acts[..k]) && OpenUntil(c, s, acts[..k], n)
    ensures var t := Run(c, s, acts[..k]); !t.nodes[n].phase.Idle? && !t.nodes[n].list.closed
    decreases |acts|
  {
    assert acts != [];
    var t := Step(c, s, acts[0]);
    StartsOpen(c, s, acts[0], n);
    if t.nodes[n].phase.Idle? {
      var l := PassesStart(c, t, acts[1..], n);
      k := l + 1;
      assert acts[..k] == [acts[0]] + acts[1..][..l];
      assert acts[..k][1..] == acts[1..][..l];
    } else {
      k := 1;
      assert acts[..1] == [acts[0]] && acts[..1][1..] == [];
      assert Run(c, t, []) == t;
    }
  }

  lemma StartsOpen(c: Config, s: State, a: Action, n: nat)
    requires Valid(c) && Fits(c, s) && Enabled(c, s, a)
    requires n < |s.nodes| && s.nodes[n].phase.Idle? && !s.nodes[n].list.closed
    ensures !Step(c, s, a).nodes[n].list.closed
  {
  }

  /** The list of n is open all the way. */
  ghost predicate OpenUntil(c: Config, s: State, acts: seq<Action>, n: nat)
    requires Valid(c) && Fits(c, s) && n < |s.nodes|
    decreases |acts|
  {
    !s.nodes[n].list.closed && (acts != [] ==> OpenUntil(c, Step(c, s, acts[0]), acts[1..], n))
  }

  // ---------- the same with late closers ----------

  /** The lists of t have closers that those of s have not. */
  predicate LateIn(l: WL.WaitList<Waiter>, m: WL.WaitList<Waiter>) {
    && m == l.(taking := m.taking, reading := m.reading, deleted := m.deleted)
    && (l.taking ==> m.taking)
  }

  predicate LateAt(s: State, t: State, n: nat)
    requires |t.nodes| == |s.nodes|
  {
    n < |s.nodes| ==> LateIn(s.nodes[n].list, t.nodes[n].list) && t.nodes[n] == s.nodes[n].(list := t.nodes[n].list)
  }

  ghost predicate Late(s: State, t: State) {
    && t == s.(nodes := t.nodes) && |t.nodes| == |s.nodes|
    && forall n: nat {:trigger LateAt(s, t, n)} :: LateAt(s, t, n)
  }

  lemma LateNodes(s: State, t: State)
    requires Late(s, t)
    ensures forall n: nat {:trigger t.nodes[n]} | n < |s.nodes| ::
      LateIn(s.nodes[n].list, t.nodes[n].list) && t.nodes[n] == s.nodes[n].(list := t.nodes[n].list)
  {
    forall n: nat | n < |s.nodes|
      ensures LateIn(s.nodes[n].list, t.nodes[n].list) && t.nodes[n] == s.nodes[n].(list := t.nodes[n].list)
    {
      assert LateAt(s, t, n);
    }
  }

  lemma LateGoesOn(c: Config, s: State, t: State, a: Action)
    requires Valid(c) && Fits(c, s) && Fits(c, t) && Late(s, t) && Enabled(c, s, a) && Plain(a)
    ensures Enabled(c, t, a)
  {
    LateNodes(s, t);
  }

  lemma LateAddStep(c: Config, s: State, t: State, a: Action)
    requires Valid(c) && Fits(c, s) && Fits(c, t) && Late(s, t) && Enabled(c, s, a) && Enabled(c, t, a)
    requires a.FetchAdd?
    ensures Fits(c, Apply(c, s, a)) && Fits(c, Apply(c, t, a)) && Late(Apply(c, s, a), Apply(c, t, a))
  {
    LateNodes(s, t);
    ApplyFits(c, s, a);
    ApplyFits(c, t, a);
  }

  lemma LateFetchStep(c: Config, s: State, t: State, a: Action)
    requires Valid(c) && Fits(c, s) && Fits(c, t) && Late(s, t) && Enabled(c, s, a) && Enabled(c, t, a)
    requires a.FetchStart? || a.FetchEnd?
    ensures Fits(c, Apply(c, s, a)) && Fits(c, Apply(c, t, a)) && Late(Apply(c, s, a), Apply(c, t, a))
  {
    LateNodes(s, t);
    ApplyFits(c, s, a);
    ApplyFits(c, t, a);
  }

  /** A wrapper changes in the same way in both. */
  lemma LateSet(s: State, t: State, n: nat, x: NodeState, y: NodeState)
    requires Late(s, t) && n < |s.nodes| && LateIn(x.list, y.list) && y == x.(list := y.list)
    ensures Late(SetNode(s, n, x), SetNode(t, n, y))
  {
    var s', t' := SetNode(s, n, x), SetNode(t, n, y);
    forall m: nat ensures LateAt(s', t', m) {
      assert LateAt(s, t, m);
    }
  }

  lemma LateRan(s: State, t: State, ran: seq<nat>)
    requires Late(s, t)
    ensures Late(s.(ran := ran), t.(ran := ran))
  {
    forall m: nat ensures LateAt(s.(ran := ran), t.(ran := ran), m) {
      assert LateAt(s, t, m);
    }
  }

  lemma LateWorkStep(c: Config, s: State, t: State, a: Action)
    requires Valid(c) && Fits(c, s) && Fits(c, t) && Late(s, t) && Enabled(c, s, a) && Enabled(c, t, a)
    requires a.Work?
    ensures Fits(c, Apply(c, s, a)) && Fits(c, Apply(c, t, a)) && Late(Apply(c, s, a), Apply(c, t, a))
  {
    LateNodes(s, t);
    var n := a.node;
    assert LateAt(s, t, n) && Read(c, t, n) == Read(c, s, n);
    LateWorked(s, t, n, s.nodes[n].failed, t.nodes[n].value, t.nodes[n].cached, s.ran);
    LateWorked(s, t, n, Some(n), t.nodes[n].value, t.nodes[n].cached, s.ran + [n]);
    match c.g.work(n, Read(c, s, n))
    case Put(v) => LateWorked(s, t, n, None, v, true, s.ran + [n]);
    case Threw =>
  }

  lemma LateWorked(s: State, t: State, n: nat, exc: Option<Exc>, v: int, there: bool, ran: seq<nat>)
    requires Late(s, t) && n < |s.nodes|
    ensures Late(SetNode(s, n, s.nodes[n].(phase := Worked(exc), value := v, cached := there)).(ran := ran),
                 SetNode(t, n, t.nodes[n].(phase := Worked(exc), value := v, cached := there)).(ran := ran))
  {
    var x := s.nodes[n].(phase := Worked(exc), value := v, cached := there);
    var y := t.nodes[n].(phase := Worked(exc), value := v, cached := there);
    assert LateAt(s, t, n);
    LateSet(s, t, n, x, y);
    LateRan(SetNode(s, n, x), SetNode(t, n, y), ran);
  }

  lemma LateNodeStep(c: Config, s: State, t: State, a: Action)
    requires Valid(c) && Fits(c, s) && Fits(c, t) && Late(s, t) && Enabled(c, s, a) && Enabled(c, t, a)
    requires a.Execute? || a.StartQueued? || a.Announce? || a.Leave?
    ensures Fits(c, Apply(c, s, a)) && Fits(c, Apply(c, t, a)) && Late(Apply(c, s, a), Apply(c, t, a))
  {
    LateNodes(s, t);
    ApplyFits(c, s, a);
    ApplyFits(c, t, a);
  }

  lemma LateListStep(c: Config, s: State, t: State, a: Action)
    requires Valid(c) && Fits(c, s) && Fits(c, t) && Late(s, t) && Enabled(c, s, a) && Enabled(c, t, a)
    requires a.Take? || a.Recheck?
    ensures Fits(c, Apply(c, s, a)) && Fits(c, Apply(c, t, a)) && Late(Apply(c, s, a), Apply(c, t, a))
  {
    LateNodes(s, t);
    ApplyFits(c, s, a);
    ApplyFits(c, t, a);
  }

  lemma LatePath(s: State, t: State, p: nat, x: PathState)
    requires Late(s, t) && p < |s.paths|
    ensures Late(SetPath(s, p, x), SetPath(t, p, x))
  {
    forall m: nat ensures LateAt(SetPath(s, p, x), SetPath(t, p, x), m) {
      assert LateAt(s, t, m);
    }
  }

  lemma LateReleaseStep(c: Config, s: State, t: State, a: Action)
    requires Valid(c) && Fits(c, s) && Fits(c, t) && Late(s, t) && Enabled(c, s, a) && Enabled(c, t, a)
    requires a.Release?
    ensures Fits(c, Apply(c, s, a)) && Fits(c, Apply(c, t, a)) && Late(Apply(c, s, a), Apply(c, t, a))
  {
    var d, w := a.node, a.waiter;
    assert LateAt(s, t, d);
    var l, m := WL.Leave(s.nodes[d].list, w, a.reader), WL.Leave(t.nodes[d].list, w, a.reader);
    LateSet(s, t, d, s.nodes[d].(list := l), t.nodes[d].(list := m));
    var s', t' := SetList(s, d, l), SetList(t, d, m);
    match w
    case Getter(n, i) =>
      assert LateAt(s, t, n);
      LateSet(s', t', n, LetGo(s.nodes[n], i, s.nodes[d].list.exc), LetGo(t.nodes[n], i, t.nodes[d].list.exc));
    case OnPath(p, j) => LatePath(s', t', p, s.paths[p].(pc := Fired(j, s.nodes[d].list.exc)));
  }

  lemma LateAskStep(c: Config, s: State, t: State, a: Action)
    requires Valid(c) && Fits(c, s) && Fits(c, t) && Late(s, t) && Enabled(c, s, a) && Enabled(c, t, a)
    requires a.PathAsk? || a.StartFilter?
    ensures Fits(c, Apply(c, s, a)) && Fits(c, Apply(c, t, a)) && Late(Apply(c, s, a), Apply(c, t, a))
  {
    LateNodes(s, t);
    ApplyFits(c, s, a);
    ApplyFits(c, t, a);
  }

  lemma LatePathStep(c: Config, s: State, t: State, a: Action)
    requires Valid(c) && Fits(c, s) && Fits(c, t) && Late(s, t) && Enabled(c, s, a) && Enabled(c, t, a)
    requires a.PathRequest? || a.PathFire? || a.PathEnd?
    ensures Fits(c, Apply(c, s, a)) && Fits(c, Apply(c, t, a)) && Late(Apply(c, s, a), Apply(c, t, a))
  {
    LateNodes(s, t);
    ApplyFits(c, s, a);
    ApplyFits(c, t, a);
  }

  lemma LateEventStep(c: Config, s: State, t: State, a: Action)
    requires Valid(c) && Fits(c, s) && Fits(c, t) && Late(s, t) && Enabled(c, s, a) && Enabled(c, t, a)
    requires a.LaunchPath? || a.LaunchEnd?
    ensures Fits(c, Apply(c, s, a)) && Fits(c, Apply(c, t, a)) && Late(Apply(c, s, a), Apply(c, t, a))
  {
    LateNodes(s, t);
    ApplyFits(c, s, a);
    ApplyFits(c, t, a);
  }

  lemma LateStep(c: Config, s: State, t: State, a: Action)
    requires Valid(c) && Fits(c, s) && Fits(c, t) && Late(s, t) && Enabled(c, s, a) && Plain(a) && !a.EventFire?
    ensures Enabled(c, t, a)
    ensures Fits(c, Apply(c, s, a)) && Fits(c, Apply(c, t, a)) && Late(Apply(c, s, a), Apply(c, t, a))
  {
    LateGoesOn(c, s, t, a);
    if a.FetchAdd? {
      LateAddStep(c, s, t, a);
    } else if a.FetchStart? || a.FetchEnd? {
      LateFetchStep(c, s, t, a);
    } else if a.Work? {
      LateWorkStep(c, s, t, a);
    } else if a.Execute? || a.StartQueued? || a.Announce? || a.Leave? {
      LateNodeStep(c, s, t, a);
    } else if a.Take? || a.Recheck? {
      LateListStep(c, s, t, a);
    } else if a.Release? {
      LateReleaseStep(c, s, t, a);
    } else if a.PathAsk? || a.StartFilter? {
      LateAskStep(c, s, t, a);
    } else if a.LaunchPath? || a.LaunchEnd? {
      LateEventStep(c, s, t, a);
    } else {
      LatePathStep(c, s, t, a);
    }
  }

  lemma FetchStaysLate(c: Config, t: State, a: Action, n: nat)
    requires Valid(c) && Fits(c, t) && n < |t.nodes| && Enabled(c, t, a) && t.nodes[n].list.taking
    requires a.FetchAdd? || a.FetchStart? || a.Release? || a.PathAsk? || a.StartFilter?
    ensures Fits(c, Apply(c, t, a)) && Apply(c, t, a).nodes[n].list.taking
  {
    ApplyFits(c, t, a);
  }

  /** The late closer of n stays as long as the list is open. */
  lemma StaysLate(c: Config, s: State, t: State, a: Action, n: nat)
    requires Valid(c) && Fits(c, s) && Fits(c, t) && n < |s.nodes|
    requires Enabled(c, s, a) && Enabled(c, t, a) && !s.nodes[n].list.taking && t.nodes[n].list.taking
    ensures Fits(c, Apply(c, t, a)) && Apply(c, t, a).nodes[n].list.taking
  {
    if a.FetchAdd? || a.FetchStart? || a.Release? || a.PathAsk? || a.StartFilter? {
      FetchStaysLate(c, t, a, n);
    } else {
      ApplyFits(c, t, a);
    }
  }

  lemma {:induction false} LateRun(c: Config, s: State, t: State, acts: seq<Action>, n: nat)
    requires Valid(c) && Fits(c, s) && Fits(c, t) && Inv(c, s) && Late(s, t) && n < |s.nodes|
    requires Alone(acts) && Proper(c, s, acts) && OpenUntil(c, s, acts, n) && t.nodes[n].list.taking
    ensures Late(Run(c, s, acts), Run(c, t, acts)) && Run(c, t, acts).nodes[n].list.taking
    decreases |acts|
  {
    if acts != [] {
      assert forall k | 0 <= k < |acts[1..]| :: acts[1..][k] == acts[k + 1];
      LateStep(c, s, t, acts[0]);
      assert ListAt(c, s, n);
      StaysLate(c, s, t, acts[0], n);
      ApplyKeepsInv(c, s, acts[0]);
      LateRun(c, Step(c, s, acts[0]), Step(c, t, acts[0]), acts[1..], n);
    }
  }

  // ---------- the job without its late closers ----------

  /** As if every closer of e's lists had taken and looked. */
  ghost function Hushed(c: Config, s: State, e: nat): (s': State)
    requires Valid(c) && Fits(c, s)
    ensures Fits(c, s')
  {
    s.(nodes := seq(|s.nodes|, n requires 0 <= n < |s.nodes| =>
                    if Owns(c, e, n) then s.nodes[n].(list := s.nodes[n].list.(taking := false, reading := false))
                    else s.nodes[n]))
  }

  lemma HushedLists(c: Config, s: State, e: nat)
    requires Valid(c) && Fits(c, s) && Inv(c, s) && Called(c, s, e)
    ensures Lists(c, Hushed(c, s, e))
  {
    var s' := Hushed(c, s, e);
    forall n: nat ensures ListAt(c, s', n) {
      assert ListAt(c, s, n);
      if n < |s.nodes| && Owns(c, e, n) {
        forall w ensures w !in s.nodes[n].list.waiting {
          NobodyWaitsFor(c, s, e, n, w);
        }
      }
    }
    forall n: nat, w ensures RecheckAt(c, s', n, w) && JoinedAt(c, s', n, w) {
      assert RecheckAt(c, s, n, w) && JoinedAt(c, s, n, w);
    }
  }

  lemma HushedInv(c: Config, s: State, e: nat)
    requires Valid(c) && Fits(c, s) && Inv(c, s) && Called(c, s, e)
    ensures Inv(c, Hushed(c, s, e)) && Called(c, Hushed(c, s, e), e) && NoLateCloser(c, Hushed(c, s, e), e)
  {
    var s' := Hushed(c, s, e);
    HushedLists(c, s, e);
    HiddenKeeps(c, s, s');
    SeatsStay(c, s, s');
    OutcomesStay(c, s, s');
    PathsStay(c, s, s');
    EventsStay(c, s, s');
    NothingStarts(c, s, s');
    NoneStarts(c, s, s');
    BackStays(c, s, s');
  }

  lemma ResetIsLate(c: Config, s: State, e: nat)
    requires Valid(c) && Fits(c, s) && Inv(c, s) && Called(c, s, e)
    ensures Late(ResetEvent(c, Hushed(c, s, e), e), ResetEvent(c, s, e))
  {
    var u, t := ResetEvent(c, Hushed(c, s, e), e), ResetEvent(c, s, e);
    forall n: nat ensures LateAt(u, t, n) {
      assert ListAt(c, s, n);
    }
    assert t == u.(nodes := t.nodes);
  }

  // ---------- the next event that shows it ----------

  /** All modules of e keep the event, the others work as before. */
  ghost function Keeping(c: Config, e: nat): (nat, seq<int>) -> Outcome
    requires Valid(c)
  {
    (n: nat, inputs: seq<int>) => if Owns(c, e, n) then Put(1) else c.g.work(n, inputs)
  }

  lemma KeepingIsNext(c: Config, e: nat)
    requires Valid(c)
    ensures OnlyFor(c, e, Keeping(c, e))
    ensures Valid(Reworked(c, Keeping(c, e))) && AllKeep(Reworked(c, Keeping(c, e)), e)
  {
    StillValid(c, Keeping(c, e));
    forall n ensures Owns(Reworked(c, Keeping(c, e)), e, n) <==> Owns(c, e, n) {
      SameOwns(c, Keeping(c, e), e, n);
    }
  }

  /** In the next event, with this work and after these steps, w can be let go although n, for
      which it waits, has not worked. */
  ghost predicate LetsGoEarly(c: Config, s: State, e: nat, work: (nat, seq<int>) -> Outcome, acts: seq<Action>, n: nat,
                              w: Waiter)
    requires Valid(c) && Fits(c, s)
  {
    && Prepared(c, s, e, work) && Valid(Reworked(c, work)) && n < |s.nodes|
    && var t := Run(Reworked(c, work), ResetEvent(c, s, e), acts);
    && !t.nodes[n].list.closed && Enabled(Reworked(c, work), t, Release(n, w, false))
  }

  /** The late closer takes the head of an open list, and somebody there can be let go. */
  lemma TakesEarly(c: Config, s: State, t: State, n: nat) returns (w: Waiter)
    requires Valid(c) && Fits(c, s) && Fits(c, t) && Inv(c, s) && Late(s, t) && n < |s.nodes|
    requires !s.nodes[n].list.closed && s.nodes[n].list.waiting != {} && t.nodes[n].list.taking
    ensures var t' := Step(c, t, Take(n)); !t'.nodes[n].list.closed && Enabled(c, t', Release(n, w, false))
  {
    LateNodes(s, t);
    w :| w in s.nodes[n].list.waiting;
    assert WaiterAt(c, s, n, w);
    if w.Getter? {
      assert NodeAt(c, s, w.node);
    }
  }

  lemma StartsInRun(c: Config, s: State, e: nat, acts: seq<Action>, n: nat) returns (k: nat)
    requires Valid(c) && Fits(c, s) && Inv(c, s) && AllKeep(c, e) && !s.fatal && e < |s.events|
    requires Alone(acts) && Proper(c, s, acts) && Run(c, s, acts).events[e].pc.Scheduled?
    requires n < |s.nodes| && Owns(c, e, n) && s.nodes[n].phase.Idle?
    ensures k <= |acts| && Alone(acts[..k]) && Proper(c, s, acts[..k]) && OpenUntil(c, s, acts[..k], n)
    ensures var t := Run(c, s, acts[..k]); !t.nodes[n].phase.Idle? && !t.nodes[n].list.closed
  {
    RunKeepsInv(c, s, acts);
    AloneKeepsFatal(c, s, acts);
    AllHaveWorked(c, Run(c, s, acts), e, n);
    assert NodeAt(c, s, n);
    k := PassesStart(c, s, acts, n);
  }

  /** From the job without late closers to the one with that of n. */
  lemma BitesFrom(c: Config, s: State, t: State, e: nat, n: nat) returns (acts: seq<Action>, w: Waiter)
    requires Valid(c) && Fits(c, s) && Fits(c, t) && Inv(c, s) && Late(s, t) && AllKeep(c, e) && !s.fatal
    requires e < |s.events| && !s.events[e].pc.Finished?
    requires n < |s.nodes| && Owns(c, e, n) && s.nodes[n].phase.Idle? && t.nodes[n].list.taking
    ensures var t' := Run(c, t, acts); !t'.nodes[n].list.closed && Enabled(c, t', Release(n, w, false))
  {
    var all := RunOfEvent(c, s, e);
    var k := StartsInRun(c, s, e, all, n);
    acts := all[..k];
    RunKeepsInv(c, s, acts);
    StartedIsWaitedFor(c, Run(c, s, acts), n);
    LateRun(c, s, t, acts, n);
    w := TakesEarly(c, Run(c, s, acts), Run(c, t, acts), n);
    RunOneMore(c, t, acts, Take(n));
    acts := acts + [Take(n)];
  }

  /** In a job that has met no fatal error: when a stream is reset although the thread that
      closed the list of n has not yet taken its head, there is a next event in which it does
      so too early. */
  lemma LateTakeBites(c: Config, s: State, e: nat, n: nat)
    requires Valid(c) && Fits(c, s) && Inv(c, s) && Called(c, s, e) && NoStraggler(c, s, e) && !s.fatal
    requires n < |s.nodes| && Owns(c, e, n) && s.nodes[n].list.taking
    ensures exists work, acts, w :: LetsGoEarly(c, s, e, work, acts, n, w)
  {
    var work := Keeping(c, e);
    KeepingIsNext(c, e);
    HushedInv(c, s, e);
    var u := ResetEvent(c, Hushed(c, s, e), e);
    ResetKeepsInv(c, Hushed(c, s, e), e, work);
    ResetIsLate(c, s, e);
    SameOwns(c, work, e, n);
    var acts, w := BitesFrom(Reworked(c, work), u, ResetEvent(c, s, e), e, n);
    assert LetsGoEarly(c, s, e, work, acts, n, w);
  }
}
