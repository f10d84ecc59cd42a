// The asynchronous run comes to an end: it never deadlocks, and every run is finite.

module SchedulerProgress {
  import opened Basics
  import opened ModuleGraphs
  import opened Schedulers
  import opened SchedulerPrefetch
  import opened SchedulerQueues
  import opened SchedulerValues
  import opened SchedulerPaths
  import opened SchedulerDemand
  import opened SchedulerStarters
  import opened SchedulerLists
  import WL = WaitLists
  import WQ = WorkQueues

  // ---------- the invariant ----------

  ghost predicate Inv(c: Config, s: State)
    requires Valid(c) && Fits(c, s)
  {
    && Prefetch(c, s) && Queues(c, s) && Values(c, s) && Paths(c, s) && Events(c, s)
    && Demand(c, s) && Starters(c, s) && Lists(c, s)
  }

  lemma InitInv(c: Config)
    requires Valid(c)
    ensures Inv(c, Init(c))
  {
    InitPrefetch(c);
    InitQueues(c);
    InitValues(c);
    InitPaths(c);
    InitDemand(c);
    InitStarters(c);
    InitLists(c);
  }

  /** What the invariant knows of the step that is about to be taken. */
  lemma SoundStep(c: Config, s: State, a: Action)
    requires Valid(c) && Fits(c, s) && Inv(c, s) && Enabled(c, s, a)
    ensures SchedulerPrefetch.Sound(c, s, a) && (a.Announce? ==> !s.nodes[a.node].list.closed)
    ensures a.LaunchPath? ==> s.paths[c.pathsOf[a.event][s.events[a.event].pc.at]].pc.Dormant?
  {
    if a.Release? {
      TakenIsClosed(c, s, a.node, a.waiter);
      if a.waiter.Getter? { LetGoSeat(c, s, a.waiter.node); }
    } else if a.StartQueued? {
      HeadIsQueued(c, s, a.queue);
    } else if a.Announce? {
      assert NodeAt(c, s, a.node);
    } else if a.LaunchPath? {
      NextDormant(c, s, a.event);
    }
  }

  lemma ApplyKeepsInv(c: Config, s: State, a: Action)
    requires Valid(c) && Fits(c, s) && Inv(c, s) && Enabled(c, s, a)
    ensures Fits(c, Apply(c, s, a)) && Inv(c, Apply(c, s, a))
  {
    SoundStep(c, s, a);
    StepKeepsPrefetch(c, s, a);
    StepKeepsQueues(c, s, a);
    StepKeepsValues(c, s, a);
    StepKeepsPaths(c, s, a);
    StepKeepsEvents(c, s, a);
    StepKeepsDemand(c, s, a);
    StepKeepsStarters(c, s, a);
    StepKeepsLists(c, s, a);
  }

  lemma {:induction false} RunKeepsInv(c: Config, s: State, acts: seq<Action>)
    requires Valid(c) && Fits(c, s) && Inv(c, s)
    ensures Inv(c, Run(c, s, acts))
    decreases |acts|
  {
    if acts != [] {
      if Enabled(c, s, acts[0]) {
        ApplyKeepsInv(c, s, acts[0]);
      }
      RunKeepsInv(c, Step(c, s, acts[0]), acts[1..]);
    }
  }

  // ---------- no deadlock ----------

  /** Nobody waits in the list or is inside it. */
  predicate Quiet(l: WL.WaitList<Waiter>) {
    l.waiting == {} && l.rechecks == {} && !l.taking && !l.reading
  }

  /** Everything requested has been done and everybody who waited has been let go. */
  ghost predicate Complete(c: Config, s: State)
    requires Valid(c) && Fits(c, s)
  {
    && (forall e | 0 <= e < |s.events| :: s.events[e].pc.Finished?)
    && (forall p | 0 <= p < |s.paths| :: s.paths[p].pc.Done?)
    && (forall n | 0 <= n < |s.nodes| ::
          (s.nodes[n].phase.Idle? || s.nodes[n].phase.Ended?) && Quiet(s.nodes[n].list))
    && (forall q | 0 <= q < |s.queues| :: s.queues[q].running == None && s.queues[q].waiting == [])
    && s.starts == {}
  }

  /** What the steps below do without: that the closer of a list lets go itself. */
  predicate Plain(a: Action) {
    !a.Look? && (a.Release? ==> !a.reader)
  }

  /** Of no event as a whole. */
  predicate Within(a: Action) {
    !a.EventFire? && !a.LaunchPath? && !a.LaunchEnd?
  }

  /** A serial queue that holds or runs anything moves on: what is inside a queue waits for
      nothing. */
  lemma QueueGoesOn(c: Config, s: State, q: nat) returns (a: Action)
    requires Valid(c) && Fits(c, s) && Queues(c, s) && q < |s.queues|
    requires s.queues[q].running.Some? || s.queues[q].waiting != []
    ensures Enabled(c, s, a) && Plain(a) && Within(a)
  {
    if s.queues[q].running.Some? {
      var m := s.queues[q].running.value;
      assert QueueAt(c, s, q) && SeatAt(c, s, m);
      a := if s.nodes[m].phase.Running? then Work(m)
           else if s.nodes[m].phase.Worked? then Announce(m)
           else Action.Leave(q);
    } else {
      HeadIsQueued(c, s, q);
      a := StartQueued(q);
    }
  }

  /** In a closed list somebody goes on: the closer or an adder that has still to take what is
      at the head, or whoever took it. */
  lemma ClosedListGoesOn(c: Config, s: State, d: nat, w: Waiter) returns (a: Action)
    requires Valid(c) && Fits(c, s) && Prefetch(c, s) && Lists(c, s)
    requires d < |s.nodes| && s.nodes[d].list.closed && w in s.nodes[d].list.waiting
    ensures Enabled(c, s, a) && Plain(a) && Within(a)
  {
    assert WaiterAt(c, s, d, w) && ListAt(c, s, d);
    var l := s.nodes[d].list;
    if w !in l.head {
      if w.Getter? { assert NodeAt(c, s, w.node); }
      a := Release(d, w, false);
    } else if l.taking {
      a := Take(d);
    } else {
      var b :| b in l.rechecks;
      a := Recheck(d, b);
    }
  }

  lemma FetchGoesOn(c: Config, s: State, n: nat) returns (a: Action)
    requires Valid(c) && Fits(c, s) && Prefetch(c, s) && n < |s.nodes| && s.nodes[n].phase.Fetch?
    ensures Enabled(c, s, a) && Plain(a) && Within(a)
  {
    assert NodeAt(c, s, n);
    var i := s.nodes[n].phase.at;
    if !s.nodes[n].phase.added {
      a := if i < |c.g.deps[n]| then FetchAdd(n, false) else FetchEnd(n);
    } else if Getter(n, i) in s.nodes[c.g.deps[n][i]].list.rechecks {
      a := Recheck(c.g.deps[n][i], Getter(n, i));
    } else {
      a := FetchStart(n);
    }
  }

  lemma StarterGoesOn(c: Config, s: State, t: Starter) returns (a: Action)
    requires Valid(c) && Fits(c, s) && Demand(c, s) && t in s.starts
    ensures Enabled(c, s, a) && Plain(a) && Within(a)
  {
    assert StarterAt(c, s, t);
    var f := c.filters[t.path][t.at];
    a := if OnPath(t.path, t.at) in s.nodes[f].list.rechecks then Recheck(f, OnPath(t.path, t.at)) else StartFilter(t);
  }

  /** A module that has been started and has not ended moves on, or something it gets does, or
      something in its queue. Getters wait along falling rank. */
  lemma {:induction false} NodeGoesOn(c: Config, s: State, n: nat) returns (a: Action)
    requires Valid(c) && Fits(c, s) && Prefetch(c, s) && Queues(c, s) && Lists(c, s)
    requires n < |s.nodes| && !s.nodes[n].phase.Idle? && !s.nodes[n].phase.Ended?
    ensures Enabled(c, s, a) && Plain(a) && Within(a)
    decreases c.g.rank[n]
  {
    assert NodeAt(c, s, n) && SeatAt(c, s, n);
    match s.nodes[n].phase
    case Fetch(_, _) => a := FetchGoesOn(c, s, n);
    case Prefetched => a := GetterGoesOn(c, s, n);
    case Ready => a := Execute(n);
    case Queued => a := QueueGoesOn(c, s, c.queue[n].value);
    case Running => a := Work(n);
    case Worked(_) => a := Announce(n);
  }

  lemma {:induction false} GetterGoesOn(c: Config, s: State, n: nat) returns (a: Action)
    requires Valid(c) && Fits(c, s) && Prefetch(c, s) && Queues(c, s) && Lists(c, s)
    requires n < |s.nodes| && s.nodes[n].phase.Prefetched?
    ensures Enabled(c, s, a) && Plain(a) && Within(a)
    decreases c.g.rank[n], 0
  {
    assert NodeAt(c, s, n);
    var i :| i in s.nodes[n].out;
    var d := c.g.deps[n][i];
    assert GetterAt(c, s, n, i) && NodeAt(c, s, d);
    if s.nodes[d].list.closed {
      a := ClosedListGoesOn(c, s, d, Getter(n, i));
    } else {
      a := NodeGoesOn(c, s, d);
    }
  }

  /** Whoever waits in a list: it, the list's node, or the node's starter moves on. */
  lemma WaiterGoesOn(c: Config, s: State, d: nat, w: Waiter) returns (a: Action)
    requires Valid(c) && Fits(c, s) && Prefetch(c, s) && Queues(c, s) && Demand(c, s) && Lists(c, s)
    requires d < |s.nodes| && w in s.nodes[d].list.waiting
    ensures Enabled(c, s, a) && Plain(a) && Within(a)
  {
    assert WaiterAt(c, s, d, w) && NodeAt(c, s, d);
    if s.nodes[d].list.closed {
      a := ClosedListGoesOn(c, s, d, w);
    } else if !s.nodes[d].phase.Idle? {
      a := NodeGoesOn(c, s, d);
    } else if w.Getter? {
      assert NodeAt(c, s, w.node) && GetterAt(c, s, w.node, w.index);
      a := FetchGoesOn(c, s, w.node);
    } else {
      assert PathAt(c, s, w.path);
      a := StarterGoesOn(c, s, Starter(w.path, s.paths[w.path].pc.at));
    }
  }

  lemma PathGoesOn(c: Config, s: State, p: nat) returns (a: Action)
    requires Valid(c) && Fits(c, s) && Inv(c, s)
    requires p < |s.paths| && !s.paths[p].pc.Dormant? && !s.paths[p].pc.Done?
    ensures Enabled(c, s, a) && Plain(a) && Within(a)
  {
    assert PathAt(c, s, p);
    StoppingCounted(c, s, p);
    match s.paths[p].pc
    case Request(_) => a := PathRequest(p);
    case Ask(_) => a := PathAsk(p, false);
    case Asked(i) => a := WaiterGoesOn(c, s, c.filters[p][i], OnPath(p, i));
    case Fired(_, _) => a := PathFire(p);
    case Stopping(_) => a := PathEnd(p);
  }

  /** The launching thread itself waits for nothing. */
  lemma LauncherGoesOn(c: Config, s: State, e: nat) returns (a: Action)
    requires Valid(c) && Fits(c, s) && Prefetch(c, s) && Demand(c, s)
    requires e < |s.events| && s.events[e].pc.Launch? && !LauncherBack(c, s, e)
    ensures Enabled(c, s, a) && Plain(a) && Within(a)
  {
    var p := c.pathsOf[e][s.events[e].pc.at - 1];
    assert PathAt(c, s, p);
    if s.paths[p].pc == Request(0) {
      a := PathRequest(p);
    } else if s.paths[p].pc == Ask(0) {
      a := PathAsk(p, false);
    } else {
      a := StarterGoesOn(c, s, Starter(p, 0));
    }
  }

  /** Until its callback an event goes on by itself: none has to call back first. */
  lemma EventGoesOn(c: Config, s: State, e: nat) returns (a: Action)
    requires Valid(c) && Fits(c, s) && Inv(c, s)
    requires e < |s.events| && !s.events[e].pc.Finished?
    ensures Enabled(c, s, a) && Plain(a) && (Within(a) || a.event == e) && (a.EventFire? ==> s.events[e].pc.Scheduled?)
  {
    assert CountAt(c, s, e);
    match s.events[e].pc
    case Launch(k) =>
      if LauncherBack(c, s, e) {
        a := if k < |c.pathsOf[e]| then LaunchPath(e) else LaunchEnd(e);
      } else {
        a := LauncherGoesOn(c, s, e);
      }
    case Scheduled => a := EventFire(e);
    case Launched =>
      var p :| p in s.events[e].live;
      assert OwnAt(c, s, e, p);
      assert MemberAt(c, s, e, Place(c, p));
      a := PathGoesOn(c, s, p);
  }

  lemma SomethingGoesOn(c: Config, s: State) returns (a: Action)
    requires Valid(c) && Fits(c, s) && Inv(c, s) && !Complete(c, s)
    ensures Enabled(c, s, a)
  {
    if e: nat :| e < |s.events| && !s.events[e].pc.Finished? {
      a := EventGoesOn(c, s, e);
    } else if p: nat :| p < |s.paths| && !s.paths[p].pc.Done? {
      assert MemberAt(c, s, c.eventOf[p], Place(c, p)) && CountAt(c, s, c.eventOf[p]);
      a := PathGoesOn(c, s, p);
    } else if n: nat :| n < |s.nodes| && !s.nodes[n].phase.Idle? && !s.nodes[n].phase.Ended? {
      a := NodeGoesOn(c, s, n);
    } else if n: nat :| n < |s.nodes| && !Quiet(s.nodes[n].list) {
      a := ListGoesOn(c, s, n);
    } else if q: nat :| q < |s.queues| && (s.queues[q].running != None || s.queues[q].waiting != []) {
      a := QueueGoesOn(c, s, q);
    } else {
      var t :| t in s.starts;
      a := StarterGoesOn(c, s, t);
    }
  }

  lemma ListGoesOn(c: Config, s: State, n: nat) returns (a: Action)
    requires Valid(c) && Fits(c, s) && Inv(c, s) && n < |s.nodes| && !Quiet(s.nodes[n].list)
    ensures Enabled(c, s, a)
  {
    var l := s.nodes[n].list;
    if l.taking {
      a := Take(n);
    } else if l.reading {
      a := Look(n);
    } else if w :| w in l.rechecks {
      a := Recheck(n, w);
    } else {
      var w :| w in l.waiting;
      a := WaiterGoesOn(c, s, n, w);
    }
  }

  /** No deadlock: no step is left exactly when everything that was requested has been done
      and everybody let go. With shared serial queues and any number of events in flight. */
  lemma NoDeadlock(c: Config, s: State)
    requires Valid(c) && Fits(c, s) && Inv(c, s)
    ensures (forall a :: !Enabled(c, s, a)) <==> Complete(c, s)
  {
    if !Complete(c, s) {
      var a := SomethingGoesOn(c, s);
      assert Enabled(c, s, a);
    }
  }

  // ---------- every run ends ----------

  function One(b: bool): nat {
    if b then 1 else 0
  }

  function PhaseWeight(p: Phase, d: nat): nat {
    match p
    case Idle => 5 * d + 8
    case Fetch(i, added) => if i > d then 7 else if added && i < d then 5 * (d - i) + 3 else 5 * (d - i) + 7
    case Prefetched => 6
    case Ready => 6
    case Queued => 5
    case Running => 3
    case Worked(_) => 2
    case Ended => 0
  }

  function ListWeight(l: WL.WaitList<Waiter>): nat {
    2 * |l.waiting| + |l.rechecks| + One(l.taking) + One(l.reading)
  }

  ghost function NodeWeight(c: Config, n: nat, x: NodeState): nat
    requires n < |c.g.deps|
  {
    PhaseWeight(x.phase, |c.g.deps[n]|) + ListWeight(x.list)
  }

  function PathWeight(f: nat, pc: PathPc): nat {
    match pc
    case Dormant => 8 * f + 4
    case Request(i) => if i < f then 8 * (f - i) + 3 else 3
    case Ask(i) => if i < f then 8 * (f - i) + 2 else 3
    case Asked(i) => if i < f then 8 * (f - i) - 3 else 3
    case Fired(i, _) => if i < f then 8 * (f - i) - 3 else 3
    case Stopping(_) => 1
    case Done(_) => 0
  }

  function EventWeight(l: nat, pc: EventPc): nat {
    match pc
    case Launch(k) => if k < l then l - k + 3 else 3
    case Launched => 2
    case Scheduled => 1
    case Finished => 0
  }

  ghost function NodeWeights(c: Config, s: State): seq<nat>
    requires Valid(c) && Fits(c, s)
  {
    seq(|s.nodes|, n requires 0 <= n < |s.nodes| => NodeWeight(c, n, s.nodes[n]))
  }

  function PathWeights(c: Config, s: State): seq<nat>
    requires |s.paths| == |c.filters|
  {
    seq(|s.paths|, p requires 0 <= p < |s.paths| => PathWeight(|c.filters[p]|, s.paths[p].pc))
  }

  function QueueWeights(s: State): seq<nat> {
    seq(|s.queues|, q requires 0 <= q < |s.queues| => One(s.queues[q].running.Some?))
  }

  function EventWeights(c: Config, s: State): seq<nat>
    requires |s.events| == |c.pathsOf|
  {
    seq(|s.events|, e requires 0 <= e < |s.events| => EventWeight(|c.pathsOf[e]|, s.events[e].pc))
  }

  /** How many steps a run can still take. */
  ghost function Measure(c: Config, s: State): nat
    requires Valid(c) && Fits(c, s)
  {
    Sum(NodeWeights(c, s)) + Sum(PathWeights(c, s)) + Sum(EventWeights(c, s)) + Sum(QueueWeights(s)) + |s.starts|
  }

  lemma NodeChanges(c: Config, s: State, n: nat, x: NodeState)
    requires Valid(c) && Fits(c, s) && n < |s.nodes|
    ensures Fits(c, SetNode(s, n, x))
    ensures Measure(c, SetNode(s, n, x)) == Measure(c, s) - NodeWeight(c, n, s.nodes[n]) + NodeWeight(c, n, x)
  {
    SumUpdate(NodeWeights(c, s), n, NodeWeight(c, n, x));
    assert NodeWeights(c, SetNode(s, n, x)) == NodeWeights(c, s)[n := NodeWeight(c, n, x)];
  }

  lemma PathChanges(c: Config, s: State, p: nat, x: PathState)
    requires Valid(c) && Fits(c, s) && p < |s.paths|
    ensures Fits(c, SetPath(s, p, x))
    ensures Measure(c, SetPath(s, p, x))
         == Measure(c, s) - PathWeight(|c.filters[p]|, s.paths[p].pc) + PathWeight(|c.filters[p]|, x.pc)
  {
    SumUpdate(PathWeights(c, s), p, PathWeight(|c.filters[p]|, x.pc));
    assert PathWeights(c, SetPath(s, p, x)) == PathWeights(c, s)[p := PathWeight(|c.filters[p]|, x.pc)];
  }

  lemma EventChanges(c: Config, s: State, e: nat, x: EventState)
    requires Valid(c) && Fits(c, s) && e < |s.events|
    ensures Fits(c, SetEvent(s, e, x))
    ensures Measure(c, SetEvent(s, e, x))
         == Measure(c, s) - EventWeight(|c.pathsOf[e]|, s.events[e].pc) + EventWeight(|c.pathsOf[e]|, x.pc)
  {
    SumUpdate(EventWeights(c, s), e, EventWeight(|c.pathsOf[e]|, x.pc));
    assert EventWeights(c, SetEvent(s, e, x)) == EventWeights(c, s)[e := EventWeight(|c.pathsOf[e]|, x.pc)];
  }

  lemma QueueChanges(c: Config, s: State, q: nat, x: WQ.WorkQueue<nat>)
    requires Valid(c) && Fits(c, s) && q < |s.queues|
    ensures var s' := s.(queues := s.queues[q := x]);
      && Fits(c, s')
      && Measure(c, s') == Measure(c, s) - One(s.queues[q].running.Some?) + One(x.running.Some?)
  {
    var s' := s.(queues := s.queues[q := x]);
    SumUpdate(QueueWeights(s), q, One(x.running.Some?));
    assert QueueWeights(s') == QueueWeights(s)[q := One(x.running.Some?)];
    assert NodeWeights(c, s') == NodeWeights(c, s);
    assert PathWeights(c, s') == PathWeights(c, s);
    assert EventWeights(c, s') == EventWeights(c, s);
  }

  /** What waits in a queue, the flag and the history weigh nothing. */
  lemma ElsewhereWeighsNothing(c: Config, s: State, s': State)
    requires Valid(c) && Fits(c, s) && Fits(c, s')
    requires s'.nodes == s.nodes && s'.paths == s.paths && s'.events == s.events && s'.starts == s.starts
    requires QueueWeights(s') == QueueWeights(s)
    ensures Measure(c, s') == Measure(c, s)
  {
    assert NodeWeights(c, s') == NodeWeights(c, s);
    assert PathWeights(c, s') == PathWeights(c, s);
    assert EventWeights(c, s') == EventWeights(c, s);
  }

  lemma JoinWeighs(l: WL.WaitList<Waiter>, w: Waiter)
    ensures ListWeight(WL.Join(l, w)) <= ListWeight(l) + 3
  {
    if w in l.waiting { assert l.waiting + {w} == l.waiting; }
    if w in l.rechecks { assert l.rechecks + {w} == l.rechecks; }
  }

  lemma LeaveWeighs(l: WL.WaitList<Waiter>, w: Waiter, reader: bool)
    requires w in l.waiting
    ensures ListWeight(WL.Leave(l, w, reader)) < ListWeight(l)
  {
  }

  /** A list goes on by itself. */
  lemma HiddenFalls(c: Config, s: State, a: Action)
    requires Valid(c) && Fits(c, s) && Enabled(c, s, a) && (a.Take? || a.Recheck? || a.Look?)
    ensures Fits(c, Apply(c, s, a)) && Measure(c, Apply(c, s, a)) < Measure(c, s)
  {
    ApplyFits(c, s, a);
    NodeChanges(c, s, a.node, Apply(c, s, a).nodes[a.node]);
  }

  lemma FetchAddFalls(c: Config, s: State, n: nat, late: bool)
    requires Valid(c) && Fits(c, s) && Prefetch(c, s) && Enabled(c, s, FetchAdd(n, late))
    requires Fits(c, Apply(c, s, FetchAdd(n, late)))
    ensures Measure(c, Apply(c, s, FetchAdd(n, late))) < Measure(c, s)
  {
    var i := s.nodes[n].phase.at;
    var d := c.g.deps[n][i];
    var x, y := s.nodes[n], s.nodes[d];
    assert NodeAt(c, s, n) && d != n;
    if y.list.closed && !late {
      NodeChanges(c, s, n, x.(phase := Fetch(i, true), failed := FirstOf(x.failed, y.list.exc)));
    } else {
      var y' := y.(list := WL.Join(y.list, Getter(n, i)));
      JoinWeighs(y.list, Getter(n, i));
      NodeChanges(c, s, d, y');
      NodeChanges(c, SetNode(s, d, y'), n, x.(phase := Fetch(i, true), refs := x.refs + 1, out := x.out + {i}));
    }
  }

  lemma StartedWeighs(c: Config, n: nat, x: NodeState)
    requires n < |c.g.deps|
    ensures NodeWeight(c, n, Started(x)) <= NodeWeight(c, n, x)
  {
  }

  lemma NextGetterWeighs(c: Config, n: nat, x: NodeState, i: nat)
    requires n < |c.g.deps| && x.phase == Fetch(i, true) && i < |c.g.deps[n]|
    ensures NodeWeight(c, n, x.(phase := Fetch(i + 1, false))) < NodeWeight(c, n, x)
  {
  }

  lemma FetchStartFalls(c: Config, s: State, n: nat)
    requires Valid(c) && Fits(c, s) && Prefetch(c, s) && Enabled(c, s, FetchStart(n))
    requires Fits(c, Apply(c, s, FetchStart(n)))
    ensures Measure(c, Apply(c, s, FetchStart(n))) < Measure(c, s)
  {
    var i := s.nodes[n].phase.at;
    var d := c.g.deps[n][i];
    assert d != n;
    StartedWeighs(c, d, s.nodes[d]);
    NextGetterWeighs(c, n, s.nodes[n], i);
    NodeChanges(c, s, d, Started(s.nodes[d]));
    NodeChanges(c, SetNode(s, d, Started(s.nodes[d])), n, s.nodes[n].(phase := Fetch(i + 1, false)));
  }

  lemma MoveFalls(c: Config, s: State, s': State, n: nat)
    requires Valid(c) && Fits(c, s) && Fits(c, s') && n < |s.nodes|
    requires s'.nodes == s.nodes[n := s'.nodes[n]] && s'.paths == s.paths && s'.events == s.events
    requires s'.starts == s.starts && QueueWeights(s') == QueueWeights(s)
    requires NodeWeight(c, n, s'.nodes[n]) < NodeWeight(c, n, s.nodes[n])
    ensures Measure(c, s') < Measure(c, s)
  {
    NodeChanges(c, s, n, s'.nodes[n]);
    ElsewhereWeighsNothing(c, SetNode(s, n, s'.nodes[n]), s');
  }

  /** Whoever is let go does not weigh more. */
  lemma LetGoWeighs(c: Config, n: nat, x: NodeState, i: nat, exc: Option<Exc>)
    requires n < |c.g.deps| && x.refs > 0 && (x.refs == 1 ==> x.phase.Prefetched?)
    ensures NodeWeight(c, n, LetGo(x, i, exc)) <= NodeWeight(c, n, x)
  {
  }

  lemma ReleaseFalls(c: Config, s: State, d: nat, w: Waiter, reader: bool)
    requires Valid(c) && Fits(c, s) && Prefetch(c, s) && Enabled(c, s, Release(d, w, reader))
    requires Fits(c, DoRelease(s, d, w, reader))
    ensures Measure(c, DoRelease(s, d, w, reader)) < Measure(c, s)
  {
    var y := s.nodes[d];
    var y' := y.(list := WL.Leave(y.list, w, reader));
    LeaveWeighs(y.list, w, reader);
    NodeChanges(c, s, d, y');
    match w
    case Getter(n, i) =>
      assert WaiterAt(c, s, d, w) && NodeAt(c, s, n);
      LetGoWeighs(c, n, s.nodes[n], i, y.list.exc);
      NodeChanges(c, SetNode(s, d, y'), n, LetGo(s.nodes[n], i, y.list.exc));
    case OnPath(p, j) =>
      PathChanges(c, SetNode(s, d, y'), p, s.paths[p].(pc := Fired(j, y.list.exc)));
  }

  lemma StartFilterFalls(c: Config, s: State, t: Starter)
    requires Valid(c) && Fits(c, s) && Enabled(c, s, StartFilter(t))
    requires Fits(c, Apply(c, s, StartFilter(t)))
    ensures Measure(c, Apply(c, s, StartFilter(t))) < Measure(c, s)
  {
    var f := c.filters[t.path][t.at];
    var started := SetNode(s, f, Started(s.nodes[f]));
    NodeChanges(c, s, f, Started(s.nodes[f]));
    var s' := DoStartFilter(s, f, t);
    assert NodeWeights(c, s') == NodeWeights(c, started);
    assert PathWeights(c, s') == PathWeights(c, started);
    assert EventWeights(c, s') == EventWeights(c, started);
    assert QueueWeights(s') == QueueWeights(started);
    assert s.starts == s'.starts + {t};
  }

  lemma StarterWeighsOne(c: Config, s: State, t: Starter)
    requires Valid(c) && Fits(c, s)
    ensures Measure(c, s.(starts := s.starts + {t})) <= Measure(c, s) + 1
  {
    var s' := s.(starts := s.starts + {t});
    assert NodeWeights(c, s') == NodeWeights(c, s);
    assert PathWeights(c, s') == PathWeights(c, s);
    assert EventWeights(c, s') == EventWeights(c, s);
    assert QueueWeights(s') == QueueWeights(s);
  }

  lemma PathPassFalls(c: Config, s: State, p: nat, f: nat, i: nat)
    requires Valid(c) && Fits(c, s) && p < |s.paths| && s.paths[p].pc == Ask(i)
    requires i < |c.filters[p]| && f == c.filters[p][i] && s.nodes[f].list.closed
    ensures Fits(c, DoPathAsk(s, p, f, i, false)) && Measure(c, DoPathAsk(s, p, f, i, false)) < Measure(c, s)
  {
    StarterWeighsOne(c, s, Starter(p, i));
    PathChanges(c, s.(starts := s.starts + {Starter(p, i)}), p, PathState(Fired(i, s.nodes[f].list.exc), i + 1));
  }

  lemma PathJoinFalls(c: Config, s: State, p: nat, f: nat, i: nat)
    requires Valid(c) && Fits(c, s) && p < |s.paths| && s.paths[p].pc == Ask(i)
    requires i < |c.filters[p]| && f == c.filters[p][i]
    ensures Fits(c, DoPathAsk(s, p, f, i, true)) && Measure(c, DoPathAsk(s, p, f, i, true)) < Measure(c, s)
  {
    var t := s.(starts := s.starts + {Starter(p, i)});
    var y := s.nodes[f].(list := WL.Join(s.nodes[f].list, OnPath(p, i)));
    JoinWeighs(s.nodes[f].list, OnPath(p, i));
    StarterWeighsOne(c, s, Starter(p, i));
    NodeChanges(c, t, f, y);
    PathChanges(c, SetNode(t, f, y), p, PathState(Asked(i), i + 1));
  }

  lemma PathAskFalls(c: Config, s: State, p: nat, late: bool)
    requires Valid(c) && Fits(c, s) && Prefetch(c, s) && Enabled(c, s, PathAsk(p, late))
    requires Fits(c, Apply(c, s, PathAsk(p, late)))
    ensures Measure(c, Apply(c, s, PathAsk(p, late))) < Measure(c, s)
  {
    var i := s.paths[p].pc.at;
    var f := c.filters[p][i];
    if s.nodes[f].list.closed && !late {
      PathPassFalls(c, s, p, f, i);
    } else {
      PathJoinFalls(c, s, p, f, i);
    }
  }

  lemma LaunchFalls(c: Config, s: State, e: nat)
    requires Valid(c) && Fits(c, s) && Enabled(c, s, LaunchPath(e))
    requires s.paths[c.pathsOf[e][s.events[e].pc.at]].pc.Dormant? && Fits(c, DoLaunchPath(c, s, e))
    ensures Measure(c, DoLaunchPath(c, s, e)) < Measure(c, s)
  {
    var x := s.events[e];
    var p := c.pathsOf[e][x.pc.at];
    var y := s.paths[p].(pc := if c.filters[p] == [] then Stopping(None) else Request(0));
    var z := x.(pc := Launch(x.pc.at + 1), refs := x.refs + 1, live := x.live + {p});
    PathChanges(c, s, p, y);
    EventChanges(c, SetPath(s, p, y), e, z);
    assert PathWeight(|c.filters[p]|, y.pc) < PathWeight(|c.filters[p]|, Dormant);
    assert DoLaunchPath(c, s, e) == SetEvent(SetPath(s, p, y), e, z);
  }

  lemma PathEndFalls(c: Config, s: State, p: nat)
    requires Valid(c) && Fits(c, s) && Events(c, s) && Enabled(c, s, PathEnd(p))
    requires Fits(c, Apply(c, s, PathEnd(p)))
    ensures Measure(c, Apply(c, s, PathEnd(p))) < Measure(c, s)
  {
    var e := c.eventOf[p];
    StoppingCounted(c, s, p);
    var y := s.paths[p].(pc := Done(s.paths[p].pc.exc));
    PathChanges(c, s, p, y);
    EventChanges(c, SetPath(s, p, y), e, DoPathEnd(s, p, e).events[e]);
    assert DoPathEnd(s, p, e) == SetEvent(SetPath(s, p, y), e, DoPathEnd(s, p, e).events[e]);
  }

  lemma PathMoveFalls(c: Config, s: State, s': State, p: nat)
    requires Valid(c) && Fits(c, s) && Fits(c, s') && p < |s.paths| && s' == SetPath(s, p, s'.paths[p])
    requires PathWeight(|c.filters[p]|, s'.paths[p].pc) < PathWeight(|c.filters[p]|, s.paths[p].pc)
    ensures Measure(c, s') < Measure(c, s)
  {
    PathChanges(c, s, p, s'.paths[p]);
  }

  lemma EventMoveFalls(c: Config, s: State, s': State, e: nat)
    requires Valid(c) && Fits(c, s) && Fits(c, s') && e < |s.events|
    requires s'.nodes == s.nodes && s'.paths == s.paths && s'.starts == s.starts
    requires s'.events == s.events[e := s'.events[e]] && s'.queues == s.queues
    requires EventWeight(|c.pathsOf[e]|, s'.events[e].pc) < EventWeight(|c.pathsOf[e]|, s.events[e].pc)
    ensures Measure(c, s') < Measure(c, s)
  {
    EventChanges(c, s, e, s'.events[e]);
    ElsewhereWeighsNothing(c, SetEvent(s, e, s'.events[e]), s');
  }

  lemma NodeStepFalls(c: Config, s: State, a: Action)
    requires Valid(c) && Fits(c, s) && Enabled(c, s, a)
    requires a.FetchEnd? || a.Execute? || a.Work? || a.Announce?
    requires Fits(c, Apply(c, s, a))
    ensures Measure(c, Apply(c, s, a)) < Measure(c, s)
  {
    assert QueueWeights(Apply(c, s, a)) == QueueWeights(s);
    MoveFalls(c, s, Apply(c, s, a), a.node);
  }

  lemma QueueStepFalls(c: Config, s: State, a: Action)
    requires Valid(c) && Fits(c, s) && Queues(c, s) && Enabled(c, s, a) && (a.StartQueued? || a.Leave?)
    requires Fits(c, Apply(c, s, a))
    ensures Measure(c, Apply(c, s, a)) < Measure(c, s)
  {
    if a.StartQueued? {
      HeadIsQueued(c, s, a.queue);
      var n := s.queues[a.queue].waiting[0];
      var x := s.nodes[n].(phase := Running);
      NodeChanges(c, s, n, x);
      QueueChanges(c, SetNode(s, n, x), a.queue, WQ.Start(s.queues[a.queue]));
    } else {
      QueueChanges(c, s, a.queue, WQ.Finish(s.queues[a.queue]));
    }
  }

  lemma PathStepFalls(c: Config, s: State, a: Action)
    requires Valid(c) && Fits(c, s) && Prefetch(c, s) && Events(c, s) && Enabled(c, s, a)
    requires a.PathRequest? || a.PathFire? || a.PathEnd?
    requires Fits(c, Apply(c, s, a))
    ensures Measure(c, Apply(c, s, a)) < Measure(c, s)
  {
    match a
    case PathRequest(p) =>
      assert PathAt(c, s, p);
      PathMoveFalls(c, s, Apply(c, s, a), p);
    case PathFire(p) => PathMoveFalls(c, s, Apply(c, s, a), p);
    case PathEnd(p) => PathEndFalls(c, s, p);
  }

  lemma EventStepFalls(c: Config, s: State, a: Action)
    requires Valid(c) && Fits(c, s) && Events(c, s) && Enabled(c, s, a)
    requires a.LaunchPath? || a.LaunchEnd? || a.EventFire?
    requires Fits(c, Apply(c, s, a))
    ensures Measure(c, Apply(c, s, a)) < Measure(c, s)
  {
    match a
    case LaunchPath(e) =>
      NextDormant(c, s, e);
      LaunchFalls(c, s, e);
    case LaunchEnd(e) => EventMoveFalls(c, s, Apply(c, s, a), e);
    case EventFire(e) => EventMoveFalls(c, s, Apply(c, s, a), e);
  }

  /** Every step uses up a part of a finite budget. */
  lemma StepFalls(c: Config, s: State, a: Action)
    requires Valid(c) && Fits(c, s) && Inv(c, s) && Enabled(c, s, a)
    ensures Fits(c, Apply(c, s, a)) && Measure(c, Apply(c, s, a)) < Measure(c, s)
  {
    ApplyFits(c, s, a);
    if a.FetchEnd? || a.Execute? || a.Work? || a.Announce? {
      NodeStepFalls(c, s, a);
    } else if a.StartQueued? || a.Leave? {
      QueueStepFalls(c, s, a);
    } else if a.Take? || a.Recheck? || a.Look? {
      HiddenFalls(c, s, a);
    } else if a.FetchAdd? {
      FetchAddFalls(c, s, a.node, a.late);
    } else if a.FetchStart? {
      FetchStartFalls(c, s, a.node);
    } else if a.Release? {
      ReleaseFalls(c, s, a.node, a.waiter, a.reader);
    } else if a.StartFilter? {
      StartFilterFalls(c, s, a.starter);
    } else if a.PathAsk? {
      PathAskFalls(c, s, a.path, a.late);
    } else if a.LaunchPath? || a.LaunchEnd? || a.EventFire? {
      EventStepFalls(c, s, a);
    } else {
      PathStepFalls(c, s, a);
    }
  }

  /** Each action of the run is a real step where it is taken. */
  ghost predicate Proper(c: Config, s: State, acts: seq<Action>)
    requires Valid(c) && Fits(c, s)
    decreases |acts|
  {
    acts != [] ==> Enabled(c, s, acts[0]) && Proper(c, Step(c, s, acts[0]), acts[1..])
  }

  /** Every run is finite: it has at most as many steps as the measure allows. */
  lemma {:induction false} RunsEnd(c: Config, s: State, acts: seq<Action>)
    requires Valid(c) && Fits(c, s) && Inv(c, s) && Proper(c, s, acts)
    ensures |acts| + Measure(c, Run(c, s, acts)) <= Measure(c, s)
    decreases |acts|
  {
    if acts != [] {
      StepFalls(c, s, acts[0]);
      ApplyKeepsInv(c, s, acts[0]);
      RunsEnd(c, Step(c, s, acts[0]), acts[1..]);
    }
  }

  lemma {:induction false} Continue(c: Config, s: State) returns (acts: seq<Action>)
    requires Valid(c) && Fits(c, s) && Inv(c, s)
    ensures Proper(c, s, acts) && Complete(c, Run(c, s, acts))
    decreases Measure(c, s)
  {
    if Complete(c, s) {
      acts := [];
    } else {
      var a := SomethingGoesOn(c, s);
      StepFalls(c, s, a);
      ApplyKeepsInv(c, s, a);
      var rest := Continue(c, Apply(c, s, a));
      acts := [a] + rest;
      assert acts[1..] == rest;
    }
  }

  /** Wherever a run has come to, it can be continued until all is done, and within the
      measure's number of steps it has to be: it cannot go on for longer, nor stop before. */
  lemma AlwaysCompletes(c: Config, s: State)
    requires Valid(c) && Fits(c, s) && Inv(c, s)
    ensures exists acts :: Proper(c, s, acts) && Complete(c, Run(c, s, acts))
    ensures forall acts | Proper(c, s, acts) ::
      && |acts| <= Measure(c, s)
      && ((forall a :: !Enabled(c, Run(c, s, acts), a)) <==> Complete(c, Run(c, s, acts)))
  {
    var done := Continue(c, s);
    forall acts | Proper(c, s, acts)
      ensures |acts| <= Measure(c, s)
      ensures (forall a :: !Enabled(c, Run(c, s, acts), a)) <==> Complete(c, Run(c, s, acts))
    {
      RunsEnd(c, s, acts);
      RunKeepsInv(c, s, acts);
      NoDeadlock(c, Run(c, s, acts));
    }
  }
}
